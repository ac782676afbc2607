/** strings.SplitN and strings.Join, for a one-character separator. */
module Strings {

  /** The number of occurrences of c in s. */
  function Count(s: string, c: char): nat {
    multiset(s)[c]
  }

  /** The index of the first occurrence of c in s. */
  function IndexOf(s: string, c: char): (i: nat)
    requires c in s
    ensures i < |s| && s[i] == c && c !in s[..i]
  {
    if s[0] == c then 0 else 1 + IndexOf(s[1..], c)
  }

  /** strings.SplitN(s, string(sep), n) for n >= 0: at most n pieces, the last
      one holding the unsplit rest; n == 0 gives no pieces at all. */
  function SplitN(s: string, sep: char, n: nat): (parts: seq<string>)
    decreases n
  {
    if n == 0 then []
    else if n == 1 || sep !in s then [s]
    else
      var i := IndexOf(s, sep);
      [s[..i]] + SplitN(s[i + 1..], sep, n - 1)
  }

  /** strings.Join(parts, string(sep)) */
  function Join(parts: seq<string>, sep: char): string
    decreases |parts|
  {
    if parts == [] then ""
    else if |parts| == 1 then parts[0]
    else parts[0] + [sep] + Join(parts[1..], sep)
  }

  lemma CountSplit(s: string, i: nat, c: char)
    requires i < |s| && s[i] == c && c !in s[..i]
    ensures Count(s, c) == Count(s[i + 1..], c) + 1
  {
    assert s == s[..i] + [s[i]] + s[i + 1..];
    assert multiset(s) == multiset(s[..i]) + multiset{c} + multiset(s[i + 1..]);
  }

  /** SplitN gives min(n, separators + 1) pieces. */
  lemma {:induction false} SplitNLength(s: string, sep: char, n: nat)
    requires n >= 1
    ensures |SplitN(s, sep, n)| == if Count(s, sep) + 1 < n then Count(s, sep) + 1 else n
    decreases n
  {
    if n == 1 {
    } else if sep !in s {
      assert Count(s, sep) == 0;
    } else {
      var i := IndexOf(s, sep);
      CountSplit(s, i, sep);
      SplitNLength(s[i + 1..], sep, n - 1);
    }
  }

  /** Every piece but the last is free of the separator. */
  lemma {:induction false} SplitNPiecesFree(s: string, sep: char, n: nat)
    ensures forall j :: 0 <= j < |SplitN(s, sep, n)| - 1 ==> sep !in SplitN(s, sep, n)[j]
    decreases n
  {
    if n >= 2 && sep in s {
      var i := IndexOf(s, sep);
      SplitNPiecesFree(s[i + 1..], sep, n - 1);
    }
  }

  /** Joining the pieces gives back the input: nothing is lost by the split. */
  lemma {:induction false} SplitNJoin(s: string, sep: char, n: nat)
    requires n >= 1
    ensures Join(SplitN(s, sep, n), sep) == s
    decreases n
  {
    if n >= 2 && sep in s {
      var i := IndexOf(s, sep);
      SplitNJoin(s[i + 1..], sep, n - 1);
      assert s == s[..i] + [sep] + s[i + 1..];
      SplitNJoinAtSeparator(s, s[..i], sep, s[i + 1..], n);
    } else {
      SplitNJoinWhole(s, sep, n);
    }
  }

  /** With one piece allowed, or no separator, the single piece is the input. */
  lemma SplitNJoinWhole(s: string, sep: char, n: nat)
    requires n == 1 || (n >= 1 && sep !in s)
    ensures Join(SplitN(s, sep, n), sep) == s
  {
    assert SplitN(s, sep, n) == [s];
  }

  /** Cutting at the first separator: the head, the separator, and the rest
      as its own pieces rejoin to the input. */
  lemma SplitNJoinAtSeparator(s: string, head: string, sep: char, tail: string, n: nat)
    requires n >= 2 && sep !in head && s == head + [sep] + tail
    requires Join(SplitN(tail, sep, n - 1), sep) == tail
    ensures Join(SplitN(s, sep, n), sep) == s
  {
    SplitNStep(head, sep, tail, n - 1);
    SplitNLength(tail, sep, n - 1);
    JoinCons(head, SplitN(tail, sep, n - 1), sep, tail);
  }

  /** Joining a head piece before pieces that join to `tail`. */
  lemma JoinCons(head: string, rest: seq<string>, sep: char, tail: string)
    requires |rest| >= 1 && Join(rest, sep) == tail
    ensures Join([head] + rest, sep) == head + [sep] + tail
  {
    JoinStep([head] + rest, sep);
    assert ([head] + rest)[1..] == rest;
  }

  /** The first separator of a + [sep] + b, when a has none, is the one after a. */
  lemma {:induction false} IndexOfAfterFree(a: string, sep: char, b: string)
    requires sep !in a
    ensures IndexOf(a + [sep] + b, sep) == |a|
    decreases |a|
  {
    if a != [] {
      assert (a + [sep] + b)[1..] == a[1..] + [sep] + b;
      IndexOfAfterFree(a[1..], sep, b);
    }
  }

  /** Splitting at a first separator that follows a separator-free head. */
  lemma SplitNStep(head: string, sep: char, rest: string, n: nat)
    requires n >= 1 && sep !in head
    ensures SplitN(head + [sep] + rest, sep, n + 1) == [head] + SplitN(rest, sep, n)
  {
    var s := head + [sep] + rest;
    assert s[|head|] == sep;
    IndexOfAfterFree(head, sep, rest);
    assert s[..|head|] == head;
    assert s[|head| + 1..] == rest;
  }

  lemma JoinStep(parts: seq<string>, sep: char)
    requires |parts| >= 2
    ensures Join(parts, sep) == parts[0] + [sep] + Join(parts[1..], sep)
  {
  }

  /** Splitting a join of n pieces, all but the last free of the separator,
      gives back exactly those pieces; the last one may hold separators. */
  lemma {:induction false} SplitNOfJoin(parts: seq<string>, sep: char)
    requires |parts| >= 1
    requires forall j :: 0 <= j < |parts| - 1 ==> sep !in parts[j]
    ensures SplitN(Join(parts, sep), sep, |parts|) == parts
    decreases |parts|
  {
    if |parts| >= 2 {
      var head, tail := parts[0], parts[1..];
      assert forall j :: 0 <= j < |tail| - 1 ==> sep !in tail[j] by {
        forall j | 0 <= j < |tail| - 1 ensures sep !in tail[j] {
          assert tail[j] == parts[j + 1];
        }
      }
      SplitNOfJoin(tail, sep);
      JoinStep(parts, sep);
      assert sep !in head;
      SplitNOfJoinStep(head, tail, sep);
      assert parts == [head] + tail;
    } else {
      assert parts == [parts[0]];
      assert Join(parts, sep) == parts[0];
      assert SplitN(parts[0], sep, 1) == [parts[0]];
    }
  }

  lemma SplitNOfJoinStep(head: string, tail: seq<string>, sep: char)
    requires |tail| >= 1 && sep !in head
    requires SplitN(Join(tail, sep), sep, |tail|) == tail
    ensures SplitN(head + [sep] + Join(tail, sep), sep, |tail| + 1) == [head] + tail
  {
    SplitNStep(head, sep, Join(tail, sep), |tail|);
  }
}
