/** fmt.Sprintf for the verbs the provider's URL and id templates use. */
module Fmt {
  import opened Strconv

  /** An operand of Sprintf: a Go string or a Go int. */
  datatype Arg = S(s: string) | D(i: int)

  predicate IsVerb(c: char) {
    c == 's' || c == 'd'
  }

  /** One operand under one verb; a wrong-typed operand renders as Go does, %!s(int=5). */
  function Render(verb: char, a: Arg): string {
    match a
    case S(s) => if verb == 's' then s else "%!" + [verb] + "(string=" + s + ")"
    case D(i) => if verb == 'd' then Itoa(i) else "%!" + [verb] + "(int=" + Itoa(i) + ")"
  }

  /** fmt.Sprintf(t, args...): verbs %s and %d take the operands in order,
      %% is a literal percent sign, a verb without an operand renders as
      %!s(MISSING), and every other character is copied. */
  function Sprintf(t: string, args: seq<Arg>): string
    decreases |t|
  {
    if t == [] then ""
    else if t[0] == '%' && |t| >= 2 && IsVerb(t[1]) then
      (if args == [] then "%!" + [t[1]] + "(MISSING)" else Render(t[1], args[0]))
        + Sprintf(t[2..], if args == [] then [] else args[1..])
    else if t[0] == '%' && |t| >= 2 && t[1] == '%' then
      "%" + Sprintf(t[2..], args)
    else
      [t[0]] + Sprintf(t[1..], args)
  }

  /** Text without a percent sign is copied as it is. */
  lemma {:induction false} SprintfLiteral(lit: string, t: string, args: seq<Arg>)
    requires '%' !in lit
    ensures Sprintf(lit + t, args) == lit + Sprintf(t, args)
    decreases |lit|
  {
    if lit != [] {
      assert (lit + t)[0] == lit[0] != '%';
      assert (lit + t)[1..] == lit[1..] + t;
      SprintfLiteral(lit[1..], t, args);
      var u := lit + t;
      calc {
        Sprintf(u, args);
        [u[0]] + Sprintf(u[1..], args);
        [lit[0]] + (lit[1..] + Sprintf(t, args));
        ([lit[0]] + lit[1..]) + Sprintf(t, args);
        { assert lit == [lit[0]] + lit[1..]; }
        lit + Sprintf(t, args);
      }
    } else {
      assert lit + t == t;
    }
  }

  /** %s takes the next operand, a string, verbatim. */
  lemma SprintfString(t: string, x: string, args: seq<Arg>)
    ensures Sprintf("%s" + t, [S(x)] + args) == x + Sprintf(t, args)
  {
    assert ("%s" + t)[2..] == t;
    assert ([S(x)] + args)[1..] == args;
  }

  /** %d takes the next operand, an int, in decimal. */
  lemma SprintfDecimal(t: string, x: int, args: seq<Arg>)
    ensures Sprintf("%d" + t, [D(x)] + args) == Itoa(x) + Sprintf(t, args)
  {
    assert ("%d" + t)[2..] == t;
    assert ([D(x)] + args)[1..] == args;
  }

  /** fmt.Sprintf("%d", x) is the decimal rendering of x. */
  lemma SprintfDecimalOnly(x: int)
    ensures Sprintf("%d", [D(x)]) == Itoa(x)
  {
    SprintfDecimal("", x, []);
    assert "%d" + "" == "%d";
    assert [D(x)] + [] == [D(x)];
  }

  /** A template with no verb left renders as its text. */
  lemma SprintfDone(lit: string, args: seq<Arg>)
    requires '%' !in lit
    ensures Sprintf(lit, args) == lit
  {
    SprintfLiteral(lit, "", args);
    assert lit + "" == lit;
  }

  /** Literal text, then %s: the text, then the next string operand. */
  lemma SprintfLiteralString(p0: string, rest: string, a: string, args: seq<Arg>)
    requires '%' !in p0
    ensures Sprintf(p0 + "%s" + rest, [S(a)] + args) == p0 + a + Sprintf(rest, args)
  {
    var t := "%s" + rest;
    calc {
      Sprintf(p0 + "%s" + rest, [S(a)] + args);
      { assert p0 + "%s" + rest == p0 + t; }
      Sprintf(p0 + t, [S(a)] + args);
      { SprintfLiteral(p0, t, [S(a)] + args); }
      p0 + Sprintf(t, [S(a)] + args);
      { SprintfString(rest, a, args); }
      p0 + (a + Sprintf(rest, args));
      p0 + a + Sprintf(rest, args);
    }
  }

  /** Literal text, then %d: the text, then the next int operand in decimal. */
  lemma SprintfLiteralDecimal(p0: string, rest: string, x: int, args: seq<Arg>)
    requires '%' !in p0
    ensures Sprintf(p0 + "%d" + rest, [D(x)] + args) == p0 + Itoa(x) + Sprintf(rest, args)
  {
    var t := "%d" + rest;
    calc {
      Sprintf(p0 + "%d" + rest, [D(x)] + args);
      { assert p0 + "%d" + rest == p0 + t; }
      Sprintf(p0 + t, [D(x)] + args);
      { SprintfLiteral(p0, t, [D(x)] + args); }
      p0 + Sprintf(t, [D(x)] + args);
      { SprintfDecimal(rest, x, args); }
      p0 + (Itoa(x) + Sprintf(rest, args));
      p0 + Itoa(x) + Sprintf(rest, args);
    }
  }

  /** A template with one %s between two literal texts. */
  lemma Sprintf1(p0: string, p1: string, a: string)
    requires '%' !in p0 && '%' !in p1
    ensures Sprintf(p0 + "%s" + p1, [S(a)]) == p0 + a + p1
  {
    assert [S(a)] == [S(a)] + [];
    SprintfLiteralString(p0, p1, a, []);
    SprintfDone(p1, []);
  }

  /** A template with two %s verbs between literal texts. */
  lemma Sprintf2(p0: string, p1: string, p2: string, a: string, b: string)
    requires '%' !in p0 && '%' !in p1 && '%' !in p2
    ensures Sprintf(p0 + "%s" + p1 + "%s" + p2, [S(a), S(b)]) == p0 + a + p1 + b + p2
  {
    var rest := p1 + "%s" + p2;
    assert p0 + "%s" + p1 + "%s" + p2 == p0 + "%s" + rest;
    assert [S(a), S(b)] == [S(a)] + [S(b)];
    SprintfLiteralString(p0, rest, a, [S(b)]);
    Sprintf1(p1, p2, b);
  }

  /** A template with three %s verbs between literal texts. */
  lemma Sprintf3(p0: string, p1: string, p2: string, p3: string, a: string, b: string, c: string)
    requires '%' !in p0 && '%' !in p1 && '%' !in p2 && '%' !in p3
    ensures Sprintf(p0 + "%s" + p1 + "%s" + p2 + "%s" + p3, [S(a), S(b), S(c)]) == p0 + a + p1 + b + p2 + c + p3
  {
    var rest := p1 + "%s" + p2 + "%s" + p3;
    assert p0 + "%s" + p1 + "%s" + p2 + "%s" + p3 == p0 + "%s" + rest;
    assert [S(a), S(b), S(c)] == [S(a)] + [S(b), S(c)];
    SprintfLiteralString(p0, rest, a, [S(b), S(c)]);
    Sprintf2(p1, p2, p3, b, c);
    Reassociate5(p0 + a, p1, b, p2, c, p3);
  }

  lemma Reassociate5(x: string, q1: string, q2: string, q3: string, q4: string, q5: string)
    ensures x + (q1 + q2 + q3 + q4 + q5) == x + q1 + q2 + q3 + q4 + q5
  {
  }

  /** A template with one %d between two literal texts. */
  lemma SprintfDecimal1(p0: string, p1: string, x: int)
    requires '%' !in p0 && '%' !in p1
    ensures Sprintf(p0 + "%d" + p1, [D(x)]) == p0 + Itoa(x) + p1
  {
    assert [D(x)] == [D(x)] + [];
    SprintfLiteralDecimal(p0, p1, x, []);
    SprintfDone(p1, []);
  }

  lemma Reassociate3(x: string, q1: string, q2: string, q3: string)
    ensures x + (q1 + q2 + q3) == x + q1 + q2 + q3
  {
  }

  /** A template with a %s and then a %d between literal texts. */
  lemma SprintfStringDecimal(p0: string, p1: string, p2: string, a: string, x: int)
    requires '%' !in p0 && '%' !in p1 && '%' !in p2
    ensures Sprintf(p0 + "%s" + p1 + "%d" + p2, [S(a), D(x)]) == p0 + a + p1 + Itoa(x) + p2
  {
    var rest := p1 + "%d" + p2;
    assert p0 + "%s" + p1 + "%d" + p2 == p0 + "%s" + rest;
    assert [S(a), D(x)] == [S(a)] + [D(x)];
    SprintfLiteralString(p0, rest, a, [D(x)]);
    SprintfDecimal1(p1, p2, x);
    Reassociate3(p0 + a, p1, Itoa(x), p2);
  }
}
