/** What a Terraform CRUD function of a resource does, as a value: the basis
    of the specification of every resource operation modelled here. */
module Crud {
  import opened Errors
  import opened Api
  import opened Schema

  /** The error the function returns (or nil), the requests it sends in
      order, and the id and attributes it leaves in the state record. */
  datatype Effect<P> = Effect(outcome: Outcome, sent: seq<Request<P>>, id: string, attrs: map<string, Value>)

  /** The effect of sending `pre` first and then doing `e`. */
  function After<P>(pre: seq<Request<P>>, e: Effect<P>): Effect<P> {
    e.(sent := pre + e.sent)
  }

  /** A log that has had `pre` and then `e`'s requests appended to it has had
      the requests of After(pre, e) appended to it. */
  lemma LogAfter<P>(log: seq<Request<P>>, pre: seq<Request<P>>, e: Effect<P>)
    ensures log + pre + e.sent == log + After(pre, e).sent
  {
  }

  /** Sending more requests first changes neither the last request nor lessens the count. */
  lemma AfterKeepsLast<P>(pre: seq<Request<P>>, e: Effect<P>)
    requires |e.sent| >= 1
    ensures |After(pre, e).sent| >= |e.sent|
    ensures After(pre, e).sent[|After(pre, e).sent| - 1] == e.sent[|e.sent| - 1]
  {
  }
}
