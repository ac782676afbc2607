/** The OVH API client (config.OVHClient) as seen from the provider: a remote
    that answers every request, modelled as an oracle. */
module Api {
  import opened Errors

  datatype Verb = Get | Post | Put | Delete

  /** One request: its verb, its path and the body it sends (nil for GET and DELETE). */
  datatype Request<P> = Request(verb: Verb, url: string, payload: Option<P>)

  /** The reply to one request: the decoded response body, or an error. */
  datatype Reply<B> = Replied(body: B) | Errored(err: ClientError)

  /** n copies of the same request, in the order they were issued. */
  function Repeat<P>(req: Request<P>, n: nat): (s: seq<Request<P>>)
    ensures |s| == n
    ensures forall i :: 0 <= i < n ==> s[i] == req
  {
    seq(n, _ => req)
  }

  lemma RepeatSnoc<P>(req: Request<P>, n: nat)
    ensures Repeat(req, n) + [req] == Repeat(req, n + 1)
  {
  }

  /** The remote API. `answer(k)` is the reply to the k-th request this client
      sends; `log` records every request sent so far. */
  class Client<P, B> {
    const answer: nat -> Reply<B>
    var log: seq<Request<P>>

    constructor (answer: nat -> Reply<B>)
      ensures this.answer == answer && log == []
    {
      this.answer := answer;
      log := [];
    }

    /** Send one request and receive the reply the remote gives to it. */
    method Call(verb: Verb, url: string, payload: Option<P>) returns (reply: Reply<B>)
      modifies this
      ensures log == old(log) + [Request(verb, url, payload)]
      ensures reply == answer(|old(log)|)
    {
      reply := answer(|log|);
      log := log + [Request(verb, url, payload)];
    }
  }
}
