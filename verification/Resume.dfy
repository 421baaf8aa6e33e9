/** Resumption down to the bytes: a connection of `watch` may break anywhere, even inside an entry. */
module Resume {
  import opened Prelude
  import opened Protocol
  import opened Delivery
  import opened Watch
  import opened Wire
  import S = Sse

  /** Everything an open stream has yielded is about its submission. */
  lemma StreamIsOfItsSubmission(s: Session)
    requires InStep(s) && !s.feed.phase.Closed?
    ensures forall i :: 0 <= i < |s.feed.cursor.out| ==> s.feed.cursor.out[i].submission == s.feed.id
  {
    LegalIsSequenced(s.feed.id, s.feed.accepted, s.feed.log);
  }

  /**
    What the client makes of a connection that breaks after any number of bytes is what it makes of some
    number of whole entries. So every behaviour of `watch` over such connections is a behaviour of the
    session, to which `Watch.EndToEndResume` applies.
  */
  lemma BrokenConnectionIsSomeFetches(s: Session, items: seq<S.Printed>, crlf: seq<bool>, chunks: seq<string>, n: nat,
                                      max: nat, json: Event -> string, decode: string -> Option<Event>)
    returns (k: nat)
    requires InStep(s) && !s.feed.phase.Closed? && s.taken == 0
    requires AllSerialised(s.feed.cursor.out, json, decode, max)
    requires Carries(items, s.feed.cursor.out, json) && ShortComments(items, max) && max > 0
    requires |crlf| == |S.Printout(items)| && n <= |S.Text(S.Printout(items), crlf)|
    requires Concat(chunks) == S.Text(S.Printout(items), crlf)[..n]
    ensures var read, out := S.FedAll(S.START, chunks, max), s.feed.cursor.out;
      && read.failure.None? && |read.out| == k <= |out|
      && (forall i :: 0 <= i < k ==> ParseEvent(read.out[i], s.feed.id, decode) == Ok(out[i]))
      && Go(s, Fetches(k)).client == TakeAll(s.client, out[..k], s.untilTerminal)
      && InStep(Go(s, Fetches(k)))
  {
    StreamIsOfItsSubmission(s);
    BrokenConnectionDeliversAPrefix(s.feed.cursor.out, s.feed.id, items, crlf, chunks, n, max, json, decode);
    k := |S.FedAll(S.START, chunks, max).out|;
    FetchesTake(s, k);
    GoKeepsInStep(s, Fetches(k));
  }
}
