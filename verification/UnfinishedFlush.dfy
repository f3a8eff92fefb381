/** A flush behind parameters that did not encode: the connection can call
    itself usable with its session over. */
module UnfinishedFlush {
  import opened Protocol
  import opened Server
  import opened Connection
  import opened PipelineQueue
  import opened Pipelining
  import opened LostSync

  lemma {:induction false} ReadyStays(t: seq<BackMsg>, more: seq<BackMsg>)
    requires ReadyNext(t)
    ensures ReadyNext(t + more)
    decreases t
  {
    if t[0].Async? {
      assert (t + more)[1..] == t[1..] + more;
      ReadyStays(t[1..], more);
    }
  }

  /** The parameters of the next execution do not encode, and the caller
      flushes all the same. The server ends the session. The cleanup finds a
      Sync in the queue and nothing to send, reads up to the answer of that
      Sync, and the connection calls itself usable. Nothing is disturbed. */
  method FlushUnfinished() returns (conn: Conn, p: Pipeline)
    ensures p.conn == conn && !conn.IsBroken() && conn.wire.mode == Dead && !conn.InStep()
  {
    hide Pipeline.Coupled, Pipeline.Spoiled, Wire.Survivable, Conforming, Obeyed, Wire.Calm, ReadyNext;
    hide Pipeline.Numbered, Pipeline.Surplus, AllSurvive;
    conn, p := SyncFailed();
    ghost var unread := conn.wire.unread;
    var _ := p.Exec(BindExecute, Some([]), false);
    var _ := p.Flush();
    ReadyStays(unread, conn.wire.unread[|unread|..]);
    assert unread + conn.wire.unread[|unread|..] == conn.wire.unread;
    p.Cleanup();
  }
}
