/** A handle used again after a cleanup that left the connection unusable: the
    aborted state is forgotten while the server still skips. */
module ForgottenAbort {
  import opened Protocol
  import opened Server
  import opened Machines
  import opened Connection
  import opened PipelineQueue
  import opened Pipelining
  import opened LostSync

  /** Sync, and an execution flushed behind it that the server refuses. */
  method FlushBehindSync() returns (conn: Conn, p: Pipeline)
    ensures p.conn == conn && p.Valid() && conn.Ready() && conn.wire.strategy == Refusing
    ensures conn.wire.Valid() && conn.wire.Calm() && conn.wire.Survivable() && AllSurvive(p.owed)
    ensures Obeyed(Refusing, conn.wire.log) && 0 <= p.Front() <= |conn.wire.log|
    ensures !p.unfinished && p.expectations == [PipelineQueue.Sync, Execution(BindExecute)] && conn.writeBuffer == []
    ensures conn.wire.mode == Skipping
    ensures fresh(conn) && fresh(conn.wire) && fresh(p)
  {
    hide Conforms, Survives, Conforming, Coupling, AllSurvive, Obeyed, Pipeline.Coupled, Pipeline.Spoiled;
    hide Wire.Calm, Wire.Survivable;
    RefusingConforms();
    conn, p := OpenCalm(Refusing);
    var _ := p.Sync();
    var _ := p.Exec(BindExecute, Some([]), true);
    var _ := p.Flush();
    EndsSkipping(p);
    p.FrontLogged();
  }

  lemma EndsSkipping(p: Pipeline)
    requires p.Valid() && p.conn.Ready() && p.from == Normal && p.conn.writeBuffer == []
    requires p.expectations == [PipelineQueue.Sync, Execution(BindExecute)]
    requires p.conn.wire.strategy == Refusing && Obeyed(Refusing, p.conn.wire.log)
    ensures p.conn.wire.mode == Skipping
  {
    hide Chain, Flatten, LastStatus, Tracks, Refusing, Conforms, NextMode, Obeyed;
    var owed, log := p.owed, p.conn.wire.log;
    TwoOwed(p.expectations, owed, p.front, |p.conn.tickets|);
    assert owed[0] == log[|log| - 2] && owed[1] == log[|log| - 1];
    LastTwo(log);
    RefusesSecond(owed, p.conn.wire.mode, |log| - 2);
  }

  lemma LastTwo(log: seq<Served>)
    requires |log| >= 2 && Obeyed(Refusing, log)
    ensures forall i | |log| - 2 <= i < |log| :: log[i].trace == Refusing(i, log[i].unit, log[i].mode)
  {
  }

  lemma TwoOwed(q: seq<Expectation>, owed: seq<Served>, lo: nat, hi: nat)
    requires q == [PipelineQueue.Sync, Execution(BindExecute)] && Tracks(q, owed, [], lo, hi)
    ensures |owed| == 2 && owed[0].unit.SyncPoint? && owed[1].unit.Exec?
  {
    hide Tracks;
    HeadSent(q, owed, [], lo, hi);
    HeadPopped(q, owed, [], lo, hi);
    HeadSent(q[1..], owed[1..], [], lo, hi);
    HeadPopped(q[1..], owed[1..], [], lo, hi);
    HeadSent(q[1..][1..], owed[1..][1..], [], lo + 1, hi);
  }

  lemma RefusesSecond(owed: seq<Served>, to: Mode, n: nat)
    requires |owed| == 2 && owed[0].unit.SyncPoint? && owed[1].unit.Exec? && Chain(Normal, owed, to)
    requires owed[0].trace == Refusing(n, owed[0].unit, owed[0].mode)
    requires owed[1].trace == Refusing(n + 1, owed[1].unit, owed[1].mode)
    ensures to == Skipping
  {
    hide Conforms;
    ChainHead(Normal, owed, to);
    ChainHead(NextMode(Normal, owed[0].trace), owed[1..], to);
    assert owed[1..][0] == owed[1] && owed[1..][1..] == [];
  }

  /** A cleanup that nothing disturbs: it leaves the handle reusable and the
      connection unusable, and not aborted while the server skips. */
  method CleanupForgets() returns (conn: Conn, p: Pipeline)
    ensures p.conn == conn && p.Valid() && conn.wire.mode == Skipping
    ensures conn.Ready() && conn.IsBroken() && p.unfinished
    ensures !p.aborted && p.ReadMode() == Skipping
    ensures p.expectations == [] && conn.writeBuffer == [] && p.owed == [] && p.queueSeq == p.claimSeq == 0
    ensures conn.wire.Calm() && conn.wire.Survivable()
    ensures fresh(conn) && fresh(conn.wire) && fresh(p)
  {
    hide Coupling, AllSurvive, Conforming, Wire.Survivable, Wire.Calm, Obeyed, Chain, CleanFrom;
    conn, p := FlushBehindSync();
    ghost var front := p.Front();
    p.Cleanup();
    RefusingClean(conn.wire.log, front);
    NothingOwed(p);
    p.AbortMirrors();
  }

  /** Used again, for an execution and a second cleanup, never disturbed, it
      meets a ReadyForQuery where it expects a reply. The connection fails for
      good, with the server alive. */
  method ForgetAbort() returns (conn: Conn, p: Pipeline)
    ensures p.conn == conn && p.Valid() && conn.wire.mode != Dead && !conn.Ready()
  {
    hide Coupling, AllSurvive, Conforming, Wire.Survivable, Wire.Calm, Obeyed, Chain, CleanFrom;
    conn, p := CleanupForgets();
    p.AbortMirrors();
    var _ := p.Exec(BindExecute, Some([]), true);
    assert AllSurvive([]) by {
      NoneFatal();
    }
    p.Cleanup();
  }

  /** Used again, for an execution that is flushed: the server skips it. */
  method FlushForgotten() returns (conn: Conn, p: Pipeline, ticket: Ticket)
    ensures p.conn == conn && p.Valid() && conn.Ready() && conn.wire.mode != Dead && conn.wire.Survivable()
    ensures conn.wire.Valid() && !p.aborted && p.Sent() == [Execution(BindExecute)] && !p.halfWritten
    ensures ticket.seqNo == p.claimSeq
    ensures 0 <= p.Front() < |conn.wire.log| && conn.wire.log[p.Front()].mode == Skipping
    ensures fresh(conn) && fresh(conn.wire) && fresh(p)
  {
    hide Coupling, AllSurvive, Conforming, Wire.Survivable, Wire.Calm, Obeyed, Chain, CleanFrom, Pipeline.Coupled;
    hide Pipeline.Spoiled, Pipeline.Numbered, Pipeline.Surplus;
    conn, p := CleanupForgets();
    p.AbortMirrors();
    var queued := p.Exec(BindExecute, Some([]), true);
    ticket := queued.value;
    var _ := p.Flush();
    p.FrontExec();
  }

  /** Its claim, never disturbed, does not come to an end, with the server
      alive. */
  method ClaimForgotten() returns (conn: Conn, p: Pipeline, r: Outcome<()>)
    ensures p.conn == conn && p.Valid() && conn.wire.mode != Dead && !conn.Ready() && !r.Done?
  {
    hide Pipeline.Valid, Pipeline.Spoiled, Pipeline.Taken, Pipeline.Numbered, Pipeline.Quiet, Executions;
    hide Pipeline.Surplus, Pipeline.Sent, Wire.Survivable, Pipeline.Lost, Conforming;
    var ticket;
    conn, p, ticket := FlushForgotten();
    ghost var k, tag := p.Front(), p.front;
    var h := new Recorder(_ => Done(()));
    r := p.ClaimWithHandler(ticket, h);
    NotSkipped(p, ticket, h, k, tag, r);
  }

  lemma NotSkipped(p: Pipeline, ticket: Ticket, h: Recorder, k: int, tag: nat, r: Outcome<()>)
    requires p.Taken(ticket, h, [], [Execution(BindExecute)], k, tag, false, r)
    requires 0 <= k < |p.conn.wire.log| && p.conn.wire.log[k].mode == Skipping
    ensures !p.conn.Ready()
  {
  }

  lemma NoneFatal()
    ensures AllSurvive([])
  {
  }
}
