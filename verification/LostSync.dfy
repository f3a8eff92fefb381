/** Claims on an aborted pipeline with a Sync at the front of its queue: what
    such a claim costs. */
module LostSync {
  import opened Protocol
  import opened Server
  import opened Machines
  import opened Connection
  import opened PipelineQueue
  import opened Pipelining

  const REFUSED := ServerError(Other("ERROR"), "42601")

  /** A server that refuses every statement. */
  function Refusing(n: nat, u: Unit, mode: Mode): seq<BackMsg> {
    if mode == Dead then []
    else if u.SyncPoint? || (u.SimpleQuery? && mode == Normal) then [ReadyForQuery('I')]
    else if mode == Skipping then []
    else [ErrorResponse(REFUSED)]
  }

  lemma RefusingConforms()
    ensures Conforming(Refusing)
    ensures forall n, u, mode :: Survives(Refusing(n, u, mode))
  {
    forall n, u, mode ensures Conforms(mode, u, Refusing(n, u, mode)) {
      var t := Refusing(n, u, mode);
      assert t != [] ==> t[1..] == [];
    }
  }

  /** It answers no Sync with an error. */
  lemma RefusingClean(log: seq<Served>, k: nat)
    requires Obeyed(Refusing, log) && k <= |log|
    ensures LeadClean(log[k..]) && CleanFrom(log, k, |log|)
  {
    forall i | 0 <= i < |log| ensures Clean(log[i]) {
      assert log[i].trace == Refusing(i, log[i].unit, log[i].mode);
    }
    SuffixClean(log, k);
    LeadOfClean(log[k..]);
  }

  /** A claim that steals a Sync, and a cleanup. Whenever the cleanup leaves
      the connection usable, and the server is alive, a response to bytes
      already sent is unread: the connection is out of step. It is left usable
      whenever the cleanup comes to its end and what was queued behind the lost
      Sync ends at a Sync, and always, if nothing disturbs it, when the lost
      Sync is followed by executions and one Sync. */
  method Derail(p: Pipeline, ticket: Ticket, h: Recorder)
    requires p.Valid() && p.conn.Ready() && p.Steals(ticket)
    modifies p, h, p.conn, p.conn.wire
    ensures !p.conn.IsBroken() && p.conn.wire.mode != Dead ==>
              p.conn.wire.unread != [] && !p.conn.InStep() && !p.conn.Valid()
    ensures p.conn.Ready() && EndsBehindSync(DropSyncs(Tail(old(p.Sent())))) && p.conn.wire.mode != Dead ==>
              !p.conn.IsBroken()
    ensures old(p.conn.wire.Calm() && p.conn.wire.Survivable() && AllSurvive(p.owed) && p.conn.wire.mode != Dead)
            && old(|p.expectations| > 1 && p.expectations[1].Execution? && SkipsToSync(p.Sent()[1..])) ==>
              !p.conn.IsBroken() && p.conn.wire.mode != Dead
  {
    hide Coupling, AllSurvive, Wire.Calm, Conforming, Obeyed, Answered, Hears, ReadyNext, Pipeline.Lost;
    hide Wire.Survivable;
    hide Readys, Syncs, Pipeline.Spoiled, Pipeline.Told, Pipeline.Coupled, LeadClean, CleanFrom;
    p.InDebt();
    NoneQueued();
    ghost var queue := p.Sent();
    assert |p.expectations| > 1 ==>
        queue[1..] != [] && queue[1..][0] == p.expectations[1..][0] == p.expectations[1];
    var _ := p.ClaimWithHandler(ticket, h);
    p.Cleanup();
    NothingLeft(p.conn.wire.unread);
  }

  lemma NothingLeft(unread: seq<BackMsg>)
    ensures unread == [] ==> Readys(unread) == 0
  {
  }

  /** A connection that nothing will disturb, and a pipeline. */
  method OpenCalm(strategy: Strategy) returns (conn: Conn, p: Pipeline)
    requires Conforming(strategy) && forall n, u, mode :: Survives(strategy(n, u, mode))
    ensures p.conn == conn && p.Valid() && conn.Ready() && conn.wire.strategy == strategy
    ensures conn.wire.Calm() && conn.wire.Survivable() && conn.wire.mode == Normal
    ensures Obeyed(strategy, conn.wire.log) && p.owed == [] && p.from == Normal && p.Front() == 0
    ensures AllSurvive(p.owed) && !p.unfinished && !p.Forgotten() && !p.aborted
    ensures p.claimSeq == 0 && p.queueSeq == 0 && p.expectations == [] && conn.writeBuffer == []
    ensures conn.tickets == [] && p.base == 0 && p.front == 0 && conn.wire.log == []
    ensures fresh(conn) && fresh(conn.wire) && fresh(p)
  {
    hide Conforms, Survives, Conforming, Coupling;
    var wire := new Wire(strategy, _ => Proceed, []);
    conn := new Conn(wire);
    p := new Pipeline(conn);
  }

  /** A pipeline with one execution sent. */
  method SendOne() returns (conn: Conn, p: Pipeline, ticket: Ticket)
    ensures p.conn == conn && p.Valid() && conn.Ready() && conn.wire.strategy == Refusing
    ensures conn.wire.Valid() && conn.wire.Calm()
    ensures conn.wire.Survivable() && conn.wire.mode != Dead
    ensures Obeyed(Refusing, conn.wire.log)
    ensures AllSurvive(p.owed) && !p.unfinished && !p.Forgotten() && !p.aborted && p.Front() == 0
    ensures ticket == Ticket(0, Some([]), conn, 0) && p.claimSeq == 0 && p.queueSeq == 1 && p.front == 0 == p.base
    ensures p.expectations == [Execution(BindExecute)] && conn.writeBuffer == []
    ensures fresh(conn) && fresh(conn.wire) && fresh(p)
  {
    hide Conforms, Survives, Conforming, Coupling, AllSurvive, Obeyed, Pipeline.Coupled, Pipeline.Spoiled;
    hide Wire.Calm, Wire.Survivable;
    RefusingConforms();
    conn, p := OpenCalm(Refusing);
    var queued := p.Exec(BindExecute, Some([]), true);
    ticket := queued.value;
    var _ := p.Flush();
  }

  /** Its claim reports the error and leaves the pipeline aborted. */
  method FailOne() returns (conn: Conn, p: Pipeline)
    ensures p.conn == conn && p.Valid() && conn.Ready() && conn.wire.strategy == Refusing
    ensures conn.wire.Valid() && conn.wire.Calm()
    ensures conn.wire.Survivable() && conn.wire.mode != Dead
    ensures p.aborted && p.claimSeq == 1 && p.queueSeq == 1 && p.expectations == [] && conn.writeBuffer == []
    ensures p.owed == [] && p.front == 1 && p.base == 0
    ensures fresh(conn) && fresh(conn.wire) && fresh(p)
  {
    hide Conforms, Conforming, Coupling, Pipeline.Coupled, AllSurvive, Wire.Survivable, Hears, Pipeline.Spoiled;
    hide LeadClean, CleanFrom;
    var ticket;
    conn, p, ticket := SendOne();
    p.FrontExec();
    var h := new Recorder(_ => Done(()));
    assert p.expectations + [] == p.expectations;
    var r := p.ClaimWithHandler(ticket, h);
    RefusingClean(conn.wire.log, 1);
    assert conn.wire.log[0].mode != Skipping ==> conn.wire.log[0].trace == [ErrorResponse(REFUSED)];
    assert !r.Done?;
    NothingOwed(p);
  }

  lemma NothingOwed(p: Pipeline)
    requires p.Valid() && p.conn.Ready() && p.expectations == []
    ensures p.owed == []
  {
    p.EmptyQueue();
  }

  /** Then a Sync is sent. */
  method SyncFailed() returns (conn: Conn, p: Pipeline)
    ensures p.conn == conn && p.Valid() && conn.Ready() && conn.wire.Valid() && conn.wire.Calm()
    ensures p.aborted && p.expectations == [PipelineQueue.Sync] && conn.writeBuffer == [] && !p.halfWritten
    ensures p.claimSeq == p.queueSeq == 1
    ensures ReadyNext(conn.wire.unread)
    ensures conn.wire.Survivable() && conn.wire.mode != Dead && AllSurvive(p.owed)
    ensures fresh(conn) && fresh(conn.wire) && fresh(p)
  {
    hide Coupling, Pipeline.Spoiled, Wire.Survivable, Conforming, Obeyed, Wire.Calm, ReadyNext;
    conn, p := FailOne();
    assert AllSurvive(p.owed);
    hide AllSurvive;
    var _ := p.Sync();
    p.SkippedToSync();
  }

  /** A failing execution, Flush, claim, Sync, execution, claim and cleanup,
      against a server that is never disturbed: the second claim takes the Sync
      for its own execution, and in the end the connection calls itself usable
      with responses unread. */
  method LoseSync() returns (conn: Conn, p: Pipeline)
    ensures p.conn == conn && conn.wire.mode != Dead
    ensures !conn.IsBroken() && conn.wire.unread != [] && !conn.InStep()
  {
    hide Pipeline.Coupled, Pipeline.Spoiled, Pipeline.Numbered, Wire.Survivable, Conforming, Wire.Calm, AllSurvive;
    hide ReadyNext, Pipeline.Surplus;
    conn, p := SyncFailed();
    var second := p.Exec(BindExecute, Some([]), true);
    var h := new Recorder(_ => Done(()));
    assert p.Sent() == [PipelineQueue.Sync, Execution(BindExecute), PipelineQueue.Sync];
    Derail(p, second.value, h);
  }
}
