/** A ticket outlives what it was issued for: claimed after a cleanup, or on
    another pipeline, it gets the result of a stranger. */
module StaleTickets {
  import opened Protocol
  import opened Server
  import opened Machines
  import opened Connection
  import opened PipelineQueue
  import opened Pipelining
  import opened LostSync

  /** One row, which names the execution. */
  function Result(tag: nat): seq<BackMsg> {
    [BackMsg.BindComplete, DataRow([tag]), CommandComplete("")]
  }

  /** A server that executes prepared statements, and refuses all else. */
  function Naming(n: nat, u: Unit, mode: Mode): seq<BackMsg> {
    if mode == Normal && u.Exec? && u.kind == BindExecute then Result(u.tag) else Refusing(n, u, mode)
  }

  lemma NamingConforms()
    ensures Conforming(Naming)
    ensures forall n, u, mode :: Survives(Naming(n, u, mode))
  {
    RefusingConforms();
    forall n, u, mode ensures Conforms(mode, u, Naming(n, u, mode)) {
      assert Conforms(mode, u, Refusing(n, u, mode));
      if mode == Normal && u.Exec? && u.kind == BindExecute {
        ResultIsReply(u.tag);
      }
    }
  }

  lemma ResultIsReply(tag: nat)
    ensures Reply(WantBind(ThenRows), Result(tag))
    ensures forall cols :: Hears(cols, Result(tag)) == [Row(cols, [tag]), ResultEnd("")]
  {
    var t := Result(tag);
    assert t[1..] == [DataRow([tag]), CommandComplete("")] && t[1..][1..] == [CommandComplete("")];
    assert t[1..][1..][1..] == [];
    forall cols ensures Hears(cols, t) == [Row(cols, [tag]), ResultEnd("")] {
      assert Hears(cols, t[1..][1..]) == [ResultEnd("")];
      assert Hears(cols, t[1..]) == [Row(cols, [tag]), ResultEnd("")];
    }
  }

  lemma NamingClean(log: seq<Served>, k: nat)
    requires Obeyed(Naming, log) && k <= |log|
    ensures LeadClean(log[k..]) && CleanFrom(log, k, |log|)
  {
    forall i | 0 <= i < |log| ensures Clean(log[i]) {
      assert log[i].trace == Naming(i, log[i].unit, log[i].mode);
    }
    SuffixClean(log, k);
    LeadOfClean(log[k..]);
  }

  /** Nothing is queued, and the server executes what it is sent. */
  ghost predicate Idles(p: Pipeline)
    reads p, p.conn, p.conn.wire
  {
    && p.expectations == [] && p.owed == [] && p.from == Normal && !p.aborted && !p.unfinished
    && p.conn.writeBuffer == [] && p.conn.wire.mode == Normal
  }

  /** An execution, Sync and cleanup, undisturbed: nothing of it is left but
      its ticket. */
  method RunOne(columns: Bytes) returns (conn: Conn, p: Pipeline, ticket: Ticket)
    ensures p.conn == conn && p.Valid() && !conn.IsBroken() && conn.wire.strategy == Naming
    ensures conn.wire.Calm() && conn.wire.Survivable() && Obeyed(Naming, conn.wire.log)
    ensures Idles(p)
    ensures p.queueSeq == p.claimSeq == 0 && p.base == p.front == 1 && conn.tickets == [0]
    ensures ticket == Ticket(0, Some(columns), conn, 0) && ticket.Genuine() && !p.Current(ticket)
    ensures fresh(conn) && fresh(conn.wire) && fresh(p)
  {
    hide Conforms, Survives, Conforming, Coupling, AllSurvive, Obeyed, Pipeline.Coupled, Pipeline.Spoiled;
    hide Wire.Calm, Wire.Survivable, CleanFrom, LeadClean;
    NamingConforms();
    conn, p := OpenCalm(Naming);
    var queued := p.Exec(BindExecute, Some(columns), true);
    ticket := queued.value;
    var _ := p.Sync();
    ghost var front := p.Front();
    p.Cleanup();
    NamingClean(conn.wire.log, front);
    NothingOwed(p);
    p.EmptyQueue();
    p.Abandoned();
  }

  /** What the claim of the execution at the front tells. */
  lemma TellsResult(p: Pipeline, ticket: Ticket, log: seq<Served>)
    requires p.AllSent() && p.expectations != [] && p.expectations[0] == Execution(BindExecute) && p.from == Normal
    requires p.conn.wire.log == log && Obeyed(Naming, log) && ticket.columns.Some?
    ensures 0 <= p.Front() < |log|
    ensures var s := log[p.Front()];
            && s.mode == Normal && s.unit == Server.Exec(BindExecute, p.front)
            && p.HeardBy(ticket, s) == [Row(ticket.columns.value, [p.front]), ResultEnd("")]
            && !s.trace[|s.trace| - 1].ErrorResponse? && s.trace != []
  {
    p.FrontExec();
    p.FrontLogged();
    hide Hears, Coupling;
    var s := log[p.Front()];
    assert s.trace == Naming(p.Front(), s.unit, s.mode);
    ResultIsReply(p.front);
  }

  /** An execution is sent. */
  method SendNext(p: Pipeline, columns: Bytes)
    requires p.Valid() && p.conn.Ready() && p.conn.wire.strategy == Naming && Idles(p)
    requires p.conn.wire.Calm() && p.conn.wire.Survivable() && Obeyed(Naming, p.conn.wire.log)
    modifies p, p.conn, p.conn.wire
    ensures p.Valid() && p.conn.Ready() && p.conn.wire.Valid() && p.Quiet() && !p.aborted && !p.Forgotten()
    ensures p.AllSent() && p.from == Normal && p.claimSeq == old(p.claimSeq) && p.front == old(p.front)
    ensures p.Sent() == p.expectations == [Execution(BindExecute), PipelineQueue.Sync]
    ensures p.conn.wire.strategy == Naming && Obeyed(Naming, p.conn.wire.log) && !p.halfWritten
  {
    hide Conforming, Coupling, AllSurvive, Pipeline.Spoiled, Obeyed, Wire.Calm, Wire.Survivable, Pipeline.Surplus;
    NoneFatal();
    var _ := p.Exec(BindExecute, Some(columns), true);
    var _ := p.Sync();
  }

  /** It is claimed with any ticket of the right number. */
  method ClaimNext(p: Pipeline, ticket: Ticket, columns: Bytes) returns (r: Outcome<()>, h: Recorder)
    requires p.Valid() && p.conn.Ready() && p.conn.wire.strategy == Naming && Idles(p)
    requires p.conn.wire.Calm() && p.conn.wire.Survivable() && Obeyed(Naming, p.conn.wire.log)
    requires p.claimSeq == ticket.seqNo && ticket.columns.Some?
    modifies p, p.conn, p.conn.wire
    ensures p.Valid() && p.conn.Ready() && fresh(h)
    ensures r.Done? && h.log == [Row(ticket.columns.value, [old(p.front)]), ResultEnd("")]
  {
    hide Conforming, AllSurvive, Pipeline.AllSent, Pipeline.Valid, Pipeline.Quiet, Pipeline.Forgotten, Obeyed;
    hide Pipeline.Spoiled, Wire.Calm, Wire.Survivable, CleanFrom, LeadClean, Hears, Pipeline.HeardBy, Pipeline.Surplus;
    hide Pipeline.Numbered, Pipeline.Sent, Executions;
    SendNext(p, columns);
    TellsResult(p, ticket, p.conn.wire.log);
    ghost var k, s := p.Front(), p.conn.wire.log[p.Front()];
    h := new Recorder(_ => Done(()));
    r := p.ClaimWithHandler(ticket, h);
    NamingClean(p.conn.wire.log, k + 1);
    assert p.conn.wire.log[k] == s && [] + p.HeardBy(ticket, s) == p.HeardBy(ticket, s);
  }

  lemma NoneFatal()
    ensures AllSurvive([])
  {
  }

  /** Another execution, on the same handle or on the next, is claimed with
      that ticket. Nothing is disturbed, and nothing fails: the claim is a
      success, with the rows of the second execution and the columns of the
      first. */
  method ClaimStale(columns: Bytes, columns': Bytes, other: bool) returns (p: Pipeline, r: Outcome<()>, h: Recorder)
    ensures p.Valid() && p.conn.Ready()
    ensures r.Done? && h.log == [Row(columns, [1]), ResultEnd("")]
  {
    hide Conforms, Survives, Conforming, Coupling, AllSurvive, Pipeline.Coupled, Pipeline.Spoiled, Obeyed;
    hide Wire.Calm, Wire.Survivable, CleanFrom, LeadClean, Hears;
    var conn, stale;
    conn, p, stale := RunOne(columns);
    if other {
      p.Abandoned();
      p := new Pipeline(conn);
      p.EmptyQueue();
    }
    r, h := ClaimNext(p, stale, columns');
  }

  /** Two executions that fail, Sync and cleanup. */
  method RunTwo() returns (conn: Conn, p: Pipeline, ticket: Ticket)
    ensures p.conn == conn && p.Valid() && conn.Ready() && conn.wire.strategy == Refusing && Idles(p)
    ensures conn.wire.Calm() && conn.wire.Survivable() && Obeyed(Refusing, conn.wire.log)
    ensures p.queueSeq == p.claimSeq == 0 && p.base == p.front == |conn.tickets|
    ensures ticket.seqNo == 1 && ticket.Genuine() && !p.Current(ticket)
    ensures fresh(conn) && fresh(conn.wire) && fresh(p)
  {
    hide Conforms, Survives, Conforming, Coupling, AllSurvive, Obeyed, Pipeline.Coupled, Pipeline.Spoiled;
    hide Wire.Calm, Wire.Survivable, CleanFrom, LeadClean;
    RefusingConforms();
    conn, p := OpenCalm(Refusing);
    var _ := p.Exec(BindExecute, Some([]), true);
    var queued := p.Exec(BindExecute, Some([]), true);
    ticket := queued.value;
    var _ := p.Sync();
    ghost var front := p.Front();
    p.Cleanup();
    RefusingClean(conn.wire.log, front);
    NothingOwed(p);
    p.EmptyQueue();
    p.Abandoned();
  }

  /** An execution that fails, and that nothing disturbs. */
  method FlushNext(p: Pipeline) returns (ticket: Ticket)
    requires p.Valid() && p.conn.Ready() && p.conn.wire.strategy == Refusing && Idles(p)
    requires p.conn.wire.Calm() && p.conn.wire.Survivable() && Obeyed(Refusing, p.conn.wire.log)
    requires p.queueSeq == p.claimSeq == 0
    modifies p, p.conn, p.conn.wire
    ensures p.Valid() && p.conn.Ready() && p.conn.wire.Valid() && p.Quiet() && !p.aborted && !p.Forgotten()
    ensures p.Sent() == p.expectations == [Execution(BindExecute)] && !p.halfWritten
    ensures p.queueSeq == 1 && p.claimSeq == ticket.seqNo == 0 && p.base == old(p.base) && ticket.columns.Some?
    ensures old(p.conn.tickets) <= p.conn.tickets
    ensures p.conn.wire.strategy == Refusing && Obeyed(Refusing, p.conn.wire.log)
    ensures 0 <= p.Front() < |p.conn.wire.log| && p.conn.wire.log[p.Front()].trace == [ErrorResponse(REFUSED)]
  {
    hide Conforms, Survives, Conforming, Coupling, AllSurvive, Pipeline.Coupled, Pipeline.Spoiled;
    hide Wire.Calm, Wire.Survivable, Pipeline.Numbered, Pipeline.Surplus, Obeyed;
    NoneFatal();
    var queued := p.Exec(BindExecute, Some([]), true);
    ticket := queued.value;
    var _ := p.Flush();
    p.FrontExec();
    RefusedAt(p.conn.wire.log, p.Front());
  }

  /** It is claimed: the pipeline is aborted, and its queue empty. */
  method FailNext(p: Pipeline)
    requires p.Valid() && p.conn.Ready() && p.conn.wire.strategy == Refusing && Idles(p)
    requires p.conn.wire.Calm() && p.conn.wire.Survivable() && Obeyed(Refusing, p.conn.wire.log)
    requires p.queueSeq == p.claimSeq == 0
    modifies p, p.conn, p.conn.wire
    ensures p.Valid() && p.conn.Ready() && p.aborted && p.expectations == [] && p.conn.writeBuffer == []
    ensures p.queueSeq == p.claimSeq == 1 && p.base == old(p.base)
    ensures old(p.conn.tickets) <= p.conn.tickets
  {
    hide Conforms, Survives, Conforming, Coupling, AllSurvive, Obeyed, CleanFrom, LeadClean, Hears;
    hide Wire.Calm, Wire.Survivable, Pipeline.Valid, Pipeline.Spoiled, Pipeline.Taken, Pipeline.Numbered;
    hide Pipeline.Surplus, Pipeline.Sent, Pipeline.Quiet, Pipeline.Forgotten, Pipeline.HeardBy, HeardAs, RowsOf;
    hide Flatten, Units, Executions, Syncs, Readys, Reply, Next, Pipeline.Coupled;
    var ticket := FlushNext(p);
    ghost var k, tag, s := p.Front(), p.front, p.conn.wire.log[p.Front()];
    var h := new Recorder(_ => Done(()));
    var r := p.ClaimWithHandler(ticket, h);
    RefusingClean(p.conn.wire.log, k + 1);
    assert p.conn.wire.log[k] == s;
    NotDone(p, ticket, h, k, tag, r);
  }

  lemma RefusedAt(log: seq<Served>, k: nat)
    requires Obeyed(Refusing, log) && k < |log| && log[k].unit.Exec? && log[k].mode == Normal
    ensures log[k].trace == [ErrorResponse(REFUSED)]
  {
  }

  /** A claim of what was refused does not succeed. */
  lemma NotDone(p: Pipeline, ticket: Ticket, h: Recorder, k: int, tag: nat, r: Outcome<()>)
    requires p.Taken(ticket, h, [], [Execution(BindExecute)], k, tag, false, r) && p.conn.Ready()
    requires 0 <= k < |p.conn.wire.log| && p.conn.wire.log[k].trace == [ErrorResponse(REFUSED)]
    ensures !r.Done?
  {
  }

  /** On an aborted pipeline with nothing queued, a stale ticket counts a claim
      that no execution answers for. From then on the pending count is below
      zero, and the next ticket handed out is not the next in turn. */
  method Overclaim() returns (p: Pipeline, next: Ticket)
    ensures p.Valid() && p.conn.Ready() && p.PendingCount() < Executions(p.expectations) == 1
    ensures next.Genuine() && p.Current(next) && next.seqNo != p.claimSeq
  {
    hide Conforms, Survives, Conforming, Coupling, AllSurvive, Pipeline.Coupled, Pipeline.Spoiled, Obeyed;
    hide Wire.Calm, Wire.Survivable, CleanFrom, LeadClean, Hears;
    var conn, stale;
    conn, p, stale := RunTwo();
    FailNext(p);
    var h := new Recorder(_ => Done(()));
    assert p.Sent() == [];
    var _ := p.ClaimWithHandler(stale, h);
    assert p.PendingCount() == -1;
    var queued := p.Exec(BindExecute, Some([]), true);
    next := queued.value;
  }
}
