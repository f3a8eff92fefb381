/** Whole runs: any sequence of calls on one connection and its pipelines,
    each interrupted wherever the schedule says. */
module Sessions {
  import opened Protocol
  import opened Server
  import opened Machines
  import opened Portals
  import opened Connection
  import opened PipelineQueue
  import opened Pipelining
  import opened Plans
  import opened PipelineScopes
  import NumericValues

  type Verdict = nat -> Outcome<()>

  datatype Call =
    | Query(text: string, verdict: Verdict)
    | ExecStatement(source: Source, params: nat, encodes: bool, verdict: Verdict)
    | PrepareOne(text: string, types: seq<nat>)
    | PrepareMany(texts: seq<string>)
    | CloseOne(stmt: PreparedStatement)
    | ExecMany(source: Source, paramSets: seq<nat>, chunkSize: nat, encode: nat -> bool)
    | LowFlush
    | LowSync
    | LowBind(portal: string, statement: string, params: nat, encodes: bool)
    | LowExecute(portal: string, maxRows: nat, verdict: Verdict)
    | LowClosePortal(portal: string)
    | Portal(source: Source, params: nat, encodes: bool, script: seq<PortalStep>, verdict: Verdict)
    | NamedPortal(portal: string, source: Source, params: nat, encodes: bool)
    | OpenPipeline
    | Queue(kind: ExecKind, columns: Option<Bytes>, encodes: bool)
    | FlushPipeline
    | SyncPipeline
    | Claim(ticket: Ticket, verdict: Verdict)
    | CleanupPipeline
    | DropPipeline
    | ForgetPipeline
  {
    /** A pipeline borrows the connection: its calls need one that is alive,
        all others need that none is. */
    predicate OnPipeline() {
      Queue? || FlushPipeline? || SyncPipeline? || Claim? || CleanupPipeline? || DropPipeline? || ForgetPipeline?
    }

    predicate LowLevel() {
      LowFlush? || LowSync? || LowBind? || LowExecute? || LowClosePortal? || Portal? || NamedPortal?
    }

    /** Giving a handle up, or taking one, reports nothing. */
    predicate Silent() {
      OpenPipeline? || CleanupPipeline? || DropPipeline? || ForgetPipeline?
    }
  }

  predicate Ascending(ids: seq<nat>) {
    forall i, j | 0 <= i < j < |ids| :: ids[i] < ids[j]
  }

  predicate AtMost(ids: seq<nat>, bound: nat) {
    forall i | 0 <= i < |ids| :: ids[i] <= bound
  }

  function Range(lo: nat, hi: nat): (ids: seq<nat>)
    requires lo <= hi
    ensures |ids| == hi - lo && forall i | 0 <= i < |ids| :: ids[i] == lo + 1 + i
  {
    seq(hi - lo, i requires i >= 0 => lo + 1 + i)
  }

  /** Statements that differ in their numbers differ in their names. */
  lemma DistinctNames(ids: seq<nat>)
    requires Ascending(ids)
    ensures forall i, j | 0 <= i < j < |ids| :: WireName(ids[i]) != WireName(ids[j])
  {
    forall i, j | 0 <= i < j < |ids| ensures WireName(ids[i]) != WireName(ids[j]) {
      NumericValues.ValueText(ids[i]);
      NumericValues.ValueText(ids[j]);
      assert WireName(ids[i])[8..] == Numerics.ToText(ids[i]) && WireName(ids[j])[8..] == Numerics.ToText(ids[j]);
    }
  }

  // -- What the calls of a run lead to, while the connection can go on

  datatype Outlook = Outlook(conn: Conn, handed: nat, live: Option<Plan>)

  /** The call is not made if borrowing rules it out, if it would steal a Sync,
      and if it flushes half a message. */
  function After(o: Outlook, c: Call): Outlook {
    match o.live
    case None => if c.OpenPipeline? then o.(live := Some(Opened(o.conn, o.handed))) else o
    case Some(plan) =>
      match c
      case Queue(kind, columns, encodes) =>
        o.(handed := o.handed + 1, live := Some(plan.AfterQueue(kind, columns, encodes)))
      case FlushPipeline => if plan.half then o else o.(live := Some(plan.AfterFlush()))
      case SyncPipeline => o.(live := Some(plan.AfterSync()))
      case Claim(ticket, _) =>
        if ticket.seqNo == plan.turn && StartsWithSync(plan.Sent()) then o
        else o.(live := Some(plan.AfterClaim(ticket.seqNo)))
      case CleanupPipeline => o.(live := Some(plan.AfterCleanup()))
      case DropPipeline => o.(live := None)
      case ForgetPipeline => o.(live := None)
      case _ => o
  }

  /** A claim in its turn, of an execution, with a ticket that the live pipeline
      handed out since its last cleanup, while the numbers are not shifted. */
  predicate Records(o: Outlook, c: Call) {
    && c.Claim? && o.live.Some? && c.ticket in o.live.value.tickets
    && c.ticket.seqNo == o.live.value.turn && o.live.value.AfterClaim(c.ticket.seqNo).aligned
  }

  function Foreseen(o: Outlook, script: seq<Call>): Outlook {
    if script == [] then o else After(Foreseen(o, Front(script)), Plans.Last(script))
  }

  /** The calls whose claims are recorded. */
  function Recordings(o: Outlook, script: seq<Call>): seq<nat> {
    if script == [] then []
    else
      var before := Foreseen(o, Front(script));
      Recordings(o, Front(script)) + if Records(before, Plans.Last(script)) then [|script| - 1] else []
  }

  /** What was recorded since there were `n` claims is what the calls `calls`
      told. */
  predicate Since(claims: seq<Claimed>, n: nat, calls: seq<nat>, script: seq<Call>, results: seq<Outcome<()>>) {
    && n <= |claims| <= n + |calls|
    && forall j | 0 <= j < |claims| - n ::
         && calls[j] < |script| && script[calls[j]].Claim? && calls[j] < |results|
         && claims[n + j].ticket == script[calls[j]].ticket && claims[n + j].outcome == results[calls[j]]
  }

  /** One call more, and what it told, if it did. */
  lemma SinceOn(claims: seq<Claimed>, claims': seq<Claimed>, n: nat, calls: seq<nat>, calls': seq<nat>,
                script: seq<Call>, i: nat, results: seq<Outcome<()>>, r: Outcome<()>)
    requires i < |script| && |results| == i && Since(claims, n, calls, script[..i], results)
    requires calls' == calls || (calls' == calls + [i] && script[i].Claim?)
    requires claims' == claims ||
             (|claims| == n + |calls| && calls' == calls + [i] && claims <= claims' && |claims'| == |claims| + 1
              && claims'[|claims|].ticket == script[i].ticket && claims'[|claims|].outcome == r)
    ensures Since(claims', n, calls', script[..i + 1], results + [r])
  {
    forall j | 0 <= j < |claims'| - n
      ensures calls'[j] < i + 1 && script[calls'[j]].Claim?
              && claims'[n + j].ticket == script[calls'[j]].ticket
              && claims'[n + j].outcome == (results + [r])[calls'[j]]
    {
      if j < |claims| - n {
        assert script[..i][calls[j]] == script[calls[j]] && claims'[n + j] == claims[n + j];
      }
    }
  }

  lemma CallOn(o: Outlook, script: seq<Call>, i: nat)
    requires i < |script|
    ensures Foreseen(o, script[..i + 1]) == After(Foreseen(o, script[..i]), script[i])
    ensures Recordings(o, script[..i + 1]) ==
            Recordings(o, script[..i]) + if Records(Foreseen(o, script[..i]), script[i]) then [i] else []
    ensures Records(Foreseen(o, script[..i]), script[i]) ==> script[i].Claim?
  {
    assert Front(script[..i + 1]) == script[..i] && Plans.Last(script[..i + 1]) == script[i];
  }

  class Session {
    const conn: Conn
    var pipeline: Pipeline?
    var issued: seq<nat>    // every statement number ever put on the wire
    var handed: seq<Ticket>    // by the live pipeline, since its last cleanup
    var aligned: bool          // and no number among them is missing or spent
    var claims: seq<Claimed>   // what claims of such tickets told

    constructor (conn: Conn)
      requires conn.Valid() && conn.nameCounter == 0
      ensures this.conn == conn && pipeline == null && issued == [] && claims == [] && Valid()
    {
      this.conn := conn;
      pipeline, issued, handed, aligned, claims := null, [], [], true, [];
    }

    ghost predicate Valid()
      reads this, conn, conn.wire, pipeline
    {
      Sound() && Match(claims, conn.wire.log, 0)
    }

    ghost predicate Sound()
      reads this, conn, conn.wire, pipeline
    {
      && (if pipeline == null then conn.Valid() else Alive(pipeline))
      && Ascending(issued) && AtMost(issued, conn.nameCounter)
    }

    /** Where the live pipeline is. */
    ghost function PlanOf(pipeline: Pipeline): Plan
      reads this`handed, this`aligned, pipeline, conn
    {
      Plan(conn, pipeline.base, pipeline.expectations, conn.writeBuffer != [], pipeline.halfWritten,
           conn.scopePending, pipeline.queueSeq, pipeline.claimSeq, handed, aligned, false, false)
    }

    ghost function Now(): Outlook
      reads this, conn, pipeline
    {
      Outlook(conn, |conn.tickets|, if pipeline == null then None else Some(PlanOf(pipeline)))
    }

    /** A pipeline that fits the stream, or whose parameters did not encode. */
    ghost predicate Alive(pipeline: Pipeline)
      reads this`aligned, this`handed, pipeline, conn, conn.wire
    {
      && pipeline.conn == conn && conn.wire.Valid() && pipeline.Numbered()
      && (conn.Ready() ==> PlanOf(pipeline).Sane() && OnPlan(PlanOf(pipeline), ViewOf(pipeline), 0))
      && forall i | 0 <= i < |handed| :: Issued(pipeline, handed[i])
    }

    /** As a closure's pipeline: what is planned, while that can go on. */
    ghost function Planning(pipeline: Pipeline): Plan
      reads this`handed, this`aligned, pipeline, conn
    {
      if conn.Ready() then PlanOf(pipeline) else Opened(conn, 0)
    }

    lemma AliveUnder(pipeline: Pipeline)
      requires Alive(pipeline)
      ensures Under(pipeline, Planning(pipeline), 0)
    {
      hide OnPlan, ViewOf, Plan.Sane, Pipeline.Numbered;
    }

    lemma UnderAlive(pipeline: Pipeline, plan: Plan)
      requires pipeline.conn == conn && Under(pipeline, plan, 0)
      requires conn.Ready() ==> handed == plan.tickets && aligned == plan.aligned && !plan.stolen && !plan.flushed
      requires forall i | 0 <= i < |handed| :: Issued(pipeline, handed[i])
      ensures Alive(pipeline) && (conn.Ready() ==> PlanOf(pipeline) == plan)
    {
      hide OnPlan, ViewOf, Plan.Sane, Pipeline.Numbered;
    }

    /** A permanent failure: the flags are set, and nothing is left that may
        still complete what the connection owes. */
    predicate Stuck()
      reads this, conn
    {
      conn.isBroken || conn.exchangeInProgress || (conn.scopePending && pipeline == null)
    }

    /** No desynchronisation, even while a pipeline is alive. */
    lemma InStepWhenUsable()
      requires Sound()
      ensures conn.Valid()
    {
      if pipeline != null && pipeline.Valid() {
        pipeline.Abandoned();
      }
    }

    /** The pipeline's aborted state is the server's, as far as the caller can
        tell: its parameters encoded, and its last cleanup, if any, left the
        connection usable. */
    ghost predicate Mirrored()
      reads this, conn, conn.wire, pipeline
    {
      pipeline != null && pipeline.conn == conn && conn.Ready() && !pipeline.Spoiled() && !pipeline.unfinished ==>
        (pipeline.aborted <==> pipeline.ReadMode() == Skipping)
    }

    lemma IsMirrored()
      requires Valid()
      ensures Mirrored()
    {
      if pipeline != null && conn.Ready() && pipeline.Valid() {
        pipeline.AbortMirrors();
      }
    }

    /** All but what borrowing rules out, a claim that steals a Sync of the
        caller's own, and a flush behind parameters that did not encode. */
    predicate Allowed(c: Call)
      reads this, pipeline, conn
    {
      && (c.OnPipeline() <==> pipeline != null)
      && (pipeline != null ==> pipeline.conn == conn)
      && (c.Claim? && conn.Ready() ==> !pipeline.Steals(c.ticket))
      && (c.FlushPipeline? ==> !pipeline.halfWritten)
    }

    method ConnectionCall(c: Call) returns (r: Outcome<()>)
      requires Sound() && Allowed(c) && !c.OnPipeline() && !c.OpenPipeline?
      modifies this`issued, conn, conn.wire
      ensures Sound() && old(conn.wire.log) <= conn.wire.log && conn.tickets == old(conn.tickets)
      ensures old(Stuck()) ==> r == Fail(ConnectionBroken) && unchanged(conn, conn.wire)
      ensures Now() == old(Now())
    {
      hide Conn.InStep, Conforming;
      if c.LowLevel() {
        r := PortalCall(c);
        return;
      }
      match c {
        case Query(text, verdict) =>
          var h := new Recorder(verdict);
          var r', _ := conn.Query(text, h);
          r := r';
        case ExecStatement(source, params, encodes, verdict) =>
          var h := new Recorder(verdict);
          var r', _ := conn.Exec(source, params, encodes, h);
          r := r';
        case PrepareOne(_, _) => r := Numbered(c);
        case PrepareMany(_) => r := Numbered(c);
        case CloseOne(stmt) =>
          var r', _ := conn.CloseStatement(stmt);
          r := r';
        case ExecMany(source, paramSets, chunkSize, encode) =>
          var r', _, _ := conn.ExecBatch(source, paramSets, chunkSize, encode);
          r := r';
      }
    }

    /** Preparing: the statements get numbers nobody had before. */
    method Numbered(c: Call) returns (r: Outcome<()>)
      requires Sound() && pipeline == null && (c.PrepareOne? || c.PrepareMany?)
      modifies this`issued, conn, conn.wire
      ensures Sound() && old(conn.wire.log) <= conn.wire.log && conn.tickets == old(conn.tickets)
      ensures old(Stuck()) ==> r == Fail(ConnectionBroken) && unchanged(conn, conn.wire)
      ensures old(issued) <= issued
    {
      hide Conn.InStep, Conforming, Alive, Wire.Valid;
      var last := conn.nameCounter;
      if c.PrepareOne? {
        var stmt, _ := conn.Prepare(c.text, c.types);
        assert stmt.Done? ==> Range(last, conn.nameCounter) == [stmt.value.idx];
        r := if stmt.Done? then Done(()) else stmt.PropagateFailure();
      } else {
        var stmts, _ := conn.PrepareBatch(c.texts);
        assert stmts.Done? ==>
            && |Range(last, conn.nameCounter)| == |stmts.value|
            && forall i | 0 <= i < |stmts.value| :: Range(last, conn.nameCounter)[i] == stmts.value[i].idx;
        r := if stmts.Done? then Done(()) else stmts.PropagateFailure();
      }
      issued := issued + Range(last, conn.nameCounter);
    }

    method PortalCall(c: Call) returns (r: Outcome<()>)
      requires Sound() && pipeline == null
      requires c.LowLevel()
      modifies conn, conn.wire
      ensures Sound() && old(conn.wire.log) <= conn.wire.log && conn.tickets == old(conn.tickets)
      ensures old(Stuck()) ==> r == Fail(ConnectionBroken) && unchanged(conn, conn.wire)
    {
      hide Conn.InStep, Conforming;
      match c {
        case LowFlush => r := conn.LowlevelFlush();
        case LowSync =>
          var r', _ := conn.LowlevelSync();
          r := r';
        case LowBind(portal, statement, params, encodes) =>
          var r', _ := conn.LowlevelBind(portal, statement, params, encodes);
          r := r';
        case LowExecute(portal, maxRows, verdict) =>
          var h := new Recorder(verdict);
          var more, _ := conn.LowlevelExecute(portal, maxRows, h);
          r := if more.Done? then Done(()) else more.PropagateFailure();
        case LowClosePortal(portal) =>
          var r', _ := conn.LowlevelClosePortal(portal);
          r := r';
        case Portal(source, params, encodes, script, verdict) =>
          var h := new Recorder(verdict);
          var r', _ := conn.ExecPortal(source, params, encodes, script, h);
          r := r';
        case NamedPortal(portal, source, params, encodes) =>
          var r', _ := conn.CreateNamedPortal(portal, source, params, encodes);
          r := r';
      }
    }

    method QueueCall(c: Call) returns (r: Outcome<()>)
      requires Sound() && Allowed(c) && c.Queue?
      modifies this`handed, this`aligned, pipeline, conn
      ensures Sound() && (!old(conn.Ready()) ==> !conn.Ready() && r == Fail(ConnectionBroken))
      ensures conn.Ready() ==> Now() == After(old(Now()), c)
    {
      hide Under, OnPlan, ViewOf, Plan.Sane, Pipeline.Numbered;
      ghost var plan := Planning(pipeline);
      AliveUnder(pipeline);
      var deed := Deed.Queue(c.kind, c.columns, c.encodes);
      aligned := aligned && (c.encodes || !conn.Ready());
      var ticket := ExecOn(pipeline, deed, plan, 0);
      if ticket.Done? {
        handed := handed + [ticket.value];
      }
      UnderAlive(pipeline, plan.After(deed));
      r := if ticket.Done? then Done(()) else ticket.PropagateFailure();
    }

    method SendCall(c: Call) returns (r: Outcome<()>)
      requires Sound() && Allowed(c) && (c.FlushPipeline? || c.SyncPipeline?)
      modifies pipeline, conn, conn.wire
      ensures Sound() && old(conn.wire.log) <= conn.wire.log
      ensures !old(conn.Ready()) ==> !conn.Ready() && unchanged(conn.wire) && r == Fail(ConnectionBroken)
      ensures conn.Ready() ==> Now() == After(old(Now()), c)
    {
      hide Under, OnPlan, ViewOf, Plan.Sane, Pipeline.Numbered, Wire.WentOn;
      ghost var plan := Planning(pipeline);
      AliveUnder(pipeline);
      var deed := if c.FlushPipeline? then Deed.Flush else Deed.Sync;
      r := SendOn(pipeline, deed, plan, 0);
      StaysDead(conn.wire, old(conn.wire.log), old(conn.wire.mode), !old(pipeline.halfWritten));
      UnderAlive(pipeline, plan.After(deed));
    }

    method CleanupCall()
      requires Sound() && pipeline != null
      modifies this`handed, this`aligned, pipeline, conn, conn.wire
      ensures Sound() && old(conn.wire.log) <= conn.wire.log
      ensures !old(conn.Ready()) ==> !conn.Ready() && unchanged(conn.wire)
      ensures conn.Ready() ==> Now() == After(old(Now()), CleanupPipeline)
    {
      hide Under, OnPlan, ViewOf, Plan.Sane, Pipeline.Numbered, Plan.EndsAtSync;
      ghost var plan := Planning(pipeline);
      AliveUnder(pipeline);
      if conn.Ready() && (pipeline.expectations != [] || conn.scopePending) {
        handed, aligned := [], true;
      }
      CleanOn(pipeline, plan);
      UnderAlive(pipeline, plan.AfterCleanup());
    }

    /** A claim on the live pipeline. */
    method ClaimLive(ticket: Ticket, h: Recorder) returns (r: Outcome<()>)
      requires Sound() && pipeline != null && h.log == [] && (conn.Ready() ==> !pipeline.Steals(ticket))
      modifies this`aligned, pipeline, conn, conn.wire, h
      ensures Sound() && old(conn.wire.log) <= conn.wire.log && conn.tickets == old(conn.tickets)
      ensures !old(conn.Ready()) ==> !conn.Ready() && unchanged(conn.wire) && r == Fail(ConnectionBroken)
      ensures conn.Ready() ==>
                && PlanOf(pipeline) == old(PlanOf(pipeline)).AfterClaim(ticket.seqNo)
                && (ticket.seqNo == old(pipeline.claimSeq) ==> !StartsWithSync(old(PlanOf(pipeline)).Sent()))
      ensures conn.Ready() && ticket.seqNo == old(pipeline.claimSeq) && aligned ==>
                && old(pipeline.Front()) >= 0 && pipeline.base == old(pipeline.base)
                && pipeline.ToldAt(ticket, h, [], old(pipeline.Front()), pipeline.base + ticket.seqNo,
                                   old(pipeline.aborted), r)
    {
      hide Under, OnPlan, ViewOf, Plan.Sane, Pipeline.Numbered, Wire.WentOn, Pipeline.ToldAt, Pipeline.Undisturbed;
      hide Recorder.Obliging, Pipeline.GoesOn, DropSyncs, StillOpen;
      ghost var plan := Planning(pipeline);
      AliveUnder(pipeline);
      var turn := conn.Ready() && ticket.seqNo == pipeline.claimSeq;
      var sent := pipeline.Sent();
      r := ClaimAny(pipeline, ticket, h, plan, 0);
      StaysDead(conn.wire, old(conn.wire.log), old(conn.wire.mode), !old(pipeline.halfWritten));
      aligned := aligned && !(turn && (sent == [] || sent[0].Sync?));
      UnderAlive(pipeline, plan.AfterClaim(ticket.seqNo));
    }

    /** A claim, with a handler of its own. What the claim of a ticket told that
        the live pipeline handed out, while the numbers are not shifted, is
        recorded. */
    method ClaimCall(c: Call) returns (r: Outcome<()>)
      requires Sound() && Allowed(c) && c.Claim?
      modifies this`aligned, this`claims, pipeline, conn, conn.wire
      ensures Sound() && old(conn.wire.log) <= conn.wire.log
      ensures !old(conn.Ready()) ==> !conn.Ready() && unchanged(conn.wire) && r == Fail(ConnectionBroken)
      ensures conn.Ready() ==> Now() == After(old(Now()), c)
      ensures conn.Ready() && Records(old(Now()), c) ==>
                && |claims| == |old(claims)| + 1 && old(claims) <= claims
                && claims[|old(claims)|].ticket == c.ticket && claims[|old(claims)|].outcome == r
                && ToldIn(claims[|old(claims)|], conn.wire.log, 0)
      ensures !(conn.Ready() && Records(old(Now()), c)) ==> claims == old(claims)
    {
      hide Alive, Plan.Sane, Plan.AfterClaim, Plan.Sent, Pipeline.Numbered, Pipeline.ToldAt, ToldIn, Pipeline.Sent;
      ghost var plan, k, skipped := PlanOf(pipeline), pipeline.Front(), pipeline.aborted;
      var turn := conn.Ready() && c.ticket.seqNo == pipeline.claimSeq;
      var h := new Recorder(c.verdict);
      r := ClaimLive(c.ticket, h);
      if turn && aligned && c.ticket in handed && conn.Ready() {
        claims := claims + [Claimed(c.ticket, h.log, r)];
        Handed(pipeline, c.ticket);
        Recorded(pipeline, claims[|claims| - 1], h, k, skipped, r, 0);
      }
    }

    lemma Handed(pipeline: Pipeline, ticket: Ticket)
      requires Alive(pipeline) && ticket in handed
      ensures pipeline.Numbered() && Issued(pipeline, ticket)
    {
      hide Pipeline.Spoiled, Pipeline.Coupled;
    }

    /** The handle is dropped, or forgotten. */
    method EndPipeline(c: Call)
      requires Sound() && Allowed(c) && (c.DropPipeline? || c.ForgetPipeline?)
      modifies this`pipeline, this`handed, this`aligned, pipeline, conn
      ensures Sound() && pipeline == null && (old(Stuck()) ==> Stuck()) && (!old(conn.Ready()) ==> !conn.Ready())
      ensures Now() == After(old(Now()), c)
    {
      hide Pipeline.Coupled, Pipeline.Spoiled, Conn.InStep;
      InStepWhenUsable();
      if c.DropPipeline? {
        pipeline.Drop();
      }
      pipeline, handed, aligned := null, [], true;
    }

    /** One call. A stuck connection stays stuck, refuses every operation that
        would do I/O, and does none. */
    method Step(c: Call) returns (r: Outcome<()>)
      requires Valid() && Allowed(c)
      modifies this, pipeline, conn, conn.wire
      ensures Valid() && old(conn.wire.log) <= conn.wire.log && old(claims) <= claims
      ensures pipeline == null || pipeline == old(pipeline) || fresh(pipeline)
      ensures c.DropPipeline? || c.ForgetPipeline? ==> pipeline == null
      ensures old(Stuck()) ==> Stuck() && unchanged(conn.wire) && (r == Fail(ConnectionBroken) || c.Silent())
      ensures !old(conn.Ready()) ==> !conn.Ready()
      ensures conn.Ready() ==> Now() == After(old(Now()), c)
      ensures !(conn.Ready() && Records(old(Now()), c)) ==> claims == old(claims)
      ensures conn.Ready() && Records(old(Now()), c) ==>
                && |claims| == |old(claims)| + 1
                && claims[|old(claims)|].ticket == c.ticket && claims[|old(claims)|].outcome == r
    {
      hide Sound, ToldIn, Now, After, Records;
      CallsIs(Now(), c);
      ghost var log, told := conn.wire.log, claims;
      if c.Claim? {
        r := ClaimCall(c);
      } else if c.DropPipeline? || c.ForgetPipeline? {
        EndPipeline(c);
        r := Done(());
      } else if c.Queue? {
        r := QueueCall(c);
      } else if c.CleanupPipeline? {
        CleanupCall();
        r := Done(());
      } else if c.OnPipeline() {
        r := SendCall(c);
      } else if c.OpenPipeline? {
        OpenOne();
        r := Done(());
      } else {
        r := ConnectionCall(c);
      }
      MatchGrows(told, log, conn.wire.log, 0);
    }

    method OpenOne()
      requires Sound() && pipeline == null
      modifies this`pipeline, this`handed, this`aligned, conn
      ensures Sound() && fresh(pipeline) && (old(Stuck()) ==> Stuck()) && (!old(conn.Ready()) ==> !conn.Ready())
      ensures conn.Ready() ==> Now() == After(old(Now()), OpenPipeline)
    {
      hide Pipeline.Coupled, Pipeline.Spoiled;
      pipeline := new Pipeline(conn);
      handed, aligned := [], true;
    }

    /** Any run, the calls it may not make left out. At its end, and so at any
        point of it, a connection that calls itself usable is in step with the
        server and knows its transaction status; a live pipeline is aborted iff
        the server skips what it reads next; no statement number was issued
        twice; and once the connection is stuck it stays so, sends no byte and
        refuses every call that would. As long as it can go on, a live pipeline
        is where the calls lead, and the claims recorded are those of which the
        calls say so, with their results. */
    method Run(script: seq<Call>) returns (results: seq<Outcome<()>>)
      requires Valid()
      modifies this, pipeline, conn, conn.wire
      ensures Valid() && conn.Valid() && Mirrored() && Ascending(issued) && old(conn.wire.log) <= conn.wire.log
      ensures Match(claims, conn.wire.log, 0) && old(claims) <= claims
      ensures !conn.IsBroken() ==> Reported(LastByte(conn.wire.log), conn.transactionStatus)
      ensures pipeline == null || pipeline == old(pipeline) || fresh(pipeline)
      ensures |results| == |script|
      ensures Since(claims, |old(claims)|, Recordings(old(Now()), script), script, results)
      ensures conn.Ready() ==>
                Now() == Foreseen(old(Now()), script) && |claims| == |old(claims)| + |Recordings(old(Now()), script)|
      ensures old(Stuck()) ==>
                && Stuck() && unchanged(conn.wire)
                && forall i | 0 <= i < |script| :: script[i].Silent() || !results[i].Done?
    {
      hide ToldIn, Now, After, Records, Foreseen, Recordings, Match, Alive, Since;
      results := [];
      NoCalls(Now(), script);
      for i := 0 to |script|
        invariant Valid() && |results| == i && old(conn.wire.log) <= conn.wire.log && old(claims) <= claims
        invariant pipeline == null || pipeline == old(pipeline) || fresh(pipeline)
        invariant Since(claims, |old(claims)|, Recordings(old(Now()), script[..i]), script[..i], results)
        invariant conn.Ready() ==>
                    && Now() == Foreseen(old(Now()), script[..i])
                    && |claims| == |old(claims)| + |Recordings(old(Now()), script[..i])|
        invariant old(Stuck()) ==>
                    && Stuck() && unchanged(conn.wire)
                    && forall j | 0 <= j < i :: script[j].Silent() || !results[j].Done?
      {
        CallOn(old(Now()), script, i);
        ghost var told := claims;
        var r: Outcome<()> := Fail(InvalidUsage);
        if Allowed(script[i]) {
          r := Step(script[i]);
        } else if conn.Ready() {
          NotMade(script[i]);
        }
        SinceOn(told, claims, |old(claims)|, Recordings(old(Now()), script[..i]),
                Recordings(old(Now()), script[..i + 1]), script, i, results, r);
        results := results + [r];
      }
      assert script[..|script|] == script;
      InStepWhenUsable();
      IsMirrored();
      StatusByByte(conn.wire.log);
    }

    /** What may not be called changes nothing. */
    lemma NotMade(c: Call)
      requires Sound() && conn.Ready() && !Allowed(c)
      ensures After(Now(), c) == Now() && !Records(Now(), c)
    {
    }
  }

  lemma NoCalls(o: Outlook, script: seq<Call>)
    ensures Foreseen(o, script[..0]) == o && Recordings(o, script[..0]) == []
    ensures forall claims: seq<Claimed> :: Since(claims, |claims|, [], script[..0], [])
  {
  }

  lemma CallsIs(o: Outlook, c: Call)
    ensures Records(o, c) ==> c.Claim?
    ensures !c.OnPipeline() && !c.OpenPipeline? ==> After(o, c) == o
    ensures c.OpenPipeline? && o.live.Some? ==> After(o, c) == o
  {
  }
}
