/** A closure with a pipeline: opened over a usable connection, cleaned up when
    the closure returns, and dropped. */
module PipelineScopes {
  import opened Protocol
  import opened Server
  import opened Machines
  import opened Connection
  import opened PipelineQueue
  import opened Pipelining
  import opened Plans

  /** A claim that left the connection able to go on. */
  datatype Claimed = Claimed(ticket: Ticket, heard: seq<Callback>, outcome: Outcome<()>)

  /** What the server was asked under this ticket, what it answered, and that
      the claim told just that. */
  ghost predicate Told(c: Claimed, s: Served) {
    && s.unit.Exec? && s.unit.tag == c.ticket.tag
    && if s.mode == Skipping then
         c.outcome == Fail(LibraryBug("pipeline aborted due to earlier error")) && c.heard == []
       else
         && s.mode == Normal && Answered(s.trace, c.outcome)
         && HeardAs(s.unit.kind, c.ticket.columns, s.trace, c.heard)
  }

  ghost predicate ToldIn(c: Claimed, log: seq<Served>, start: nat) {
    exists k :: start <= k < |log| && Told(c, log[k])
  }

  /** Every claim told what the server answered to its execution, sent since
      `start`. */
  ghost predicate Match(claims: seq<Claimed>, log: seq<Served>, start: nat) {
    forall i | 0 <= i < |claims| :: ToldIn(claims[i], log, start)
  }

  lemma MatchGrows(claims: seq<Claimed>, log: seq<Served>, log': seq<Served>, start: nat)
    requires Match(claims, log, start) && log <= log'
    ensures Match(claims, log', start)
  {
    hide Told;
    forall i | 0 <= i < |claims| ensures ToldIn(claims[i], log', start) {
      assert ToldIn(claims[i], log, start);
      var k :| start <= k < |log| && Told(claims[i], log[k]);
      assert log'[k] == log[k];
    }
  }

  /** Nothing interrupts, and no reply is fatal. */
  ghost predicate Peaceful(wire: Wire)
    reads wire
  {
    wire.Calm() && wire.Survivable() && Obeyed(wire.strategy, wire.log)
  }

  lemma OwedSurvive(wire: Wire, owed: seq<Served>)
    requires wire.Survivable() && Obeyed(wire.strategy, wire.log)
    requires |owed| <= |wire.log| && wire.log[|wire.log| - |owed|..] == owed
    ensures AllSurvive(owed)
  {
    forall i | 0 <= i < |owed| ensures Survives(owed[i].trace) {
      var k := |wire.log| - |owed| + i;
      assert owed[i] == wire.log[k];
      assert Survives(wire.strategy(k, owed[i].unit, owed[i].mode));
    }
  }

  ghost predicate Issued(p: Pipeline, ticket: Ticket)
    reads p, p.conn
  {
    && ticket.conn == p.conn && p.base <= ticket.tag < |p.conn.tickets|
    && p.conn.tickets[ticket.tag] == ticket.seqNo
  }

  /** The pipeline is where the plan says. */
  ghost predicate Fits(p: Pipeline, plan: Plan)
    reads p, p.conn
  {
    && plan.conn == p.conn && plan.base == p.base && plan.next == p.queueSeq && plan.turn == p.claimSeq
    && plan.queue == p.expectations && plan.buffered == (p.conn.writeBuffer != []) && plan.half == p.halfWritten
    && plan.open == p.conn.scopePending
  }

  /** What its state amounts to. */
  datatype View = View(dead: bool, execs: bool, surplus: int, valid: bool, spoiled: bool, first: nat, front: int)

  ghost function ViewOf(p: Pipeline): View
    reads p, p.conn, p.conn.wire
  {
    View(p.conn.wire.mode == Dead, AllExec(p.conn.writeBuffer), p.Surplus(), p.Valid(), p.Spoiled(), p.front, p.Front())
  }

  /** What holds there, whoever uses the pipeline, and however the server
      answers. */
  predicate OnPlan(plan: Plan, v: View, start: nat) {
    && (!v.dead ==> v.execs && (plan.stolen ==> v.surplus >= 1))
    && (!plan.stolen && !plan.flushed ==> v.valid || v.spoiled)
    && (plan.flushed ==> v.dead)
    && (plan.aligned ==> v.valid && v.first == plan.base + plan.turn && start <= v.front)
  }

  ghost predicate Under(p: Pipeline, plan: Plan, start: nat)
    reads p, p.conn, p.conn.wire
  {
    && p.conn.wire.Valid() && p.Numbered() && plan.Sane()
    && (p.conn.Ready() ==> Fits(p, plan) && OnPlan(plan, ViewOf(p), start))
  }

  /** In the middle of the closure. */
  ghost predicate Open(p: Pipeline, plan: Plan, tickets: seq<Ticket>, start: nat)
    reads p, p.conn, p.conn.wire
  {
    && Under(p, plan, start) && !p.unfinished && (forall i | 0 <= i < |tickets| :: Issued(p, tickets[i]))
    && tickets <= plan.tickets && (p.conn.Ready() ==> tickets == plan.tickets)
  }

  /** As far as the closure has come, nothing went wrong but that a Sync was
      answered with an error. */
  ghost predicate Smooth(p: Pipeline, plan: Plan, start: nat)
    reads p, p.conn, p.conn.wire
  {
    && Peaceful(p.conn.wire) && plan.aligned
    && (p.conn.Ready() ==> CleanFrom(p.conn.wire.log, start, p.Front()))
    && (!p.conn.Ready() ==> !CleanFrom(p.conn.wire.log, start, |p.conn.wire.log|))
  }

  /** The same of a closure that gives up, if it has nothing queued and nothing
      owed. */
  ghost predicate Halted(p: Pipeline, plan: Plan, start: nat)
    reads p, p.conn, p.conn.wire
  {
    && plan.half && !plan.stolen && !plan.flushed
    && (p.conn.Ready() && plan.Idle() ==> CleanFrom(p.conn.wire.log, start, |p.conn.wire.log|))
    && (!p.conn.Ready() ==> !CleanFrom(p.conn.wire.log, start, |p.conn.wire.log|))
  }

  lemma CleanGrows(log: seq<Served>, log': seq<Served>, start: nat, k: int)
    requires log <= log' && k <= |log| && CleanFrom(log, start, k)
    ensures CleanFrom(log', start, k)
  {
  }

  lemma OnTrack(p: Pipeline)
    requires p.Valid() && p.conn.Ready()
    ensures p.Front() <= |p.conn.wire.log| && !p.halfWritten && p.Numbered()
    ensures AllExec(p.conn.writeBuffer) && p.Surplus() <= 0 && (p.conn.wire.mode != Dead ==> p.Surplus() == 0)
    ensures Peaceful(p.conn.wire) && !p.unfinished ==> p.Quiet() && !p.Forgotten() && !p.Mistaken()
  {
    hide AllSurvive, AllExec, Obeyed, Wire.Calm, Wire.Survivable;
    p.InDebt();
    p.FrontLogged();
    if Peaceful(p.conn.wire) {
      PeaceSurvives(p.conn.wire, p.owed);
    }
  }

  lemma PeaceSurvives(wire: Wire, owed: seq<Served>)
    requires Peaceful(wire) && |owed| <= |wire.log| && wire.log[|wire.log| - |owed|..] == owed
    ensures AllSurvive(owed)
  {
    OwedSurvive(wire, owed);
  }

  lemma QueueOn(plan: Plan, deed: Deed, start: nat, v: View, v': View)
    requires deed.Queue? && OnPlan(plan, v, start)
    requires v'.dead == v.dead && v'.surplus == v.surplus && v'.front == v.front && v'.first == v.first
    requires (v.execs ==> v'.execs) && (v.spoiled ==> v'.spoiled)
    requires (v.valid && deed.encodes ==> v'.valid) && (v.valid && !deed.encodes ==> v'.spoiled)
    ensures OnPlan(plan.After(deed), v', start)
  {
  }

  lemma QueueSmooth(p: Pipeline, deed: Deed, plan: Plan, start: nat)
    requires deed.Queue? && plan.Sane() && Smooth(p, plan, start)
    requires p.conn.Ready() && plan.Idle() ==> p.Front() == |p.conn.wire.log|
    ensures deed.encodes ==> Smooth(p, plan.After(deed), start)
    ensures !deed.encodes ==> Halted(p, plan.After(deed), start)
  {
    hide Peaceful, CleanFrom, Pipeline.Front;
  }

  /** Queue an execution. */
  method ExecOn(p: Pipeline, deed: Deed, ghost plan: Plan, ghost start: nat) returns (r: Outcome<Ticket>)
    requires Under(p, plan, start) && deed.Queue?
    modifies p, p.conn`writeBuffer, p.conn`tickets
    ensures Under(p, plan.After(deed), start)
    ensures p.base == old(p.base) && p.unfinished == old(p.unfinished) && p.Front() == old(p.Front())
    ensures p.conn.Ready() ==> p.conn.tickets == old(p.conn.tickets) + [old(p.queueSeq)]
    ensures !p.conn.Ready() ==> p.conn.tickets == old(p.conn.tickets)
    ensures r.Done? <==> p.conn.Ready() && deed.encodes
    ensures r.Done? ==> plan.After(deed).tickets == plan.tickets + [r.value] && Issued(p, r.value)
    ensures !p.conn.Ready() ==> r == Fail(ConnectionBroken)
  {
    hide Pipeline.Spoiled, Pipeline.Numbered, Pipeline.Valid, OnPlan, Pipeline.Surplus, AllExec, Plan.Sane;
    hide Conn.Valid, Pipeline.Current, Ticket.Genuine, Wire.Valid, Conforming;
    SaneAfter(plan, deed);
    NumberedTag(p);
    ghost var v := ViewOf(p);
    r := p.Exec(deed.kind, deed.columns, deed.encodes);
    if p.conn.Ready() {
      QueueOn(plan, deed, start, v, ViewOf(p));
    }
  }

  /** The same in a closure. */
  method Enqueue(p: Pipeline, deed: Deed, ghost plan: Plan, tickets: seq<Ticket>, ghost start: nat)
    returns (tickets': seq<Ticket>)
    requires Open(p, plan, tickets, start) && deed.Queue?
    modifies p, p.conn`writeBuffer, p.conn`tickets
    ensures Open(p, plan.After(deed), tickets', start)
    ensures old(Smooth(p, plan, start)) && deed.encodes ==> Smooth(p, plan.After(deed), start)
    ensures old(Smooth(p, plan, start)) && !deed.encodes ==> Halted(p, plan.After(deed), start)
  {
    hide Pipeline.Numbered, Halted, OnPlan, Peaceful, Plan.Sane, CleanFrom, Under, Fits;
    ghost var smooth := Smooth(p, plan, start);
    if smooth {
      SmoothOwes(p, plan, start);
    }
    var ticket := ExecOn(p, deed, plan, start);
    tickets' := if ticket.Done? then tickets + [ticket.value] else tickets;
    if smooth {
      QueueSmooth(p, deed, plan, start);
    }
    TicketsGrow(plan, deed);
  }

  lemma TicketsGrow(plan: Plan, deed: Deed)
    ensures plan.tickets <= plan.After(deed).tickets
    ensures deed.Queue? && !deed.encodes ==> plan.After(deed).tickets == plan.tickets
  {
  }

  lemma SmoothOwes(p: Pipeline, plan: Plan, start: nat)
    requires Smooth(p, plan, start) && Under(p, plan, start)
    ensures plan.Sane() && (p.conn.Ready() && plan.Idle() ==> p.Front() == |p.conn.wire.log|)
  {
    hide Peaceful, CleanFrom, Pipeline.Spoiled, Pipeline.Valid;
    if p.conn.Ready() && plan.Idle() {
      NothingOwed(p);
    }
  }

  lemma NumberedTag(p: Pipeline)
    requires p.Numbered()
    ensures |p.conn.tickets| == p.base + p.queueSeq
  {
  }

  lemma NothingOwed(p: Pipeline)
    requires p.Valid() && p.conn.Ready() && !p.conn.scopePending
    ensures p.Front() == |p.conn.wire.log|
  {
    hide Coupling;
  }

  lemma SendOnPlan(plan: Plan, deed: Deed, start: nat, v: View, v': View)
    requires (deed.Flush? || deed.Sync?) && plan.Sane() && OnPlan(plan, v, start)
    requires v'.first == v.first && v'.execs && (v.valid ==> v'.valid && v'.front == v.front)
    requires !v'.dead ==> !v.dead && (v.execs ==> v'.surplus == v.surplus)
    requires deed.Flush? && plan.half ==> v'.dead
    requires v.spoiled && !(deed.Flush? && plan.half) ==> v'.spoiled
    ensures OnPlan(plan.After(deed), v', start)
  {
  }

  /** Send what is queued, with or without a Sync. */
  method SendOn(p: Pipeline, deed: Deed, ghost plan: Plan, ghost start: nat) returns (r: Outcome<()>)
    requires Under(p, plan, start) && (deed.Flush? || deed.Sync?)
    modifies p, p.conn, p.conn.wire
    ensures Under(p, plan.After(deed), start)
    ensures p.conn.wire.WentOn(old(p.conn.wire.log), old(p.conn.wire.mode), !old(p.halfWritten))
    ensures p.base == old(p.base) && p.unfinished == old(p.unfinished) && p.conn.tickets == old(p.conn.tickets)
    ensures p.conn.nameCounter == old(p.conn.nameCounter)
    ensures !old(p.conn.Ready()) ==> unchanged(p, p.conn, p.conn.wire) && r == Fail(ConnectionBroken)
    ensures old(p.Valid() && p.conn.Ready()) && p.conn.Ready() ==> p.Front() == old(p.Front())
    ensures old(p.conn.Ready() && p.conn.wire.Calm()) ==> p.conn.Ready() && p.conn.wire.Calm()
  {
    hide Pipeline.Valid, Pipeline.Spoiled, Pipeline.Numbered, Pipeline.Surplus, Plan.Sane, Conn.Valid, Conforming;
    hide Obeyed, Wire.Calm, Wire.Survivable, Wire.WentOn, OnPlan, AllSurvive;
    ghost var v := ViewOf(p);
    SaneAfter(plan, deed);
    NoneQueued();
    if deed.Flush? {
      r := p.Flush();
    } else {
      r := p.Sync();
    }
    StaysDead(p.conn.wire, old(p.conn.wire.log), old(p.conn.wire.mode), !old(p.halfWritten));
    if p.conn.Ready() {
      SendOnPlan(plan, deed, start, v, ViewOf(p));
    }
  }

  /** The same in a closure. */
  method Send(p: Pipeline, deed: Deed, ghost plan: Plan, tickets: seq<Ticket>, ghost start: nat)
    requires Open(p, plan, tickets, start) && (deed.Flush? || deed.Sync?)
    modifies p, p.conn, p.conn.wire
    ensures Open(p, plan.After(deed), tickets, start) && old(p.conn.wire.log) <= p.conn.wire.log
    ensures old(Smooth(p, plan, start)) ==> Smooth(p, plan.After(deed), start)
    ensures !old(p.conn.Ready()) ==> !p.conn.Ready()
  {
    hide Pipeline.Valid, Under, CleanFrom, Peaceful, Obeyed, Wire.Calm, Wire.Survivable, Wire.WentOn, Plan.Sane;
    ghost var k, log, smooth := p.Front(), p.conn.wire.log, p.conn.Ready() && Smooth(p, plan, start);
    if Smooth(p, plan, start) {
      SmoothSane(p, plan, start);
    }
    if smooth {
      SmoothQuiet(p, plan, start);
    }
    var _ := SendOn(p, deed, plan, start);
    StaysDead(p.conn.wire, log, old(p.conn.wire.mode), !old(p.halfWritten));
    if smooth {
      PeaceKept(p.conn.wire, log, old(p.conn.wire.mode), !old(p.halfWritten));
      CleanGrows(log, p.conn.wire.log, start, k);
    }
  }

  lemma SmoothSane(p: Pipeline, plan: Plan, start: nat)
    requires Under(p, plan, start) && Smooth(p, plan, start)
    ensures !plan.half
  {
    hide Peaceful;
  }

  lemma IssuedTag(p: Pipeline, ticket: Ticket)
    requires p.Numbered() && Issued(p, ticket)
    ensures ticket.tag == p.base + ticket.seqNo
  {
  }

  lemma CleanJoins(log: seq<Served>, start: nat, k: int, k': int)
    requires start <= k <= k' && CleanFrom(log, k, k') && CleanFrom(log, start, k)
    ensures CleanFrom(log, start, k')
  {
  }

  lemma DirtyBehind(log: seq<Served>, start: nat, k: nat)
    requires start <= k <= |log| && !LeadClean(log[k..])
    ensures !CleanFrom(log, start, |log|)
  {
    LeadOfClean(log[k..]);
    SuffixClean(log, k);
  }

  /** What a claim in its turn, that the connection survives, changes. */
  predicate ClaimMoves(sent: seq<Expectation>, v: View, v': View) {
    && (!v'.dead ==> !v.dead && (v.execs ==> v'.execs))
    && (v.execs && !v'.dead ==> v'.surplus == v.surplus + if StartsWithSync(sent) then 1 else 0)
    && ((v.valid || v.spoiled) && !v'.dead ==> v.surplus == 0)
    && (!StartsWithSync(sent) ==> (v.valid ==> v'.valid) && (v.spoiled ==> v'.spoiled))
    && (v.valid && sent != [] && sent[0].Execution? ==> v'.first == v.first + 1 && v.front < v'.front)
  }

  lemma ClaimOnPlan(plan: Plan, start: nat, v: View, v': View)
    requires plan.Sane() && OnPlan(plan, v, start) && ClaimMoves(plan.Sent(), v, v')
    ensures OnPlan(plan.AfterClaim(plan.turn), v', start)
  {
    hide Plan.Sent;
  }

  lemma InBalance(p: Pipeline)
    requires p.conn.Ready() && (p.Valid() || p.Spoiled()) && p.conn.wire.mode != Dead && !p.halfWritten
    ensures p.Surplus() == 0
  {
    HalfOrGone(p);
    if p.Valid() {
      OnTrack(p);
    }
  }

  lemma HalfOrGone(p: Pipeline)
    ensures p.Spoiled() ==> p.halfWritten || p.conn.wire.mode == Dead
  {
  }

  /** A claim that the connection survives took the front of the queue. */
  lemma TakenFront(p: Pipeline, ticket: Ticket, h: Recorder, before: seq<Callback>, queue: seq<Expectation>, k: int,
                   tag: nat, skipped: bool, r: Outcome<()>)
    requires p.Taken(ticket, h, before, queue, k, tag, skipped, r) && p.conn.Ready()
    requires queue != [] && queue[0].Execution?
    ensures p.front == tag + 1 && k < p.Front() && p.ToldAt(ticket, h, before, k, tag, skipped, r)
  {
    hide Pipeline.Told, CleanFrom;
  }

  lemma TurnTag(p: Pipeline, plan: Plan, start: nat)
    requires Under(p, plan, start) && p.conn.Ready()
    ensures plan.aligned ==> p.Valid() && p.front == p.base + plan.turn && start <= p.Front()
  {
    hide Pipeline.Valid, Pipeline.Spoiled, Pipeline.Numbered, Pipeline.Surplus, AllExec;
  }

  /** A claim in its turn, and what it makes of the plan. */
  method ClaimViewed(p: Pipeline, ticket: Ticket, h: Recorder, ghost plan: Plan) returns (r: Outcome<()>)
    requires p.conn.wire.Valid() && Fits(p, plan) && p.conn.Ready() && ticket.seqNo == plan.turn
    modifies p`claimSeq, p`expectations, p`aborted, p`halfWritten, p`owed, p`from, p`front, h,
             p.conn`transactionStatus, p.conn`writeBuffer, p.conn`isBroken, p.conn`exchangeInProgress,
             p.conn`scopePending, p.conn.wire
    ensures p.conn.Ready() ==>
              Fits(p, plan.AfterClaim(ticket.seqNo)) && ClaimMoves(plan.Sent(), old(ViewOf(p)), ViewOf(p))
    ensures p.conn.wire.WentOn(old(p.conn.wire.log), old(p.conn.wire.mode), !old(p.halfWritten))
    ensures old(p.Numbered()) ==> p.Numbered()
    ensures old(p.Valid()) ==>
              p.Taken(ticket, h, old(h.log), plan.Sent(), old(p.Front()), old(p.front), old(p.aborted), r)
    ensures p.conn.Ready() && StartsWithSync(plan.Sent()) ==> old(p.aborted)
    ensures old(p.Undisturbed(ticket)) && h.Obliging() ==> p.GoesOn(old(p.Front()))
  {
    hide Pipeline.Valid, Pipeline.Spoiled, Pipeline.Quiet, Wire.Calm, Wire.WentOn, Conforming, Ticket.Genuine;
    hide Readys, Syncs, DropSyncs, Pipeline.Taken, Pipeline.Numbered, AllExec, Recorder.Obliging, Pipeline.Surplus;
    hide Pipeline.GoesOn, Pipeline.Forgotten, Pipeline.ColumnsGiven, Pipeline.KnownAt, Pipeline.Current;
    hide Executions, StillOpen, ReadyNext, ClaimMoves, Pipeline.Steals, Pipeline.Sent, Plan.Sent, Fits, Plan.AfterClaim;
    ghost var v, k, tag, skipped, steals := ViewOf(p), p.Front(), p.front, p.aborted, p.Steals(ticket);
    SentFits(p, plan);
    p.StealsIs(ticket);
    if !v.dead && !p.halfWritten && (v.valid || v.spoiled) {
      InBalance(p);
    }
    r := p.ClaimWithHandler(ticket, h);
    StaysDead(p.conn.wire, old(p.conn.wire.log), old(p.conn.wire.mode), !old(p.halfWritten));
    if p.conn.Ready() {
      if v.valid && plan.Sent() != [] && plan.Sent()[0].Execution? {
        TakenFront(p, ticket, h, old(h.log), plan.Sent(), k, tag, skipped, r);
      }
      FitsClaimed(p, plan);
      Moved(plan.Sent(), v, ViewOf(p), steals, old(p.halfWritten));
    }
  }

  lemma SentFits(p: Pipeline, plan: Plan)
    requires Fits(p, plan)
    ensures plan.Sent() == p.Sent() && plan.queue == p.expectations && plan.open == p.conn.scopePending
    ensures plan.conn == p.conn && plan.base == p.base && plan.next == p.queueSeq && plan.turn == p.claimSeq
  {
  }

  lemma FitsClaimed(p: Pipeline, plan: Plan)
    requires plan.conn == p.conn && plan.base == p.base && plan.next == p.queueSeq && plan.turn + 1 == p.claimSeq
    requires p.expectations == DropSyncs(Tail(plan.Sent())) && p.conn.writeBuffer == [] && !p.halfWritten
    requires p.conn.scopePending == StillOpen(Tail(plan.Sent()), plan.open || plan.queue != plan.Sent())
    ensures Fits(p, plan.AfterClaim(plan.turn))
  {
    hide StillOpen, DropSyncs, Plan.Sent;
  }

  lemma Moved(sent: seq<Expectation>, v: View, v': View, steals: bool, half: bool)
    requires steals <==> StartsWithSync(sent)
    requires !v'.dead ==> !v.dead && !half && (v.execs ==> v'.execs)
    requires v.execs && !v'.dead ==> v'.surplus == v.surplus + if steals then 1 else 0
    requires (v.valid || v.spoiled) && !v.dead && !half ==> v.surplus == 0
    requires (v.valid && !steals ==> v'.valid) && (v.spoiled && !steals ==> v'.spoiled)
    requires v.valid && sent != [] && sent[0].Execution? ==> v'.first == v.first + 1 && v.front < v'.front
    ensures ClaimMoves(sent, v, v')
  {
  }

  /** The same on a pipeline that keeps to the plan, in turn or out of it. */
  method ClaimAny(p: Pipeline, ticket: Ticket, h: Recorder, ghost plan: Plan, ghost start: nat)
    returns (r: Outcome<()>)
    requires Under(p, plan, start)
    modifies p`claimSeq, p`expectations, p`aborted, p`halfWritten, p`owed, p`from, p`front, h,
             p.conn`transactionStatus, p.conn`writeBuffer, p.conn`isBroken, p.conn`exchangeInProgress,
             p.conn`scopePending, p.conn.wire
    ensures Under(p, plan.AfterClaim(ticket.seqNo), start)
    ensures p.conn.wire.WentOn(old(p.conn.wire.log), old(p.conn.wire.mode), !old(p.halfWritten))
    ensures old(p.conn.Ready()) && ticket.seqNo == plan.turn && plan.AfterClaim(ticket.seqNo).aligned
            && p.conn.Ready() ==>
              && start <= old(p.Front())
              && p.ToldAt(ticket, h, old(h.log), old(p.Front()), p.base + ticket.seqNo, old(p.aborted), r)
    ensures old(p.conn.Ready()) && ticket.seqNo == plan.turn && StartsWithSync(plan.Sent()) && p.conn.Ready() ==>
              old(p.aborted)
    ensures old(p.Undisturbed(ticket)) && h.Obliging() ==> p.GoesOn(old(p.Front()))
    ensures !old(p.conn.Ready()) ==> unchanged(p, h, p.conn, p.conn.wire) && r == Fail(ConnectionBroken)
  {
    hide Pipeline.Valid, Pipeline.Quiet, Wire.Calm, Wire.WentOn, Pipeline.Taken, Pipeline.ToldAt, Recorder.Obliging;
    hide Pipeline.GoesOn, Pipeline.Forgotten, Pipeline.ColumnsGiven, OnPlan, Plan.Sane, Pipeline.Numbered;
    hide Pipeline.Spoiled, Pipeline.Surplus, Conforming, StillOpen, Pipeline.Current;
    ghost var k, tag, skipped := p.Front(), p.front, p.aborted;
    if !p.conn.Ready() || ticket.seqNo != p.claimSeq {
      // Refused without a change.
      SaneClaim(plan, ticket.seqNo);
      r := p.ClaimWithHandler(ticket, h);
      return;
    }
    TurnTag(p, plan, start);
    SaneClaim(plan, ticket.seqNo);
    ghost var v := ViewOf(p);
    r := ClaimViewed(p, ticket, h, plan);
    if p.conn.Ready() {
      ClaimOnPlan(plan, start, v, ViewOf(p));
    }
    if plan.AfterClaim(ticket.seqNo).aligned && p.conn.Ready() {
      TakenFront(p, ticket, h, old(h.log), plan.Sent(), k, tag, skipped, r);
    }
  }

  lemma StaysDead(wire: Wire, log: seq<Served>, mode: Mode, whole: bool)
    requires wire.WentOn(log, mode, whole)
    ensures log <= wire.log && (mode == Dead ==> wire.mode == Dead)
  {
  }

  lemma ToldBounds(p: Pipeline, ticket: Ticket, h: Recorder, before: seq<Callback>, k: int, tag: nat, skipped: bool,
                   r: Outcome<()>)
    requires p.ToldAt(ticket, h, before, k, tag, skipped, r)
    ensures 0 <= k < p.Front() && k < |p.conn.wire.log| && CleanFrom(p.conn.wire.log, k, p.Front())
    ensures var s := p.conn.wire.log[k];
            s.unit.Exec? && s.unit.tag == tag && p.Told(ticket, h, before, s, r)
  {
    hide CleanFrom, Pipeline.Told;
  }

  lemma StaysSmooth(p: Pipeline, plan: Plan, start: nat, ticket: Ticket, h: Recorder, k: int, tag: nat, skipped: bool,
                    r: Outcome<()>)
    requires Peaceful(p.conn.wire) && plan.aligned && start <= k < |p.conn.wire.log|
    requires CleanFrom(p.conn.wire.log, start, k)
    requires p.conn.Ready() ==> p.ToldAt(ticket, h, [], k, tag, skipped, r)
    requires p.conn.Ready() <==> p.CleanBehind(k)
    ensures Smooth(p, plan, start)
  {
    hide CleanFrom, Peaceful, LeadClean, Pipeline.ToldAt;
    if p.conn.Ready() {
      ToldBounds(p, ticket, h, [], k, tag, skipped, r);
      CleanJoins(p.conn.wire.log, start, k, p.Front());
    } else {
      DirtyBehind(p.conn.wire.log, start, k + 1);
    }
  }

  lemma TurnSafe(p: Pipeline, plan: Plan, ticket: Ticket)
    requires Fits(p, plan) && plan.TurnOf(ticket) && plan.aligned
    ensures ticket.seqNo == p.claimSeq && p.ColumnsGiven(ticket) && plan.AfterClaim(ticket.seqNo).aligned
    ensures p.expectations != [] && p.expectations[0].Execution?
  {
  }

  lemma PeaceKept(wire: Wire, log: seq<Served>, mode: Mode, whole: bool)
    requires wire.WentOn(log, mode, whole) && wire.Survivable() && Obeyed(wire.strategy, log) && wire.Calm()
    ensures Peaceful(wire)
  {
    hide Obeyed, Wire.Calm, Wire.Survivable;
  }

  /** A claim, in a closure where nothing went wrong so far. */
  method ClaimSmoothly(p: Pipeline, ticket: Ticket, h: Recorder, ghost plan: Plan, ghost start: nat)
    returns (r: Outcome<()>)
    requires Under(p, plan, start) && !p.unfinished && h.log == []
    modifies p, h, p.conn, p.conn.wire
    ensures Under(p, plan.AfterClaim(ticket.seqNo), start)
    ensures p.conn.tickets == old(p.conn.tickets) && p.base == old(p.base) && !p.unfinished
    ensures old(p.conn.wire.log) <= p.conn.wire.log
    ensures old(p.conn.Ready()) && ticket.seqNo == plan.turn && plan.AfterClaim(ticket.seqNo).aligned
            && p.conn.Ready() ==>
              && start <= old(p.Front())
              && p.ToldAt(ticket, h, [], old(p.Front()), p.base + ticket.seqNo, old(p.aborted), r)
    ensures old(Smooth(p, plan, start) && p.conn.Ready()) && plan.TurnOf(ticket) && h.Obliging() ==>
              Smooth(p, plan.AfterClaim(ticket.seqNo), start)
    ensures !old(p.conn.Ready()) ==> unchanged(p, h, p.conn, p.conn.wire)
  {
    hide Under, Smooth, Pipeline.Quiet, Pipeline.ToldAt, Pipeline.Told, Pipeline.CleanBehind, Wire.Calm;
    hide Wire.WentOn, Wire.Survivable, Obeyed, Peaceful, Plan.TurnOf, Plan.AfterClaim, CleanFrom, Pipeline.Steals;
    hide Pipeline.Sent, Pipeline.Forgotten, Pipeline.ColumnsGiven, Recorder.Obliging;
    ghost var k, log, smooth := p.Front(), p.conn.wire.log, p.conn.Ready() && Smooth(p, plan, start);
    smooth := smooth && plan.TurnOf(ticket) && h.Obliging();
    if smooth {
      SmoothQuiet(p, plan, start);
      TurnSafe(p, plan, ticket);
    }
    r := ClaimAny(p, ticket, h, plan, start);
    StaysDead(p.conn.wire, log, old(p.conn.wire.mode), !old(p.halfWritten));
    if smooth {
      PeaceKept(p.conn.wire, log, old(p.conn.wire.mode), !old(p.halfWritten));
      CleanGrows(log, p.conn.wire.log, start, k);
      StaysSmooth(p, plan.AfterClaim(ticket.seqNo), start, ticket, h, k, p.base + ticket.seqNo, old(p.aborted), r);
    }
  }

  /** A claim with the ticket of a deed, and a handler of its own. If the
      connection can go on, exactly the claims of which the plan says so are
      recorded. */
  method ClaimOne(p: Pipeline, deed: Deed, plan: Plan, tickets: seq<Ticket>, ghost start: nat)
    returns (claimed: Option<Claimed>)
    requires Open(p, plan, tickets, start) && deed.Claim?
    modifies p, p.conn, p.conn.wire
    ensures Open(p, plan.After(deed), tickets, start) && old(p.conn.wire.log) <= p.conn.wire.log
    ensures claimed.Some? ==>
              && p.conn.Ready() && plan.Tells(deed) && claimed.value.ticket == plan.tickets[deed.pick.index]
              && ToldIn(claimed.value, p.conn.wire.log, start)
    ensures p.conn.Ready() && plan.Tells(deed) ==> claimed.Some?
    ensures old(Smooth(p, plan, start)) && plan.Orderly(deed) ==> Smooth(p, plan.After(deed), start)
    ensures !old(p.conn.Ready()) ==> !p.conn.Ready()
  {
    hide Under, Smooth, Pipeline.ToldAt, ToldIn, Pipeline.Numbered, Pipeline.Steals, Plan.AfterClaim;
    var own := deed.pick.Ours?;
    claimed := None;
    OrderlyTurn(p, plan, deed, start);
    if own && deed.pick.index >= |tickets| {
      UnderStill(p, plan, deed, start);
      return;
    }
    var ticket := if own then tickets[deed.pick.index] else deed.pick.ticket;
    var tells := p.conn.Ready() && plan.Tells(deed);
    ghost var k := p.Front();
    var h := new Recorder(deed.verdict);
    var r := ClaimSmoothly(p, ticket, h, plan, start);
    if tells && p.conn.Ready() {
      claimed := Some(Claimed(ticket, h.log, r));
      OpenNumbered(p, plan.After(deed), tickets, start, deed.pick.index);
      Recorded(p, claimed.value, h, k, old(p.aborted), r, start);
    }
  }

  /** A claim without a ticket is none. */
  lemma UnderStill(p: Pipeline, plan: Plan, deed: Deed, start: nat)
    requires Under(p, plan, start) && deed.Claim?
    requires p.conn.Ready() ==> plan.After(deed) == plan
    ensures Under(p, plan.After(deed), start)
  {
    hide Plan.Sane;
    SaneAfter(plan, deed);
  }

  lemma OrderlyTurn(p: Pipeline, plan: Plan, deed: Deed, start: nat)
    requires deed.Claim?
    ensures plan.After(deed).tickets == plan.tickets
    ensures Smooth(p, plan, start) && plan.Orderly(deed) && !p.conn.Ready() ==> Smooth(p, plan.After(deed), start)
  {
  }

  lemma SmoothQuiet(p: Pipeline, plan: Plan, start: nat)
    requires Smooth(p, plan, start) && Under(p, plan, start) && !p.unfinished && p.conn.Ready()
    ensures p.Quiet() && p.Valid() && p.conn.wire.Calm() && !p.Forgotten() && start <= p.Front() <= |p.conn.wire.log|
    ensures p.conn.wire.Survivable() && Obeyed(p.conn.wire.strategy, p.conn.wire.log)
    ensures Fits(p, plan) && plan.aligned && CleanFrom(p.conn.wire.log, start, p.Front())
  {
    hide Pipeline.Coupled, CleanFrom, Obeyed, Wire.Calm, Wire.Survivable, Pipeline.Spoiled, AllExec;
    OnTrack(p);
  }

  lemma Recorded(p: Pipeline, c: Claimed, h: Recorder, k: int, skipped: bool, r: Outcome<()>, start: nat)
    requires p.ToldAt(c.ticket, h, [], k, p.base + c.ticket.seqNo, skipped, r) && start <= k
    requires p.Numbered() && Issued(p, c.ticket) && c.heard == h.log && c.outcome == r
    ensures ToldIn(c, p.conn.wire.log, start)
  {
    hide Told, Pipeline.Told, Pipeline.Numbered, Issued, Pipeline.ToldAt;
    IssuedTag(p, c.ticket);
    ToldBounds(p, c.ticket, h, [], k, p.base + c.ticket.seqNo, skipped, r);
    ToldSame(p, c, h, p.conn.wire.log[k], r);
    assert Told(c, p.conn.wire.log[k]);
  }

  lemma OpenNumbered(p: Pipeline, plan: Plan, tickets: seq<Ticket>, start: nat, i: nat)
    requires Open(p, plan, tickets, start) && i < |tickets|
    ensures p.Numbered() && Issued(p, tickets[i])
  {
  }

  lemma ToldSame(p: Pipeline, c: Claimed, h: Recorder, s: Served, r: Outcome<()>)
    requires p.Told(c.ticket, h, [], s, r) && s.unit.Exec? && s.unit.tag == c.ticket.tag
    requires c.heard == h.log && c.outcome == r
    ensures Told(c, s)
  {
    hide Hears, Answered;
    if s.mode != Skipping {
      assert [] + p.HeardBy(c.ticket, s) == p.HeardBy(c.ticket, s);
    }
  }

  /** The tickets of some claims. */
  function TicketsOf(claims: seq<Claimed>): (tickets: seq<Ticket>)
    ensures |tickets| == |claims| && forall i | 0 <= i < |claims| :: tickets[i] == claims[i].ticket
  {
    seq(|claims|, i requires 0 <= i < |claims| => claims[i].ticket)
  }

  lemma OneMore(claims: seq<Claimed>, claim: Claimed)
    ensures TicketsOf(claims + [claim]) == TicketsOf(claims) + [claim.ticket]
  {
  }

  /** The closure's deeds, all of them. As long as the connection can go on, the
      pipeline is where they lead, and exactly the claims that tell of their
      executions are recorded. */
  method Perform(p: Pipeline, body: seq<Deed>) returns (claims: seq<Claimed>)
    requires p.Valid() && !p.unfinished && p.Aligned() && p.base == |p.conn.tickets|
    requires p.conn.Ready() ==> p.owed == [] && Fits(p, Opened(p.conn, |p.conn.tickets|))
    modifies p, p.conn, p.conn.wire
    ensures Under(p, Planned(Opened(p.conn, |old(p.conn.tickets)|), body), |old(p.conn.wire.log)|) && !p.unfinished
    ensures Match(claims, p.conn.wire.log, |old(p.conn.wire.log)|) && old(p.conn.wire.log) <= p.conn.wire.log
    ensures var told := Promised(Opened(p.conn, |old(p.conn.tickets)|), body);
            TicketsOf(claims) <= told && (p.conn.Ready() ==> TicketsOf(claims) == told)
    ensures !old(p.conn.Ready()) ==> !p.conn.Ready()
    ensures old(p.conn.Ready() && Peaceful(p.conn.wire)) ==>
              var first := Opened(p.conn, |old(p.conn.tickets)|);
              && (Orderly(first, body) ==> Smooth(p, Planned(first, body), |old(p.conn.wire.log)|))
              && (GivesUp(first, body) ==> Halted(p, Planned(first, body), |old(p.conn.wire.log)|))
  {
    hide Under, Smooth, Halted, Peaceful, Told, ToldIn, Planned, Promised, Orderly, GivesUp, Plan.After, Plan.Tells;
    hide Plan.Orderly, Pipeline.Valid, Opened;
    ghost var start, calm := |p.conn.wire.log|, p.conn.Ready() && Peaceful(p.conn.wire);
    var first := Opened(p.conn, |p.conn.tickets|);
    Begins(p);
    NonePlanned(first);
    var tickets: seq<Ticket>, plan := [], first;
    claims := [];
    for i := 0 to |body|
      invariant plan == Planned(first, body[..i]) && Open(p, plan, tickets, start)
      invariant old(p.conn.wire.log) <= p.conn.wire.log && Match(claims, p.conn.wire.log, start)
      invariant TicketsOf(claims) <= Promised(first, body[..i])
      invariant p.conn.Ready() ==> TicketsOf(claims) == Promised(first, body[..i])
      invariant !old(p.conn.Ready()) ==> !p.conn.Ready()
      invariant calm && Orderly(first, body[..i]) ==> Smooth(p, plan, start)
      invariant calm && GivesUp(first, body[..i]) ==> Halted(p, plan, start)
    {
      ghost var log := p.conn.wire.log;
      StepOn(first, body, i);
      OrderlyIs(plan, body[i]);
      if body[i].Claim? {
        var claimed := ClaimOne(p, body[i], plan, tickets, start);
        MatchGrows(claims, log, p.conn.wire.log, start);
        if claimed.Some? {
          OneMore(claims, claimed.value);
          claims := claims + [claimed.value];
        }
      } else if body[i].Queue? {
        tickets := Enqueue(p, body[i], plan, tickets, start);
      } else {
        Send(p, body[i], plan, tickets, start);
        MatchGrows(claims, log, p.conn.wire.log, start);
      }
      plan := plan.After(body[i]);
    }
    assert body[..|body|] == body;
  }

  lemma NonePlanned(plan: Plan)
    ensures Planned(plan, []) == plan && Promised(plan, []) == [] && Orderly(plan, []) && !GivesUp(plan, [])
  {
  }

  lemma OrderlyIs(plan: Plan, deed: Deed)
    ensures plan.Orderly(deed) ==> deed.Queue? ==> deed.encodes
    ensures plan.Tells(deed) ==> deed.Claim?
  {
  }

  lemma Begins(p: Pipeline)
    requires p.Valid() && !p.unfinished && p.Aligned() && p.base == |p.conn.tickets|
    requires p.conn.Ready() ==> p.owed == [] && Fits(p, Opened(p.conn, |p.conn.tickets|))
    ensures Open(p, Opened(p.conn, |p.conn.tickets|), [], |p.conn.wire.log|)
    ensures Peaceful(p.conn.wire) && p.conn.Ready() ==>
              Smooth(p, Opened(p.conn, |p.conn.tickets|), |p.conn.wire.log|)
  {
    hide Coupling;
  }

  lemma CleanOnPlan(plan: Plan, v: View, v': View)
    requires OnPlan(plan, v, 0) && !plan.stolen && !plan.flushed && v'.execs && v'.valid && v'.front >= 0
    requires plan.Idle() ==> (v.valid ==> v'.first == v.first)
    requires !plan.Idle() ==> v'.first == plan.base + plan.next
    ensures OnPlan(plan.AfterCleanup(), v', 0)
  {
  }

  lemma CleanSane(plan: Plan)
    requires plan.Sane() && !plan.stolen && !plan.flushed
    ensures plan.AfterCleanup().Sane()
  {
  }

  lemma FrontLow(p: Pipeline)
    requires p.Valid() && p.conn.Ready()
    ensures p.Front() >= 0
  {
    p.FrontLogged();
  }

  lemma UnderEither(p: Pipeline, plan: Plan, start: nat)
    requires Under(p, plan, start) && p.conn.Ready() && !plan.stolen && !plan.flushed
    ensures p.Valid() || p.Spoiled()
    ensures Fits(p, plan) && plan.base + plan.next == |p.conn.tickets| && plan.EndsAtSync() == p.EndsAtSync()
    ensures plan.Idle() <==> p.expectations == [] && !p.conn.scopePending
  {
    hide Pipeline.Valid, Pipeline.Spoiled, Pipeline.Surplus, AllExec;
  }

  /** A cleanup by hand, where no Sync was stolen and no half message
      flushed. */
  method CleanOn(p: Pipeline, ghost plan: Plan)
    requires Under(p, plan, 0) && !plan.stolen && !plan.flushed
    modifies p, p.conn`transactionStatus,
             p.conn`writeBuffer, p.conn`isBroken, p.conn`exchangeInProgress, p.conn`scopePending, p.conn.wire
    ensures Under(p, plan.AfterCleanup(), 0) && old(p.conn.wire.log) <= p.conn.wire.log
    ensures !old(p.conn.Ready()) ==> unchanged(p, p.conn, p.conn.wire)
    ensures old(p.conn.Ready() && p.expectations == [] && !p.conn.scopePending) ==> p.base == old(p.base)
  {
    hide Pipeline.Valid, Pipeline.Spoiled, Pipeline.Surplus, Pipeline.Numbered, Conforming, Wire.WentOn, OnPlan;
    hide Plan.Sane, Pipeline.Quiet, Pipeline.EndsAtSync, Plan.EndsAtSync, Conn.Valid, Readys, Syncs, Pipeline.Mistaken;
    hide Pipeline.Forgotten, SkipsToSync, ReadyNext, CleanFrom, Wire.Calm;
    ghost var v := ViewOf(p);
    CleanSane(plan);
    NoneQueued();
    if p.conn.Ready() {
      UnderEither(p, plan, 0);
    }
    p.Cleanup();
    StaysDead(p.conn.wire, old(p.conn.wire.log), old(p.conn.wire.mode), !old(p.halfWritten));
    if p.conn.Ready() {
      FrontLow(p);
      CleanOnPlan(plan, v, ViewOf(p));
    }
  }

  /** What of it a cleanup keeps. */
  ghost predicate Kept(p: Pipeline, plan: Plan)
    reads p, p.conn, p.conn.wire
  {
    && (p.conn.Ready() && p.conn.wire.mode != Dead && plan.stolen ==> p.Surplus() >= 1)
    && (!plan.stolen && !plan.flushed ==> p.Valid() || p.Spoiled())
    && (plan.flushed && p.conn.Ready() ==> p.conn.wire.mode == Dead)
  }

  /** What is left when the handle is given up, after a cleanup or without. */
  lemma GivenUp(p: Pipeline, plan: Plan)
    requires Kept(p, plan)
    ensures !plan.stolen && !plan.flushed ==> p.conn.Valid()
    ensures !p.conn.IsBroken() ==> (p.conn.InStep() <==> !plan.stolen && !plan.flushed)
  {
    hide Coupling, AllExec;
    if p.Valid() {
      p.Abandoned();
    }
    SurplusUnread(p.conn.wire.unread, p.expectations);
  }

  lemma UnderKept(p: Pipeline, plan: Plan, start: nat)
    requires Under(p, plan, start)
    ensures Kept(p, plan)
    ensures p.conn.Ready() ==> Fits(p, plan)
  {
    hide Pipeline.Spoiled, Pipeline.Numbered, Pipeline.Coupled, Pipeline.Surplus;
  }

  lemma SurplusUnread(unread: seq<BackMsg>, queue: seq<Expectation>)
    ensures Readys(unread) - PipelineQueue.Syncs(queue) >= 1 ==> unread != []
  {
  }

  /** Cleanup and drop. */
  method Close(p: Pipeline, ghost plan: Plan, ghost start: nat)
    requires Under(p, plan, start) && !p.unfinished
    modifies p, p.conn, p.conn.wire
    ensures old(p.conn.wire.log) <= p.conn.wire.log && p.conn.tickets == old(p.conn.tickets)
    ensures !plan.stolen && !plan.flushed ==> p.conn.Valid()
    ensures !p.conn.IsBroken() ==> (p.conn.InStep() <==> !plan.stolen && !plan.flushed)
    ensures !plan.stolen && !plan.flushed && !p.conn.IsBroken() ==> if plan.half then plan.Idle() else plan.EndsAtSync()
    ensures old(Smooth(p, plan, start)) ==>
              (!p.conn.IsBroken() <==> plan.EndsAtSync() && CleanFrom(p.conn.wire.log, start, |p.conn.wire.log|))
    ensures old(Halted(p, plan, start)) ==>
              (!p.conn.IsBroken() <==> plan.Idle() && CleanFrom(p.conn.wire.log, start, |p.conn.wire.log|))
    ensures !old(p.conn.Ready()) ==> p.conn.IsBroken()
  {
    hide Pipeline.Coupled, Conforming, Obeyed, Wire.Calm, Wire.Survivable, AllSurvive, CleanFrom, AllExec;
    hide Readys, Syncs;
    ghost var k, log, smooth := p.Front(), p.conn.wire.log, Smooth(p, plan, start);
    if p.Valid() && p.conn.Ready() {
      OnTrack(p);
    }
    p.Cleanup();
    if p.conn.Ready() {
      NoneQueued();
    }
    GivenUp(p, plan);
    p.Drop();
    if smooth && old(p.conn.Ready()) {
      CleanGrows(log, p.conn.wire.log, start, k);
      if CleanFrom(p.conn.wire.log, k, |p.conn.wire.log|) {
        CleanJoins(p.conn.wire.log, start, k, |p.conn.wire.log|);
      } else {
        DirtyRest(p.conn.wire.log, start, k);
      }
    }
  }

  lemma DirtyRest(log: seq<Served>, start: nat, k: int)
    requires start <= k && !CleanFrom(log, k, |log|)
    ensures !CleanFrom(log, start, |log|)
  {
  }

  /** A closure with a pipeline, whatever it does and however it is interrupted.
      Every recorded claim told exactly what the server answered to the
      execution of its ticket, and if the connection is usable afterwards, the
      recorded claims are those the deeds make one expect. It is then in step
      iff, by the deeds, no claim steals a Sync and no half message is flushed.
      If nothing disturbs an orderly closure, the connection is usable iff the
      last thing in the queue is a Sync and no Sync is answered with an error.
      If an orderly closure gives up at parameters that do not encode, it is
      usable iff there is nothing in the queue, and nothing owed. */
  method InPipeline(conn: Conn, body: seq<Deed>, result: Outcome<()>)
    returns (r: Outcome<()>, claims: seq<Claimed>)
    requires conn.Valid()
    modifies conn, conn.wire
    ensures old(conn.IsBroken()) ==> r == Fail(ConnectionBroken) && claims == [] && unchanged(conn, conn.wire)
    ensures old(!conn.IsBroken()) ==> r == result
    ensures old(conn.wire.log) <= conn.wire.log && Match(claims, conn.wire.log, |old(conn.wire.log)|)
    ensures var first := Opened(conn, |old(conn.tickets)|);
            var plan, told := Planned(first, body), Promised(first, body);
            && TicketsOf(claims) <= told
            && (!plan.stolen && !plan.flushed ==> conn.Valid())
            && (!conn.IsBroken() ==>
                  && TicketsOf(claims) == told && |conn.tickets| == plan.base + plan.next
                  && (conn.InStep() <==> !plan.stolen && !plan.flushed)
                  && (result.Dropped? ==> !plan.open)
                  && (!result.Dropped? && !plan.stolen && !plan.flushed ==>
                        if plan.half then plan.Idle() else plan.EndsAtSync()))
    ensures old(!conn.IsBroken() && Peaceful(conn.wire)) && !result.Dropped? ==>
              var first, clean := Opened(conn, |old(conn.tickets)|),
                                   CleanFrom(conn.wire.log, |old(conn.wire.log)|, |conn.wire.log|);
              && (Orderly(first, body) ==> (!conn.IsBroken() <==> Planned(first, body).EndsAtSync() && clean))
              && (GivesUp(first, body) ==> (!conn.IsBroken() <==> Planned(first, body).Idle() && clean))
  {
    hide Pipeline.Coupled, Conforming, Peaceful, CleanFrom, Told, ToldIn, Pipeline.Spoiled;
    r, claims := result, [];
    if conn.EnsureUsable().Fail? {
      return Fail(ConnectionBroken), claims;
    }
    ghost var start := |conn.wire.log|;
    ghost var plan := Planned(Opened(conn, |conn.tickets|), body);
    var p := new Pipeline(conn);
    claims := Perform(p, body);
    UnderKept(p, plan, start);
    if result.Dropped? {
      // The future is forgotten, and the handle with it.
      GivenUp(p, plan);
      return;
    }
    ghost var log := conn.wire.log;
    Close(p, plan, start);
    MatchGrows(claims, log, conn.wire.log, start);
  }

  /** The closure of the documentation, undisturbed, for any executions whose
      parameters encode: queue them, Sync, and claim them in their order. Unless
      the server answers the Sync with an error, every claim is answered, with
      what became of its own execution, and the connection is usable. */
  method TypicalClosure(conn: Conn, queues: seq<Deed>, verdict: nat -> Outcome<()>)
    returns (r: Outcome<()>, claims: seq<Claimed>)
    requires conn.Valid() && !conn.IsBroken() && Peaceful(conn.wire)
    requires AllQueue(queues) && forall n :: verdict(n).Done?
    modifies conn, conn.wire
    ensures r == Done(()) && Match(claims, conn.wire.log, |old(conn.wire.log)|)
    ensures !conn.IsBroken() <==> CleanFrom(conn.wire.log, |old(conn.wire.log)|, |conn.wire.log|)
    ensures !conn.IsBroken() ==>
              && conn.InStep() && |claims| == |queues|
              && forall i | 0 <= i < |queues| :: claims[i].ticket.tag == |old(conn.tickets)| + i
  {
    hide Peaceful, CleanFrom, Orderly, Planned, Promised, Typical, Told, ToldIn, Match, AllQueue;
    TypicalIsOrderly(conn, |conn.tickets|, queues, verdict);
    r, claims := InPipeline(conn, Typical(queues, |queues|, verdict), Done(()));
  }
}
