/** The client's side of a pipeline, as it follows from the calls alone. As
    long as the connection can go on, no answer of the server decides any of
    it. */
module Plans {
  import opened Protocol
  import opened Server
  import opened Connection
  import opened PipelineQueue
  import opened Pipelining

  /** A ticket handed out in this closure, by its place among them, or any
      other. */
  datatype Pick = Ours(index: nat) | Stray(ticket: Ticket)

  /** What a closure does. */
  datatype Deed =
    | Queue(kind: ExecKind, columns: Option<Bytes>, encodes: bool)
    | Flush
    | Sync
    | Claim(pick: Pick, verdict: nat -> Outcome<()>)

  datatype Plan = Plan(
    conn: Conn,
    base: nat,             // the tag of ticket 0
    queue: seq<Expectation>,
    buffered: bool,        // executions are unsent
    half: bool,            // the write buffer ends in an unfinished message
    open: bool,            // the scope is pending
    next: nat,
    turn: nat,
    tickets: seq<Ticket>,  // handed out since the counting last started
    aligned: bool,         // every number was for an execution, and every claim took one
    stolen: bool,          // a claim stole a Sync
    flushed: bool)         // half a message was flushed
  {
    predicate Sane() {
      && (aligned ==> !stolen && !flushed && !half && |tickets| == next)
      && forall i | 0 <= i < |tickets| ::
           && tickets[i].seqNo < next && tickets[i].tag == base + tickets[i].seqNo
           && (aligned ==> tickets[i].seqNo == i)
    }

    /** The queue a claim finds. */
    function Sent(): seq<Expectation> {
      queue + if buffered || half then [PipelineQueue.Sync] else []
    }

    /** The last thing a cleanup waits for is a Sync. */
    predicate EndsAtSync() {
      buffered || EndsBehindSync(queue)
    }

    /** A cleanup has nothing to do. */
    predicate Idle() {
      queue == [] && !open
    }

    function AfterQueue(kind: ExecKind, columns: Option<Bytes>, encodes: bool): Plan {
      if !encodes then this.(half := true, next := next + 1, aligned := false)
      else
        this.(queue := queue + [Execution(kind)], buffered := buffered || !half, next := next + 1,
              tickets := tickets + [Ticket(next, columns, conn, base + next)])
    }

    function AfterFlush(): Plan {
      this.(buffered := false, half := false, open := open || buffered || half,
            aligned := aligned && !half, flushed := flushed || half)
    }

    function AfterSync(): Plan {
      this.(queue := queue + [PipelineQueue.Sync], buffered := false, half := false, open := true)
    }

    /** Out of its turn a claim changes nothing. In its turn it takes the front
        of the queue, whatever that is. */
    function AfterClaim(number: nat): Plan {
      var sent := Sent();
      if number != turn then this
      else
        this.(queue := DropSyncs(Tail(sent)), buffered := false, half := false,
              open := StillOpen(Tail(sent), open || queue != sent), turn := turn + 1,
              aligned := aligned && sent != [] && sent[0].Execution?,
              stolen := stolen || StartsWithSync(sent))
    }

    /** Tickets are counted from zero again, unless there was nothing to do. */
    function AfterCleanup(): Plan {
      if Idle() then this.(buffered := false, half := false)
      else
        this.(base := base + next, queue := [], buffered := false, half := false, open := !EndsAtSync(),
              next := 0, turn := 0, tickets := [], aligned := true)
    }

    /** The ticket of a claim, if the closure has it. */
    function TicketOf(pick: Pick): Option<Ticket> {
      match pick
      case Stray(ticket) => Some(ticket)
      case Ours(index) => if index < |tickets| then Some(tickets[index]) else None
    }

    function After(deed: Deed): Plan {
      match deed
      case Queue(kind, columns, encodes) => AfterQueue(kind, columns, encodes)
      case Flush => AfterFlush()
      case Sync => AfterSync()
      case Claim(pick, _) =>
        match TicketOf(pick)
        case None => this
        case Some(ticket) => AfterClaim(ticket.seqNo)
    }

    /** A claim in its turn, of an execution, with a ticket of the closure, while
        the numbers are not shifted: it gets the execution of its ticket. */
    predicate Tells(deed: Deed) {
      && deed.Claim? && deed.pick.Ours? && deed.pick.index < |tickets|
      && tickets[deed.pick.index].seqNo == turn && After(deed).aligned
    }

    /** The ticket is the next in turn, of a statement whose columns are
        known. */
    predicate TurnOf(ticket: Ticket) {
      && ticket.seqNo == turn
      && queue != [] && queue[0].Execution?
      && (ticket.columns.Some? || queue[0].kind == ParseBindExecute)
    }

    /** Parameters that encode, and claims in turn with a handler that does not
        fail. */
    ghost predicate Orderly(deed: Deed) {
      && (deed.Queue? ==> deed.encodes)
      && (deed.Claim? ==>
            && (forall n :: deed.verdict(n).Done?)
            && deed.pick.Ours? && deed.pick.index < |tickets| && TurnOf(tickets[deed.pick.index]))
    }
  }

  /** A pipeline that was just opened. */
  function Opened(conn: Conn, base: nat): (plan: Plan)
    ensures plan.Sane()
  {
    Plan(conn, base, [], false, false, false, 0, 0, [], true, false, false)
  }

  function Front<T>(s: seq<T>): seq<T>
    requires s != []
  {
    s[..|s| - 1]
  }

  function Last<T>(s: seq<T>): T
    requires s != []
  {
    s[|s| - 1]
  }

  function Planned(plan: Plan, body: seq<Deed>): Plan {
    if body == [] then plan else Planned(plan, Front(body)).After(Last(body))
  }

  /** The tickets whose claims tell what became of their executions, in the
      order of the claims. */
  function Promised(plan: Plan, body: seq<Deed>): seq<Ticket> {
    if body == [] then []
    else
      var before, deed := Planned(plan, Front(body)), Last(body);
      Promised(plan, Front(body)) + if before.Tells(deed) then [before.tickets[deed.pick.index]] else []
  }

  ghost predicate Orderly(plan: Plan, body: seq<Deed>) {
    body != [] ==> Orderly(plan, Front(body)) && Planned(plan, Front(body)).Orderly(Last(body))
  }

  /** All in order until parameters do not encode, and the closure gives up. */
  ghost predicate GivesUp(plan: Plan, body: seq<Deed>) {
    && body != [] && Orderly(plan, Front(body))
    && Last(body).Queue? && !Last(body).encodes
  }

  function ClaimsIn(body: seq<Deed>): nat {
    if body == [] then 0 else ClaimsIn(Front(body)) + if Last(body).Claim? then 1 else 0
  }

  lemma StepOn(plan: Plan, body: seq<Deed>, i: nat)
    requires i < |body|
    ensures Front(body[..i + 1]) == body[..i] && Last(body[..i + 1]) == body[i]
    ensures Planned(plan, body[..i + 1]) == Planned(plan, body[..i]).After(body[i])
    ensures Orderly(plan, body[..i + 1]) <==> Orderly(plan, body[..i]) && Planned(plan, body[..i]).Orderly(body[i])
    ensures GivesUp(plan, body[..i + 1]) <==> Orderly(plan, body[..i]) && body[i].Queue? && !body[i].encodes
    ensures Promised(plan, body[..i + 1]) == Promised(plan, body[..i])
            + if Planned(plan, body[..i]).Tells(body[i])
              then [Planned(plan, body[..i]).tickets[body[i].pick.index]] else []
  {
  }

  lemma SaneAfter(plan: Plan, deed: Deed)
    requires plan.Sane()
    ensures plan.After(deed).Sane()
  {
    hide Plan.AfterClaim;
    match deed
    case Claim(pick, _) => if plan.TicketOf(pick).Some? { SaneClaim(plan, plan.TicketOf(pick).value.seqNo); }
    case _ =>
  }

  lemma SaneClaim(plan: Plan, number: nat)
    requires plan.Sane()
    ensures plan.AfterClaim(number).Sane()
  {
    hide DropSyncs, StillOpen;
  }

  // -- What a caller can tell beforehand

  /** A closure that leaves the Syncs to the pipeline, and whose parameters
      encode, steals none. */
  lemma {:induction false} NoneStolen(plan: Plan, body: seq<Deed>)
    requires !StartsWithSync(plan.Sent()) && !plan.stolen
    requires forall deed <- body :: !deed.Sync? && (deed.Queue? ==> deed.encodes)
    ensures !StartsWithSync(Planned(plan, body).Sent()) && !Planned(plan, body).stolen
    decreases body
  {
    if body != [] {
      NoneStolen(plan, Front(body));
      assert Last(body) in body;
      StealsNone(Planned(plan, Front(body)), Last(body));
    }
  }

  lemma StealsNone(plan: Plan, deed: Deed)
    requires !StartsWithSync(plan.Sent()) && !plan.stolen && !deed.Sync? && (deed.Queue? ==> deed.encodes)
    ensures !StartsWithSync(plan.After(deed).Sent()) && !plan.After(deed).stolen
  {
    hide DropSyncs, StillOpen;
    var plan' := plan.After(deed);
    match deed {
      case Queue(kind, _, _) => assert plan'.Sent()[0] == if plan.queue == [] then Execution(kind) else plan.queue[0];
      case Flush => assert plan'.Sent() == plan.queue;
      case Sync =>
      case Claim(_, _) =>
        NoneLead(Tail(plan.Sent()));
        assert plan' == plan || plan'.Sent() == plan'.queue;
    }
  }

  lemma NoneLead(queue: seq<Expectation>)
    ensures !StartsWithSync(DropSyncs(queue))
  {
  }

  /** A closure whose parameters encode flushes no half message. */
  lemma {:induction false} NoneFlushed(plan: Plan, body: seq<Deed>)
    requires !plan.half && !plan.flushed
    requires forall deed <- body :: deed.Queue? ==> deed.encodes
    ensures !Planned(plan, body).half && !Planned(plan, body).flushed
    decreases body
  {
    if body != [] {
      NoneFlushed(plan, Front(body));
      assert Last(body) in body;
    }
  }

  /** In an orderly closure every claim tells what became of its execution: the
      first ones handed out, each once and in their order. */
  lemma {:induction false} OrderlyTells(conn: Conn, base: nat, body: seq<Deed>)
    requires Orderly(Opened(conn, base), body)
    ensures var plan := Planned(Opened(conn, base), body);
            && plan.Sane() && plan.aligned && plan.turn <= |plan.tickets|
            && Promised(Opened(conn, base), body) == plan.tickets[..plan.turn] && plan.turn == ClaimsIn(body)
    decreases body
  {
    var start := Opened(conn, base);
    if body != [] {
      OrderlyTells(conn, base, Front(body));
      var before, deed := Planned(start, Front(body)), Last(body);
      SaneAfter(before, deed);
      if deed.Claim? {
        assert before.Sent()[0] == before.queue[0] && before.tickets[deed.pick.index].seqNo == deed.pick.index;
        assert before.tickets[..before.turn + 1] == before.tickets[..before.turn] + [before.tickets[before.turn]];
      }
    }
  }

  lemma {:induction false} BaseKept(plan: Plan, body: seq<Deed>)
    ensures Planned(plan, body).base == plan.base && Planned(plan, body).conn == plan.conn
    decreases body
  {
    hide Plan.After;
    if body != [] {
      BaseKept(plan, Front(body));
      BaseStays(Planned(plan, Front(body)), Last(body));
    }
  }

  lemma BaseStays(plan: Plan, deed: Deed)
    ensures plan.After(deed).base == plan.base && plan.After(deed).conn == plan.conn
  {
    hide DropSyncs, StillOpen;
  }

  // -- The documented use: queue, Sync, and claim in order

  ghost predicate AllQueue(queues: seq<Deed>) {
    forall deed <- queues :: deed.Queue? && deed.encodes && (deed.columns.Some? || deed.kind == ParseBindExecute)
  }

  function Claims(n: nat, verdict: nat -> Outcome<()>): (body: seq<Deed>)
    ensures |body| == n && forall i | 0 <= i < n :: body[i] == Claim(Ours(i), verdict)
  {
    seq(n, i requires 0 <= i < n => Claim(Ours(i), verdict))
  }

  function Typical(queues: seq<Deed>, n: nat, verdict: nat -> Outcome<()>): seq<Deed> {
    queues + [Deed.Sync] + Claims(n, verdict)
  }

  function Queued(queues: seq<Deed>): (queue: seq<Expectation>)
    requires AllQueue(queues)
    ensures |queue| == |queues| && forall i | 0 <= i < |queues| :: queue[i] == Execution(queues[i].kind)
  {
    seq(|queues|, i requires 0 <= i < |queues| => Execution(queues[i].kind))
  }

  /** Everything is queued. */
  ghost predicate Waits(plan: Plan, queues: seq<Deed>)
    requires AllQueue(queues)
  {
    && plan.Sane() && plan.aligned && plan.turn == 0 && plan.queue == Queued(queues)
    && |plan.tickets| == |queues| && forall i | 0 <= i < |queues| :: plan.tickets[i].columns == queues[i].columns
  }

  lemma {:induction false} QueuesPlanned(conn: Conn, base: nat, queues: seq<Deed>)
    requires AllQueue(queues)
    ensures Orderly(Opened(conn, base), queues) && Waits(Planned(Opened(conn, base), queues), queues)
    decreases queues
  {
    hide Plan.After, Plan.Orderly, Queued;
    if queues == [] {
      NoneWait(conn, base);
    } else {
      QueuesPlanned(conn, base, Front(queues));
      QueueNext(Planned(Opened(conn, base), Front(queues)), queues);
    }
  }

  lemma NoneWait(conn: Conn, base: nat)
    ensures Waits(Opened(conn, base), [])
  {
  }

  lemma QueueNext(plan: Plan, queues: seq<Deed>)
    requires queues != [] && AllQueue(queues) && Waits(plan, Front(queues))
    ensures plan.Orderly(Last(queues)) && Waits(plan.After(Last(queues)), queues)
  {
    assert Last(queues) in queues;
    SaneAfter(plan, Last(queues));
    assert Queued(queues) == Queued(Front(queues)) + [Execution(Last(queues).kind)];
  }

  /** After `n` claims. */
  ghost predicate Claimed(plan: Plan, queues: seq<Deed>, n: nat)
    requires AllQueue(queues)
  {
    && plan.Sane() && plan.aligned && plan.turn == n <= |queues| && !plan.buffered && !plan.half
    && |plan.tickets| == |queues| && (forall i | 0 <= i < |queues| :: plan.tickets[i].columns == queues[i].columns)
    && plan.queue == if 0 < n == |queues| then [] else Queued(queues)[n..] + [PipelineQueue.Sync]
  }

  lemma {:induction false} ClaimsPlanned(conn: Conn, base: nat, queues: seq<Deed>, n: nat, verdict: nat -> Outcome<()>)
    requires AllQueue(queues) && n <= |queues| && forall i :: verdict(i).Done?
    ensures Orderly(Opened(conn, base), Typical(queues, n, verdict))
    ensures Claimed(Planned(Opened(conn, base), Typical(queues, n, verdict)), queues, n)
    decreases n
  {
    hide Queued, Claimed, Waits, AllQueue, Plan.After, Plan.Orderly, Opened, Typical;
    var start, body := Opened(conn, base), Typical(queues, n, verdict);
    if n == 0 {
      QueuesPlanned(conn, base, queues);
      TypicalSync(queues, verdict);
      SyncNext(Planned(start, queues), queues);
    } else {
      ClaimsPlanned(conn, base, queues, n - 1, verdict);
      TypicalOn(queues, n - 1, verdict);
      ClaimsNext(Planned(start, Front(body)), Last(body), queues, n - 1);
    }
  }

  lemma TypicalSync(queues: seq<Deed>, verdict: nat -> Outcome<()>)
    ensures var body := Typical(queues, 0, verdict); body != [] && Front(body) == queues && Last(body) == Deed.Sync
  {
  }

  lemma SyncNext(plan: Plan, queues: seq<Deed>)
    requires AllQueue(queues) && Waits(plan, queues)
    ensures Claimed(plan.After(Deed.Sync), queues, 0) && plan.Orderly(Deed.Sync)
  {
    assert Queued(queues)[0..] == Queued(queues);
  }

  lemma TypicalOn(queues: seq<Deed>, n: nat, verdict: nat -> Outcome<()>)
    ensures var body := Typical(queues, n + 1, verdict);
            body != [] && Front(body) == Typical(queues, n, verdict) && Last(body) == Claim(Ours(n), verdict)
  {
  }

  lemma ClaimsNext(plan: Plan, deed: Deed, queues: seq<Deed>, n: nat)
    requires AllQueue(queues) && n < |queues|
    requires deed.Claim? && deed.pick == Ours(n) && forall i :: deed.verdict(i).Done?
    requires Claimed(plan, queues, n)
    ensures plan.Orderly(deed) && Claimed(plan.After(deed), queues, n + 1)
  {
    hide DropSyncs, StillOpen, Queued, AllQueue;
    assert plan.Sent() == plan.queue && (AllQueue(queues) ==> queues[n] in queues);
    FrontQueued(queues, n);
    DropFront(Queued(queues), n);
    SaneClaim(plan, n);
  }

  lemma FrontQueued(queues: seq<Deed>, n: nat)
    requires AllQueue(queues) && n < |queues|
    ensures Queued(queues)[n] == Execution(queues[n].kind) && (forall e <- Queued(queues) :: e.Execution?)
    ensures queues[n].columns.Some? || queues[n].kind == ParseBindExecute
  {
    assert queues[n] in queues;
  }

  lemma DropFront(queue: seq<Expectation>, n: nat)
    requires n < |queue| && forall e <- queue :: e.Execution?
    ensures var waits := queue[n..] + [PipelineQueue.Sync];
            && waits[0] == queue[n]
            && DropSyncs(Tail(waits)) == if n + 1 == |queue| then [] else queue[n + 1..] + [PipelineQueue.Sync]
  {
    var waits := queue[n..] + [PipelineQueue.Sync];
    assert Tail(waits) == queue[n + 1..] + [PipelineQueue.Sync];
    if n + 1 == |queue| {
      assert Tail(waits) == [PipelineQueue.Sync] && Tail(waits)[1..] == [];
    } else {
      assert Tail(waits)[0] == queue[n + 1] && queue[n + 1] in queue;
    }
  }

  /** Executions, one Sync, and their claims in order: the closure of the
      documentation, for any number of executions, is orderly, ends at a Sync,
      steals none, and every ticket is told. */
  lemma TypicalIsOrderly(conn: Conn, base: nat, queues: seq<Deed>, verdict: nat -> Outcome<()>)
    requires AllQueue(queues) && forall i :: verdict(i).Done?
    ensures var start, body := Opened(conn, base), Typical(queues, |queues|, verdict);
            var plan := Planned(start, body);
            && Orderly(start, body) && plan.EndsAtSync() && !plan.stolen && !plan.flushed
            && |plan.tickets| == |queues| && Promised(start, body) == plan.tickets && plan.base == base
            && forall i | 0 <= i < |queues| :: plan.tickets[i].tag == base + i
  {
    hide Plan.After, Orderly, Planned, Promised, Typical, DropSyncs;
    var start, body := Opened(conn, base), Typical(queues, |queues|, verdict);
    ClaimsPlanned(conn, base, queues, |queues|, verdict);
    OrderlyTells(conn, base, body);
    BaseKept(start, body);
    var plan := Planned(start, body);
    assert plan.tickets[..|queues|] == plan.tickets;
    if queues == [] {
      assert plan.queue == [PipelineQueue.Sync];
    }
  }
}
