/** The peer: which replies a PostgreSQL server may send to each unit of work
    (Message Flow, "Extended Query" and "Pipelining"), and the wire between it
    and the client, whose every await may be interrupted. */
module Server {
  import opened Protocol

  /** What is executed: a text, or a statement by its name. */
  datatype Source = Sql(text: string) | Statement(name: string)

  /** Encoded parameters are told apart by a number. */
  datatype Operation =
    | Prepare(name: string, text: string, types: seq<nat>)
    | Execute(name: string, params: nat)
    | ExecuteSql(text: string, params: nat)
    | CloseStatement(name: string)

  /** What a client sends and the server answers as one whole. A Flush asks
      for no answer of its own and is not a unit. */
  datatype Unit =
    | Exec(kind: ExecKind, tag: nat)     // queued by a pipeline
    | Op(op: Operation)                  // extended query, without its Sync
    | Bind(portal: string, source: Source, params: nat)  // [Parse] Bind
    | Fetch(portal: string, maxRows: nat)  // Describe Execute
    | ClosePortal(portal: string)
    | ParseOnly(text: string)            // a batch's Parse
    | Apply(source: Source, params: nat)  // Bind Execute of one parameter set of a batch
    | SimpleQuery(text: string)
    | SyncPoint

  datatype ExecKind = ParseBindExecute | BindExecute

  /** Where a server is inside its reply to one unit. */
  datatype Phase =
    | WantParse(then_: AfterParse)
    | WantBind(after: AfterBind)
    | WantDescribe(limited: bool)
    | Rows(has: bool, limited: bool)
    | WantParameters
    | WantColumns
    | WantClose
    | QueryResponse
    | QueryRows
    | WantSync
    | WantReady

  datatype AfterParse = ThenBind(after: AfterBind) | ThenParameters | ThenEnd
  datatype AfterBind = ThenDescribe | ThenRows | ThenNothing

  function Start(u: Unit): Phase {
    match u
    case Exec(ParseBindExecute, _) => WantParse(ThenBind(ThenDescribe))
    case Exec(BindExecute, _) => WantBind(ThenRows)
    case Op(Prepare(_, _, _)) => WantParse(ThenParameters)
    case Op(Execute(_, _)) => WantBind(ThenDescribe)
    case Op(ExecuteSql(_, _)) => WantParse(ThenBind(ThenDescribe))
    case Op(CloseStatement(_)) => WantClose
    case Bind(_, source, _) => if source.Sql? then WantParse(ThenBind(ThenNothing)) else WantBind(ThenNothing)
    case Fetch(_, maxRows) => WantDescribe(maxRows > 0)
    case ClosePortal(_) => WantClose
    case ParseOnly(_) => WantParse(ThenEnd)
    case Apply(_, _) => WantBind(ThenRows)
    case SimpleQuery(_) => QueryResponse
    case SyncPoint => WantSync
  }

  datatype Step = Illegal | More(next: Phase) | Last

  /** The reply grammar as an automaton. Asynchronous messages may come
      anywhere; an error ends the reply, except that ReadyForQuery still
      follows a non-fatal error raised by a Sync or a simple query. */
  function Next(ph: Phase, m: BackMsg): Step {
    match m
    case Async(_) => More(ph)
    case ErrorResponse(e) =>
      if !e.IsFatal() && (ph.WantSync? || ph.QueryResponse? || ph.QueryRows?) then More(WantReady)
      else if !e.IsFatal() && ph.WantReady? then Illegal
      else Last
    case ParseComplete =>
      if ph.WantParse? then
        match ph.then_
        case ThenBind(after) => More(WantBind(after))
        case ThenParameters => More(WantParameters)
        case ThenEnd => Last
      else Illegal
    case BindComplete =>
      if ph.WantBind? then
        match ph.after
        case ThenDescribe => More(WantDescribe(false))
        case ThenRows => More(Rows(true, false))
        case ThenNothing => Last
      else Illegal
    case CloseComplete => if ph.WantClose? then Last else Illegal
    case ParameterDescription(_) => if ph.WantParameters? then More(WantColumns) else Illegal
    case RowDescription(_) =>
      if ph.WantDescribe? then More(Rows(true, ph.limited))
      else if ph.WantColumns? then Last
      else if ph.QueryResponse? then More(QueryRows)
      else Illegal
    case NoData =>
      if ph.WantDescribe? then More(Rows(false, ph.limited))
      else if ph.WantColumns? then Last
      else Illegal
    case DataRow(_) => if (ph.Rows? && ph.has) || ph.QueryRows? then More(ph) else Illegal
    case CommandComplete(_) =>
      if ph.Rows? then Last
      else if ph.QueryRows? || ph.QueryResponse? then More(QueryResponse)
      else Illegal
    case EmptyQueryResponse =>
      if ph.Rows? then Last else if ph.QueryResponse? then More(WantReady) else Illegal
    case PortalSuspended => if ph.Rows? && ph.limited then Last else Illegal
    case ReadyForQuery(_) =>
      if ph.WantSync? || ph.WantReady? || ph.QueryResponse? then Last else Illegal
  }

  /** `t` is a whole reply, from phase `ph` to its last message. */
  predicate Reply(ph: Phase, t: seq<BackMsg>): (whole: bool)
    ensures whole ==> t != []
    decreases t
  {
    && t != []
    && match Next(ph, t[0])
       case Illegal => false
       case Last => |t| == 1
       case More(ph') => Reply(ph', t[1..])
  }

  lemma AdvanceRest(ph: Phase, t: seq<BackMsg>)
    requires Reply(ph, t)
    ensures match Next(ph, t[0])
            case Illegal => false
            case Last => t[1..] == [] && t == [t[0]]
            case More(ph') => Reply(ph', t[1..]) && t[1..][|t[1..]| - 1] == t[|t| - 1]
  {
    hide Next;
  }

  /** Binding, Sync and a statement without columns are answered without rows. */
  lemma {:induction false} NoRows(ph: Phase, t: seq<BackMsg>)
    requires Reply(ph, t)
    requires match ph
             case WantParse(then_) => then_ == ThenBind(ThenNothing)
             case WantBind(after) => after == ThenNothing
             case Rows(has, _) => !has
             case WantSync | WantReady => true
             case _ => false
    ensures RowsOf(t) == []
    decreases t
  {
    if Next(ph, t[0]).More? {
      NoRows(Next(ph, t[0]).next, t[1..]);
    }
  }

  /** A server executes, or skips everything up to the next Sync after an
      error, or is gone after a fatal one. */
  datatype Mode = Normal | Skipping | Dead

  predicate Conforms(mode: Mode, u: Unit, t: seq<BackMsg>) {
    match mode
    case Normal => Reply(Start(u), t)
    case Skipping => if u.SyncPoint? then Reply(WantReady, t) else t == []
    case Dead => t == []
  }

  lemma ChainHead(from: Mode, served: seq<Served>, to: Mode)
    requires served != [] && Chain(from, served, to)
    ensures served[0].mode == from && Conforms(from, served[0].unit, served[0].trace)
    ensures Chain(NextMode(from, served[0].trace), served[1..], to)
    ensures Flatten(served) == served[0].trace + Flatten(served[1..])
  {
  }

  lemma FirstUnit(served: seq<Served>, u: Unit, units: seq<Unit>)
    requires Units(served) == [u] + units
    ensures served != [] && served[0].unit == u && Units(served[1..]) == units
    ensures units == [] ==> served == [served[0]] && Flatten(served) == served[0].trace
  {
    assert |[u] + units| > 0;
    assert ([u] + units)[0] == u && ([u] + units)[1..] == units;
    if units == [] {
      assert Units(served[1..]) == [];
      assert served[1..] == [] && served == [served[0]];
      assert served[0].trace + [] == served[0].trace;
    }
  }

  /** Nothing fatal in a reply. */
  predicate Survives(t: seq<BackMsg>) {
    forall m <- t :: m.ErrorResponse? ==> !m.error.IsFatal()
  }

  predicate AllSurvive(served: seq<Served>) {
    forall i | 0 <= i < |served| :: Survives(served[i].trace)
  }

  function NextMode(mode: Mode, t: seq<BackMsg>): Mode {
    if t == [] then mode
    else
      match t[|t| - 1]
      case ErrorResponse(e) => if e.IsFatal() then Dead else Skipping
      case ReadyForQuery(_) => Normal
      case _ => mode
  }

  /** One unit the server received, its mode then, and the whole reply. */
  datatype Served = Served(unit: Unit, mode: Mode, trace: seq<BackMsg>) {
    predicate Ok() {
      Conforms(mode, unit, trace)
    }
  }

  /** Consecutive units take the server from mode `from` to mode `to`. */
  predicate Chain(from: Mode, served: seq<Served>, to: Mode)
    decreases served
  {
    if served == [] then from == to
    else
      && served[0].mode == from
      && served[0].Ok()
      && Chain(NextMode(from, served[0].trace), served[1..], to)
  }

  function Flatten(served: seq<Served>): seq<BackMsg> {
    if served == [] then [] else served[0].trace + Flatten(served[1..])
  }

  function Units(served: seq<Served>): seq<Unit> {
    if served == [] then [] else [served[0].unit] + Units(served[1..])
  }

  /** A phase inside a unit that waits for a Sync. */
  predicate Executing(ph: Phase) {
    !ph.WantSync? && !ph.WantReady? && !ph.QueryResponse? && !ph.QueryRows?
  }

  lemma {:induction false} DeadForEver(served: seq<Served>, to: Mode)
    requires Chain(Dead, served, to)
    ensures to == Dead && Flatten(served) == []
    decreases served
  {
    if served != [] {
      DeadForEver(served[1..], to);
    }
  }

  lemma {:induction false} ChainSnoc(from: Mode, a: seq<Served>, mid: Mode, s: Served)
    requires Chain(from, a, mid) && s.mode == mid && s.Ok()
    ensures Chain(from, a + [s], NextMode(mid, s.trace))
    decreases a
  {
    if a != [] {
      assert (a + [s])[1..] == a[1..] + [s];
      ChainSnoc(NextMode(from, a[0].trace), a[1..], mid, s);
    }
  }

  lemma {:induction false} FlattenConcat(a: seq<Served>, b: seq<Served>)
    ensures Flatten(a + b) == Flatten(a) + Flatten(b)
    ensures Units(a + b) == Units(a) + Units(b)
  {
    UnitsConcat(a, b);
    hide Units;
    if a == [] {
      assert a + b == b;
    } else {
      assert (a + b)[1..] == a[1..] + b;
      FlattenConcat(a[1..], b);
    }
  }

  lemma FlattenSnoc(a: seq<Served>, s: Served)
    ensures Flatten(a + [s]) == Flatten(a) + s.trace
    ensures Units(a + [s]) == Units(a) + [s.unit]
  {
    assert [s][1..] == [] && s.trace + [] == s.trace;
    FlattenConcat(a, [s]);
  }

  lemma NothingYet(mode: Mode)
    ensures Flatten([]) == [] && Units([]) == [] && Chain(mode, [], mode)
  {
  }

  lemma {:induction false} UnitsConcat(a: seq<Served>, b: seq<Served>)
    ensures Units(a + b) == Units(a) + Units(b)
  {
    if a == [] {
      assert a + b == b;
    } else {
      assert (a + b)[1..] == a[1..] + b;
      UnitsConcat(a[1..], b);
    }
  }

  lemma SurviveConcat(a: seq<Served>, b: seq<Served>)
    requires AllSurvive(a) && AllSurvive(b)
    ensures AllSurvive(a + b)
  {
    forall i | 0 <= i < |a + b| ensures Survives((a + b)[i].trace) {
      assert (a + b)[i] == if i < |a| then a[i] else b[i - |a|];
    }
  }

  /** The status the last ReadyForQuery of a run of replies reported. */
  function LastStatus(served: seq<Served>): TransactionStatus {
    if served == [] then Idle
    else
      var t := served[|served| - 1].trace;
      if t != [] && t[|t| - 1].ReadyForQuery? then StatusOf(t[|t| - 1].status)
      else LastStatus(served[..|served| - 1])
  }

  /** The status byte of the last ReadyForQuery in a run of replies. */
  function LastByte(served: seq<Served>): Option<char> {
    if served == [] then None
    else
      var t := served[|served| - 1].trace;
      if t != [] && t[|t| - 1].ReadyForQuery? then Some(t[|t| - 1].status)
      else LastByte(served[..|served| - 1])
  }

  /** `status` is what the byte `b` says; before any, a connection is idle. */
  predicate Reported(b: Option<char>, status: TransactionStatus) {
    && (status == InTransaction <==> b == Some('T'))
    && (status == Failed <==> b == Some('E'))
  }

  lemma {:induction false} StatusByByte(served: seq<Served>)
    ensures Reported(LastByte(served), LastStatus(served))
    decreases served
  {
    if served != [] {
      StatusByByte(served[..|served| - 1]);
    }
  }

  lemma StaysAlive(mode: Mode, t: seq<BackMsg>)
    requires Survives(t) && mode != Dead
    ensures NextMode(mode, t) != Dead
  {
    assert t != [] ==> t[|t| - 1] in t;
  }

  /** What becomes of one await. Of an interrupted write `delivered` units
      still reach the server whole; the next one is cut somewhere, and the
      server may have sent anything in answer to the part it got. */
  datatype Event =
    | Proceed
    | IoFailure(delivered: nat, fragment: seq<BackMsg>)
    | Abandoned(delivered: nat, fragment: seq<BackMsg>)

  type Strategy = (nat, Unit, Mode) -> seq<BackMsg>

  /** What a server may say before it gives up on a message that is not one. */
  type LastWords = t: seq<BackMsg> | forall m <- t :: !m.ReadyForQuery?

  ghost predicate Conforming(strategy: Strategy) {
    forall n, u, m :: Conforms(m, u, strategy(n, u, m))
  }

  /** The replies in a log are those of the strategy. */
  ghost predicate Obeyed(strategy: Strategy, log: seq<Served>) {
    forall i | 0 <= i < |log| :: log[i].trace == strategy(i, log[i].unit, log[i].mode)
  }

  /** The byte stream to one server, at the granularity of messages. The
      server's n-th reply and the fate of the n-th await are arbitrary. */
  class Wire {
    const strategy: Strategy
    const schedule: nat -> Event
    const lastWords: LastWords
    var awaits: nat
    var writes: nat              // writes attempted
    var unread: seq<BackMsg>     // sent by the server, not yet read
    var mode: Mode               // after everything received so far
    var log: seq<Served>         // everything received so far
    var torn: bool               // stopped in the middle of a message

    ghost predicate Valid() {
      Conforming(strategy)
    }

    /** The server never fails fatally. */
    ghost predicate Survivable() {
      forall n, u, m :: Survives(strategy(n, u, m))
    }

    /** Since then only received more: a server that is gone stays so, and if it
        never fails fatally, one that was sent `whole` messages is still there. */
    ghost predicate WentOn(log: seq<Served>, mode: Mode, whole: bool)
      reads this`log, this`mode
    {
      && log <= this.log && (Obeyed(strategy, log) ==> Obeyed(strategy, this.log))
      && (mode == Dead ==> this.mode == Dead)
      && (Survivable() && whole && mode != Dead ==> this.mode != Dead)
    }

    /** No await from here on is interrupted. */
    ghost predicate Calm()
      reads this
    {
      forall k :: k >= awaits ==> schedule(k) == Proceed
    }

    constructor (strategy: Strategy, schedule: nat -> Event, lastWords: LastWords)
      requires Conforming(strategy)
      ensures Valid() && this.strategy == strategy && this.schedule == schedule
      ensures awaits == 0 && writes == 0 && unread == [] && mode == Normal && log == [] && !torn
    {
      this.strategy := strategy;
      this.schedule := schedule;
      this.lastWords := lastWords;
      awaits, writes, unread, mode, log, torn := 0, 0, [], Normal, [], false;
    }

    method Await() returns (e: Event)
      modifies this`awaits
      ensures awaits == old(awaits) + 1
      ensures old(Calm()) ==> e == Proceed && Calm()
    {
      e := schedule(awaits);
      awaits := awaits + 1;
    }

    /** Write units, then flush the socket. */
    method WriteAll(units: seq<Unit>) returns (r: Outcome<()>, ghost served: seq<Served>)
      requires Valid()
      modifies this
      ensures writes == old(writes) + 1 && awaits >= old(awaits)
      ensures log == old(log) + served && old(log) <= log
      ensures r.Done? || units == [] ==> unread == old(unread) + Flatten(served)
      ensures Chain(old(mode), served, mode) && (old(mode) == Dead ==> mode == Dead)
      ensures Survivable() ==> AllSurvive(served)
      ensures Survivable() ==> Survives(Flatten(served)) && (old(mode) != Dead ==> mode != Dead)
      ensures old(Obeyed(strategy, log)) ==> Obeyed(strategy, log)
      ensures Units(served) <= units
      ensures r.Done? ==> Units(served) == units && torn == old(torn)
      ensures r.Fail? ==> r.error == Io
      ensures old(Calm()) ==> r.Done? && Calm()
    {
      writes := writes + 1;
      var e := Await();
      if e != Proceed {
        served := Receive(units[..if e.delivered <= |units| then e.delivered else |units|]);
        if e.delivered < |units| {
          unread := unread + e.fragment;
        }
        torn := true;
        return if e.IoFailure? then Fail(Io) else Dropped, served;
      }
      served := Receive(units);
      e := Await();
      match e
      case Proceed => r := Done(());
      case IoFailure(_, _) => r := Fail(Io);
      case Abandoned(_, _) => r := Dropped;
    }

    /** Write units and an unfinished message behind them, then flush. What
        stands where its length should be is zero, and the server gives up. */
    method WriteUnfinished(units: seq<Unit>)
      returns (r: Outcome<()>, ghost served: seq<Served>, ghost mid: Mode, ghost words: LastWords)
      requires Valid()
      modifies this
      ensures log == old(log) + served && old(log) <= log
      ensures Units(served) <= units && Chain(old(mode), served, mid)
      ensures old(mode) == Dead ==> mode == Dead
      ensures r.Done? ==> mode == Dead && torn == old(torn) && unread == old(unread) + Flatten(served) + words
      ensures r.Fail? ==> r.error == Io
      ensures old(Obeyed(strategy, log)) ==> Obeyed(strategy, log)
      ensures old(Calm()) ==> r.Done? && Calm()
    {
      r, served := WriteAll(units);
      mid, words := mode, if mode == Dead then [] else lastWords;
      if r.Done? {
        unread := unread + if mode == Dead then [] else lastWords;
        mode := Dead;
      }
    }

    method Receive(units: seq<Unit>) returns (ghost served: seq<Served>)
      requires Valid()
      modifies this`unread, this`mode, this`log
      ensures log == old(log) + served && unread == old(unread) + Flatten(served)
      ensures Chain(old(mode), served, mode) && Units(served) == units && (old(mode) == Dead ==> mode == Dead)
      ensures Survivable() ==> AllSurvive(served)
      ensures Survivable() ==> Survives(Flatten(served)) && (old(mode) != Dead ==> mode != Dead)
      ensures old(Obeyed(strategy, log)) ==> Obeyed(strategy, log)
    {
      hide Conforms, NextMode, Flatten, Units, Chain;
      NothingYet(mode);
      served := [];
      for i := 0 to |units|
        invariant log == old(log) + served && unread == old(unread) + Flatten(served)
        invariant Chain(old(mode), served, mode) && Units(served) == units[..i]
        invariant Survivable() ==> AllSurvive(served)
        invariant Survivable() ==> Survives(Flatten(served)) && (old(mode) != Dead ==> mode != Dead)
        invariant old(Obeyed(strategy, log)) ==> Obeyed(strategy, log)
      {
        var s := Served(units[i], mode, strategy(|log|, units[i], mode));
        assert Conforms(mode, units[i], strategy(|log|, units[i], mode));
        ChainSnoc(old(mode), served, mode, s);
        FlattenSnoc(served, s);
        if Survives(s.trace) && mode != Dead {
          StaysAlive(mode, s.trace);
        }
        log, unread, mode := log + [s], unread + s.trace, NextMode(mode, s.trace);
        served := served + [s];
        assert units[..i + 1] == units[..i] + [units[i]];
      }
      assert units[..|units|] == units;
      if old(mode) == Dead {
        DeadForEver(served, mode);
      }
    }

    /** Read one message. With nothing to read the call blocks for ever, or
        meets the end of the stream if the server is gone. */
    method ReadMessage() returns (r: Outcome<BackMsg>)
      modifies this`awaits, this`unread, this`torn
      ensures awaits >= old(awaits)
      ensures r.Done? ==>
                old(unread) != [] && r.value == old(unread[0]) && unread == old(unread[1..]) && torn == old(torn)
      ensures !r.Done? ==> unread == old(unread)
      ensures r.Fail? ==> r.error == Io
      ensures old(Calm()) ==> Calm() && (old(unread) != [] ==> r.Done?)
    {
      var e := Await();
      if e != Proceed {
        torn := true;
        return if e.IoFailure? then Fail(Io) else Dropped;
      }
      if unread == [] {
        return if mode == Dead then Fail(Io) else Dropped;
      }
      r := Done(unread[0]);
      unread := unread[1..];
    }
  }
}
