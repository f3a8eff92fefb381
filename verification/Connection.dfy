/** A connection: three flags that must stay sound whichever await a caller
    never resumes, and the drivers that run one exchange each. */
module Connection {
  import opened Protocol
  import opened Server
  import opened Exchange
  import opened Machines
  import opened ExtendedQueries
  import opened SimpleQueries
  import opened BatchPrepares
  import opened Batches
  import opened Portals

  /** The callbacks of an execution, interrupted anywhere. */
  lemma AreOneResult(op: Operation, before: seq<Callback>, log: seq<Callback>, t: seq<BackMsg>)
    requires Rest(Opening([Op(op)]), t) && (op.Execute? || op.ExecuteSql?)
    requires before <= log <= before + Calls(true, [], t)
    ensures OneResult(log[|before|..])
    ensures log == before + Calls(true, [], t) ==>
              var cs := log[|before|..];
              && RowsIn(cs) == RowsOf(t) && (!HasError(t) && !HasEmpty(t) ==> Complete(cs))
              && Tells([], ResultMessages(t), cs)
  {
    assert Opening([Op(op)]).todo == [];
    hide Rest, Calls, RowsThenEnd, OneResult, RowsIn, RowsOf, HasError, HasEmpty, Complete, Tells, ResultMessages;
    CallsTell([], t);
    CallShape([], Opening([Op(op)]), t);
    assert log[|before|..] <= Calls(true, [], t);
    OnePrefix(log[|before|..], Calls(true, [], t));
  }

  /** A statement prepared without an error is what the server described. */
  lemma PreparedAsDescribed(op: Operation, idx: nat, served: seq<Served>, to: Mode)
    requires op.Prepare? && Units(served) == [Op(op), SyncPoint] && Chain(Normal, served, to)
    requires !HasError(Flatten(served))
    ensures var stmt := Learned(Some(PreparedStatement(idx, [], None)), Flatten(served));
            stmt.Some? && Describes(Flatten(served), stmt.value)
  {
    hide Chain, Flatten, Units, HasError, Reply, Next, Learned, Describes;
    var blank := PreparedStatement(idx, [], None);
    assert [Op(op), SyncPoint] == [Op(op)] + [SyncPoint];
    FirstUnit(served, Op(op), [SyncPoint]);
    FirstUnit(served[1..], SyncPoint, []);
    ChainHead(Normal, served, to);
    var t, rest := served[0].trace, Flatten(served[1..]);
    NoErrorIn(t, rest);
    ChainHead(Normal, served[1..], to);
    LearnsStatement(WantParse(ThenParameters), blank, t);
    SyncDescribesNothing(WantSync, rest);
    DescribesBoth(t, rest, Learned(Some(blank), t).value);
    LearnedConcat(Some(blank), t, rest);
    LearnsNothing(Learned(Some(blank), t).value, rest);
  }

  /** What executes a statement: prepared by this connection, or raw SQL. */
  function Execution(source: Source, params: nat): Operation {
    if source.Sql? then ExecuteSql(source.text, params) else Execute(source.name, params)
  }

  class Conn {
    const wire: Wire
    var writeBuffer: seq<Unit>
    var transactionStatus: TransactionStatus
    // set once, for good
    var isBroken: bool
    var exchangeInProgress: bool
    // a pipeline or a portal was not followed by its last ReadyForQuery yet
    var scopePending: bool
    var nameCounter: nat
    // the number of every ticket handed out: names executions, is never sent
    var tickets: seq<nat>

    constructor (wire: Wire)
      requires wire.Valid() && wire.log == [] && wire.unread == [] && wire.mode == Normal && !wire.torn
      ensures this.wire == wire && Valid() && !IsBroken() && writeBuffer == [] && nameCounter == 0
      ensures tickets == []
    {
      this.wire := wire;
      writeBuffer, transactionStatus, nameCounter, tickets := [], Idle, 0, [];
      isBroken, exchangeInProgress, scopePending := false, false, false;
    }

    predicate IsBroken()
      reads this
    {
      isBroken || exchangeInProgress || scopePending
    }

    /** An exchange may start or continue. */
    predicate Ready()
      reads this`isBroken, this`exchangeInProgress
    {
      !isBroken && !exchangeInProgress
    }

    /** Nothing the server sent is unread, the server executes what it is
        sent next, and the cached status is the one it last reported. */
    ghost predicate InStep()
      reads this`transactionStatus, wire
    {
      && !wire.torn && wire.unread == [] && wire.mode == Normal
      && transactionStatus == LastStatus(wire.log)
    }

    /** No desynchronisation: a connection that calls itself usable is in
        step with its server. */
    ghost predicate Valid()
      reads this, wire
    {
      wire.Valid() && (!IsBroken() ==> InStep())
    }

    function EnsureUsable(): Outcome<()>
      reads this
    {
      if IsBroken() then Fail(ConnectionBroken) else Done(())
    }

    function EnsureExchangeReady(): Outcome<()>
      reads this`isBroken, this`exchangeInProgress
    {
      if !Ready() then Fail(ConnectionBroken) else Done(())
    }

    method BeginExchange() returns (r: Outcome<()>)
      modifies this`exchangeInProgress
      ensures r == old(EnsureExchangeReady())
      ensures r.Done? ==> exchangeInProgress
      ensures !r.Done? ==> exchangeInProgress == old(exchangeInProgress)
    {
      var _ :- EnsureExchangeReady();
      exchangeInProgress := true;
      return Done(());
    }

    method FinishExchange()
      modifies this`exchangeInProgress
      ensures !exchangeInProgress
    {
      exchangeInProgress := false;
    }

    /** Between the exchanges of one scope: as `Valid`, except that the scope
        may still be open. */
    ghost predicate Continuable()
      reads this, wire
    {
      wire.Valid() && (Ready() ==> InStep())
    }

    /** Nothing interrupts the connection and the server never fails fatally. */
    ghost predicate Undisturbed()
      reads wire
    {
      wire.Calm() && wire.Survivable()
    }

    lemma BackInStep(before: seq<Served>, served: seq<Served>)
      requires wire.log == before + served && wire.unread == [] && !wire.torn && Concluded(served, wire.mode)
      requires var t := Flatten(served);
               t[|t| - 1].ReadyForQuery? && transactionStatus == StatusOf(t[|t| - 1].status)
      ensures InStep()
    {
    }

    // -- Drivers: one machine, one exchange

    /** Write a request and flush it. */
    method Ask(units: seq<Unit>) returns (r: Outcome<()>, ghost served: seq<Served>)
      requires wire.Valid() && InStep()
      modifies this`writeBuffer, wire
      ensures wire.log == old(wire.log) + served && wire.writes == old(wire.writes) + 1
      ensures Units(served) <= units && Chain(Normal, served, wire.mode)
      ensures r.Done? ==> wire.unread == Flatten(served) && Units(served) == units && !wire.torn
      ensures r.Fail? ==> r.error == Io
      ensures old(wire.Calm()) ==> wire.Calm() && r.Done?
      ensures wire.Survivable() ==> Survives(Flatten(served))
    {
      hide Chain, Units, Flatten, LastStatus;
      writeBuffer := units;
      r, served := wire.WriteAll(writeBuffer);
      assert [] + Flatten(served) == Flatten(served);
    }

    /** Write a request, flush it and read the first message of the answer. */
    method Request(units: seq<Unit>) returns (r: Outcome<BackMsg>, ghost served: seq<Served>)
      requires wire.Valid() && InStep()
      modifies this`writeBuffer, wire
      ensures wire.log == old(wire.log) + served && wire.writes == old(wire.writes) + 1
      ensures Units(served) <= units && Chain(Normal, served, wire.mode)
      ensures r.Done? ==> Flatten(served) == [r.value] + wire.unread && Units(served) == units && !wire.torn
      ensures r.Fail? ==> r.error == Io
      ensures old(wire.Calm()) ==> wire.Calm() && (Flatten(served) != [] ==> r.Done?)
      ensures old(wire.Calm()) ==> Units(served) == units
      ensures wire.Survivable() ==> Survives(Flatten(served))
    {
      hide Chain, Units, Flatten, LastStatus;
      var w;
      w, served := Ask(units);
      var _ :- w;
      r := wire.ReadMessage();
    }

    /** Drive the extended query machine from its first response on. */
    method FinishExtended(sm: ExtendedQuery, first: BackMsg, ghost t: seq<BackMsg>,
                          ghost calls: seq<Callback>, ghost stmt: Option<PreparedStatement>)
      returns (r: Outcome<()>)
      requires exchangeInProgress && !wire.torn && t == [first] + wire.unread
      requires sm.Runs(Opening([Op(sm.operation)]), t, t, calls, stmt)
      modifies this`transactionStatus, this`exchangeInProgress, wire`awaits, wire`unread, wire`torn, sm, sm.handler
      ensures r.Done? ==> !exchangeInProgress
      ensures sm.handler.log <= calls + Calls(!sm.operation.Prepare?, [], t)
      ensures old(sm.handler.log) <= sm.handler.log
      ensures old(wire.Calm()) && Survives(t) && sm.handler.Obliging() ==> !exchangeInProgress && wire.Calm()
      ensures !exchangeInProgress ==>
                && wire.unread == [] && !wire.torn
                && t[|t| - 1].ReadyForQuery? && transactionStatus == StatusOf(t[|t| - 1].status)
                && r == ErrorIn(t, Done(()))
                && sm.handler.log == calls + Calls(!sm.operation.Prepare?, [], t)
                && sm.preparedStmt == Learned(stmt, t)
    {
      hide Calls, Learned, ErrorIn, StatusOf, sm.Runs, Survives, sm.handler.Obliging, wire.Calm;
      var m := first;
      ghost var st, u := Opening([Op(sm.operation)]), t;
      while true
        invariant sm.Runs(st, u, t, calls, stmt) && u == [m] + wire.unread
        invariant old(sm.handler.log) <= sm.handler.log
        invariant exchangeInProgress && !wire.torn
        invariant old(wire.Calm()) ==> wire.Calm()
        invariant Survives(t) ==> Survives(u)
        decreases |wire.unread|
      {
        var action', st' := sm.Advance(m, st, u, t, calls, stmt);
        var action :- action';
        match action {
          case ReadMessage | HandleAsyncMessageAndReadMessage(_) =>
            m :- wire.ReadMessage();
            st, u := st', u[1..];
          case Report(error) =>
            transactionStatus := sm.transactionStatus;
            FinishExchange();
            return Fail(ServerFailure(error));
          case Finish =>
            FinishExchange();
            transactionStatus := sm.transactionStatus;
            return Done(());
          case WriteAndReadMessage => return Fail(LibraryBug("unexpected action"));
        }
      }
    }

    method DriveExtended(sm: ExtendedQuery) returns (r: Outcome<()>, ghost served: seq<Served>)
      requires Continuable() && Ready()
      requires sm.state.Initial? && sm.pendingError == None && sm.columnBuffer == []
      requires (sm.preparedStmt.Some? <==> sm.operation.Prepare?) && sm.request == [Op(sm.operation), SyncPoint]
      modifies this`writeBuffer, this`transactionStatus, this`exchangeInProgress, wire, sm, sm.handler
      ensures Continuable()
      ensures wire.log == old(wire.log) + served && wire.writes == old(wire.writes) + 1
      ensures old(sm.handler.log) <= sm.handler.log
      ensures sm.handler.log != old(sm.handler.log) ==>
                && Rest(Opening([Op(sm.operation)]), Flatten(served))
                && sm.handler.log <= old(sm.handler.log) + Calls(!sm.operation.Prepare?, [], Flatten(served))
      ensures r.Done? ==> Ready()
      ensures old(Undisturbed()) && sm.handler.Obliging() ==> Ready() && Undisturbed() && Survives(Flatten(served))
      ensures Ready() ==>
                && Units(served) == [Op(sm.operation), SyncPoint] && Chain(Normal, served, wire.mode)
                && Rest(Opening([Op(sm.operation)]), Flatten(served))
                && r == ErrorIn(Flatten(served), Done(()))
                && sm.handler.log == old(sm.handler.log) + Calls(!sm.operation.Prepare?, [], Flatten(served))
                && sm.preparedStmt == Learned(old(sm.preparedStmt), Flatten(served))
    {
      hide Calls, Learned, ErrorIn, Rest, StatusOf, Chain, Units, Flatten, Concluded, LastStatus, sm.Follows;
      hide Survives, sm.handler.Obliging, wire.Calm, wire.Survivable;
      served := [];
      assert wire.log + [] == wire.log;
      var _ := BeginExchange();  // succeeds: the caller has checked
      var _ := sm.Step(NoData, Stage(WantReady, []));  // asks to write the request
      var m;
      m, served := Request(sm.request);
      ghost var t := Flatten(served);
      if Units(served) == [Op(sm.operation), SyncPoint] {
        IsExchange([Op(sm.operation)], served, wire.mode);
      }
      var first :- m;
      sm.Starts(t);
      r := FinishExtended(sm, first, t, sm.handler.log, sm.preparedStmt);
      if !exchangeInProgress {
        BackInStep(old(wire.log), served);
      }
    }

    method FinishSimple(sm: SimpleQuery, first: BackMsg, ghost t: seq<BackMsg>, ghost calls: seq<Callback>)
      returns (r: Outcome<()>)
      requires exchangeInProgress && !wire.torn && t == [first] + wire.unread
      requires sm.Runs(Stage(QueryResponse, []), t, t, calls)
      modifies this`transactionStatus, this`exchangeInProgress, wire`awaits, wire`unread, wire`torn, sm, sm.handler
      ensures r.Done? ==> !exchangeInProgress
      ensures sm.before <= |sm.handler.log| && Results(sm.Made())
      ensures old(wire.Calm()) && Survives(t) && sm.handler.Obliging() ==> !exchangeInProgress && wire.Calm()
      ensures !exchangeInProgress ==>
                && wire.unread == [] && !wire.torn
                && t[|t| - 1].ReadyForQuery? && transactionStatus == StatusOf(t[|t| - 1].status)
                && r == ErrorIn(t, Done(()))
                && sm.handler.log == calls + Calls(true, [], t)
    {
      hide Calls, ErrorIn, StatusOf, Walk, Rest, Progresses, sm.Follows, Survives, sm.handler.Obliging, wire.Calm;
      var m := first;
      ghost var st, u := Stage(QueryResponse, []), t;
      while true
        invariant sm.Runs(st, u, t, calls) && u == [m] + wire.unread
        invariant exchangeInProgress && !wire.torn
        invariant old(wire.Calm()) ==> wire.Calm()
        invariant Survives(t) ==> Survives(u)
        decreases |wire.unread|
      {
        var action', st' := sm.Advance(m, st, u, t, calls);
        var action :- action';
        match action {
          case ReadMessage | HandleAsyncMessageAndReadMessage(_) =>
            m :- wire.ReadMessage();
            st, u := st', u[1..];
          case Report(error) =>
            transactionStatus := sm.transactionStatus;
            FinishExchange();
            return Fail(ServerFailure(error));
          case Finish =>
            FinishExchange();
            transactionStatus := sm.transactionStatus;
            return Done(());
          case WriteAndReadMessage => return Fail(LibraryBug("unexpected action"));
        }
      }
    }

    method DriveSimple(sm: SimpleQuery) returns (r: Outcome<()>, ghost served: seq<Served>)
      requires Continuable() && Ready()
      requires sm.state.Initial? && sm.pendingError == None && sm.columnBuffer == [] && sm.Shaped()
      modifies this`writeBuffer, this`transactionStatus, this`exchangeInProgress, wire, sm, sm.handler
      ensures Continuable()
      ensures wire.log == old(wire.log) + served && wire.writes == old(wire.writes) + 1
      ensures sm.before <= |sm.handler.log| && Results(sm.Made())
      ensures r.Done? ==> Ready()
      ensures old(Undisturbed()) && sm.handler.Obliging() ==> Ready() && Undisturbed() && Survives(Flatten(served))
      ensures Ready() ==>
                && Units(served) == [Unit.SimpleQuery(sm.query)] && r == ErrorIn(Flatten(served), Done(()))
                && sm.handler.log == old(sm.handler.log) + Calls(true, [], Flatten(served))
    {
      hide Calls, ErrorIn, Rest, StatusOf, Chain, Units, Flatten, Concluded, LastStatus, sm.Follows, Walk;
      hide Survives, sm.handler.Obliging, wire.Calm, wire.Survivable;
      served := [];
      assert wire.log + [] == wire.log;
      var _ := BeginExchange();  // succeeds: the caller has checked
      var _ := sm.Step(NoData, Stage(WantReady, []));  // asks to write the request
      var m;
      m, served := Request([Unit.SimpleQuery(sm.query)]);
      ghost var t := Flatten(served);
      if Units(served) == [Unit.SimpleQuery(sm.query)] {
        JustQuery(sm.query, served, wire.mode);
      }
      var first :- m;
      sm.Starts(t);
      r := FinishSimple(sm, first, t, sm.handler.log);
      if !exchangeInProgress {
        BackInStep(old(wire.log), served);
      }
    }

    /** Mark the connection unusable after an error that is not known to be
        safe. */
    method Settle<T>(r: Outcome<T>)
      modifies this`isBroken
      ensures isBroken == (old(isBroken) || (r.Fail? && r.error.IsConnectionBroken()))
    {
      if r.Fail? && r.error.IsConnectionBroken() {
        isBroken := true;
      }
    }

    // -- Public operations

    /** A simple query. Whatever happens, the handler has seen whole results or
        a prefix of them; if the connection is still usable, exactly those the
        server sent, and the outcome is an error iff the server reported one. */
    method Query(sql: string, handler: Recorder) returns (r: Outcome<()>, ghost served: seq<Served>)
      requires Valid()
      modifies this, wire, handler
      ensures tickets == old(tickets)
      ensures Valid() && scopePending == old(scopePending) && nameCounter == old(nameCounter)
      ensures old(IsBroken()) ==> r == Fail(ConnectionBroken) && unchanged(this, wire, handler)
      ensures wire.log == old(wire.log) + served
      ensures r.Done? ==> !IsBroken()
      ensures old(!IsBroken() && Undisturbed()) && handler.Obliging() ==> !IsBroken() && Undisturbed()
      ensures |old(handler.log)| <= |handler.log| && Results(handler.log[|old(handler.log)|..])
      ensures !IsBroken() ==>
                && Units(served) == [Unit.SimpleQuery(sql)] && (r.Done? <==> !HasError(Flatten(served)))
                && r == ErrorIn(Flatten(served), Done(())) && old(handler.log) <= handler.log
                && Tells([], ResultMessages(Flatten(served)), handler.log[|old(handler.log)|..])
    {
      hide Calls, ErrorIn, Chain, Units, Flatten, HasError, LastStatus, Conforming, Survives, handler.Obliging;
      hide Undisturbed, Tells, ResultMessages;
      served := [];
      assert wire.log + [] == wire.log && handler.log[|handler.log|..] == [];
      var _ :- EnsureUsable();
      var sm := new SimpleQuery(handler, sql);
      r, served := DriveSimple(sm);
      Settle(r);
      ErrorIff(Flatten(served), Done(()));
      if !IsBroken() {
        CallsTell([], Flatten(served));
        assert handler.log[|old(handler.log)|..] == Calls(true, [], Flatten(served));
      }
    }

    /** Execute a statement, prepared or raw. */
    method Exec(source: Source, params: nat, encodes: bool, handler: Recorder)
      returns (r: Outcome<()>, ghost served: seq<Served>)
      requires Valid()
      modifies this, wire, handler
      ensures tickets == old(tickets)
      ensures Valid() && scopePending == old(scopePending) && nameCounter == old(nameCounter)
      ensures old(IsBroken()) ==> r == Fail(ConnectionBroken) && unchanged(this, wire, handler)
      ensures old(!IsBroken()) && !encodes ==> r == Fail(Encode) && unchanged(this, wire, handler)
      ensures wire.log == old(wire.log) + served
      ensures r.Done? ==> !IsBroken()
      ensures old(!IsBroken() && Undisturbed()) && handler.Obliging() ==> !IsBroken() && Undisturbed()
      ensures old(handler.log) <= handler.log && OneResult(handler.log[|old(handler.log)|..])
      ensures !IsBroken() && encodes ==>
                var t := Flatten(served);
                var cs := handler.log[|old(handler.log)|..];
                && Units(served) == [if source.Sql? then Op(ExecuteSql(source.text, params))
                                     else Op(Execute(source.name, params)), SyncPoint]
                && (r.Done? <==> !HasError(t)) && r == ErrorIn(t, Done(()))
                && RowsIn(cs) == RowsOf(t) && (r.Done? && !HasEmpty(t) ==> Complete(cs))
                && Tells([], ResultMessages(t), cs)
    {
      hide Calls, ErrorIn, Rest, Chain, Units, Flatten, HasError, HasEmpty, LastStatus, Conforming, RowsThenEnd;
      hide RowsOf, RowsIn, Tells, ResultMessages;
      hide Survives, handler.Obliging, Undisturbed;
      served := [];
      assert wire.log + [] == wire.log && handler.log[|handler.log|..] == [];
      var _ :- EnsureUsable();
      if !encodes {
        return Fail(Encode), served;
      }
      var op := Execution(source, params);
      var sm := new ExtendedQuery(op, 0, handler);
      r, served := DriveExtended(sm);
      Settle(r);
      ErrorIff(Flatten(served), Done(()));
      ghost var t := Flatten(served);
      if Ready() || handler.log != old(handler.log) {
        AreOneResult(op, old(handler.log), handler.log, t);
      }
    }

    /** Prepare a statement under a fresh number. */
    method Prepare(text: string, types: seq<nat>) returns (r: Outcome<PreparedStatement>, ghost served: seq<Served>)
      requires Valid()
      modifies this, wire
      ensures tickets == old(tickets)
      ensures Valid() && scopePending == old(scopePending)
      ensures old(IsBroken()) ==> r == Fail(ConnectionBroken) && unchanged(this, wire)
      ensures old(!IsBroken()) ==> nameCounter == old(nameCounter) + 1
      ensures wire.log == old(wire.log) + served
      ensures r.Done? ==> !IsBroken() && r.value.idx == nameCounter
      ensures old(!IsBroken() && Undisturbed()) ==> !IsBroken() && Undisturbed()
      ensures !IsBroken() ==>
                var t := Flatten(served);
                && Units(served) == [Op(Operation.Prepare(WireName(nameCounter), text, types)), SyncPoint]
                && (r.Done? <==> !HasError(t)) && (r.Fail? ==> r.error.ServerFailure?)
                && (r.Done? ==> Describes(t, r.value))
    {
      hide ErrorIn, Rest, Chain, Units, Flatten, HasError, LastStatus, Conforming, Learned, Survives, Undisturbed;
      hide Describes;
      served := [];
      assert wire.log + [] == wire.log;
      var _ :- EnsureUsable();
      nameCounter := nameCounter + 1;
      var handler := new Recorder(_ => Done(()));
      var sm := new ExtendedQuery(Operation.Prepare(WireName(nameCounter), text, types), nameCounter, handler);
      var driven;
      driven, served := DriveExtended(sm);
      Settle(driven);
      ErrorIff(Flatten(served), Done(()));
      var _ :- driven;
      LearnedIdx(Some(PreparedStatement(nameCounter, [], None)), Flatten(served));
      PreparedAsDescribed(sm.operation, nameCounter, served, wire.mode);
      r := if sm.preparedStmt.Some? then Done(sm.preparedStmt.value) else Fail(LibraryBug("no prepared statement"));
    }

    method CloseStatement(stmt: PreparedStatement) returns (r: Outcome<()>, ghost served: seq<Served>)
      requires Valid()
      modifies this, wire
      ensures tickets == old(tickets)
      ensures Valid() && scopePending == old(scopePending) && nameCounter == old(nameCounter)
      ensures old(IsBroken()) ==> r == Fail(ConnectionBroken) && unchanged(this, wire)
      ensures wire.log == old(wire.log) + served
      ensures r.Done? ==> !IsBroken()
      ensures old(!IsBroken() && Undisturbed()) ==> !IsBroken() && Undisturbed()
      ensures !IsBroken() ==>
                && Units(served) == [Op(Operation.CloseStatement(WireName(stmt.idx))), SyncPoint]
                && (r.Done? <==> !HasError(Flatten(served))) && r == ErrorIn(Flatten(served), Done(()))
    {
      hide ErrorIn, Rest, Chain, Units, Flatten, HasError, LastStatus, Conforming, Learned, Survives, Undisturbed;
      served := [];
      assert wire.log + [] == wire.log;
      var _ :- EnsureUsable();
      var handler := new Recorder(_ => Done(()));
      var sm := new ExtendedQuery(Operation.CloseStatement(WireName(stmt.idx)), 0, handler);
      r, served := DriveExtended(sm);
      Settle(r);
      ErrorIff(Flatten(served), Done(()));
    }

    method FinishPrepares(sm: BatchPrepare, first: BackMsg, ghost start: Stage, ghost t: seq<BackMsg>,
                          ghost before: Slots)
      returns (r: Outcome<()>)
      requires exchangeInProgress && !wire.torn && t == [first] + wire.unread && sm.Runs(start, t, t, before)
      modifies this`transactionStatus, this`exchangeInProgress, wire`awaits, wire`unread, wire`torn, sm
      ensures r.Done? <==> !exchangeInProgress
      ensures r.Fail? && r.error.ServerFailure? ==> HasError(t)
      ensures old(wire.Calm()) && !HasError(t) ==> r.Done? && wire.Calm()
      ensures r.Done? ==>
                && wire.unread == [] && !wire.torn
                && t[|t| - 1].ReadyForQuery? && transactionStatus == StatusOf(t[|t| - 1].status)
                && Slots(sm.statements, sm.currentStmt) == Filled(before, t) && !HasError(t)
    {
      hide Filled, HasError, StatusOf, sm.Runs, wire.Calm;
      var m := first;
      ghost var st, u := start, t;
      while true
        invariant sm.Runs(st, u, t, before) && u == [m] + wire.unread
        invariant exchangeInProgress && !wire.torn
        invariant old(wire.Calm()) ==> wire.Calm()
        decreases |wire.unread|
      {
        var action', st' := sm.Advance(m, st, u, t, before);
        var action :- action';
        if action == Finish {
          FinishExchange();
          transactionStatus := sm.transactionStatus;
          return Done(());
        }
        m :- wire.ReadMessage();
        st, u := st', u[1..];
      }
    }

    /** Prepare several statements in one round trip. On success the i-th
        statement is numbered and described after the i-th query; a server
        error ends the connection, as its exchange is left unfinished. */
    method PrepareBatch(texts: seq<string>) returns (r: Outcome<seq<PreparedStatement>>, ghost served: seq<Served>)
      requires Valid()
      modifies this, wire
      ensures tickets == old(tickets)
      ensures Valid() && scopePending == old(scopePending)
      ensures old(IsBroken()) ==> r == Fail(ConnectionBroken) && unchanged(this, wire)
      ensures old(!IsBroken()) ==> nameCounter == old(nameCounter) + |texts|
      ensures old(!IsBroken()) && texts == [] ==> r == Done([]) && unchanged(this, wire)
      ensures wire.log == old(wire.log) + served
      ensures old(!IsBroken()) ==> (r.Done? <==> !IsBroken())
      ensures r.Fail? && r.error.ServerFailure? ==> HasError(Flatten(served))
      ensures old(!IsBroken() && wire.Calm()) && !HasError(Flatten(served)) ==> r.Done?
      ensures r.Done? && texts != [] ==>
                && Units(served) == Parses(old(nameCounter) + 1, texts) + [SyncPoint] && !HasError(Flatten(served))
                && |r.value| == |texts| <= |served|
                && forall i | 0 <= i < |texts| ::
                     r.value[i].idx == old(nameCounter) + 1 + i && Describes(served[i].trace, r.value[i])
    {
      hide Rest, Chain, Units, Flatten, HasError, LastStatus, Conforming, Learned, Parses, Filled, Positional;
      hide Blank, Concluded, StatusOf, Describes;
      served := [];
      assert wire.log + [] == wire.log;
      var _ :- EnsureUsable();
      if texts == [] {
        return Done([]), served;
      }
      var startIdx := nameCounter + 1;
      nameCounter := nameCounter + |texts|;
      var driven;
      driven, r, served := PrepareBatchInner(texts, startIdx);
      Settle(driven);
      if r.Done? {
        Consecutive(r.value, startIdx, served);
      }
    }

    method PrepareBatchInner(texts: seq<string>, startIdx: nat)
      returns (driven: Outcome<()>, r: Outcome<seq<PreparedStatement>>, ghost served: seq<Served>)
      requires Continuable() && Ready() && texts != []
      modifies this`writeBuffer, this`transactionStatus, this`exchangeInProgress, wire
      ensures Continuable()
      ensures wire.log == old(wire.log) + served
      ensures driven.Done? <==> Ready()
      ensures if driven.Done? then r.Done? else r == driven.PropagateFailure<seq<PreparedStatement>>()
      ensures r.Fail? && r.error.ServerFailure? ==> HasError(Flatten(served))
      ensures old(wire.Calm()) && !HasError(Flatten(served)) ==> r.Done?
      ensures r.Done? ==>
                && Units(served) == Parses(startIdx, texts) + [SyncPoint] && !HasError(Flatten(served))
                && |r.value| == |texts| && Positional(r.value, startIdx, served)
                && |texts| <= |served| && (forall i | 0 <= i < |texts| :: Describes(served[i].trace, r.value[i]))
    {
      hide Rest, Chain, Units, Flatten, HasError, LastStatus, Learned, Filled, Positional, Concluded, StatusOf;
      hide Blank, Parses, Plain, Opening, AllPrepare, Start, wire.Calm, Describes;
      served := [];
      assert wire.log + [] == wire.log;
      PreparesOpen(startIdx, texts);
      var sm := new BatchPrepare(texts, startIdx);
      var _ := BeginExchange();  // succeeds: the caller has checked
      ghost var st := Opening(Parses(startIdx, texts));
      var _ := sm.Step(NoData, st);  // asks to write the request
      var m;
      m, served := Request(sm.request);
      ghost var t := Flatten(served);
      if Units(served) == sm.request {
        IsExchange(Parses(startIdx, texts), served, wire.mode);
      }
      if !m.Done? {
        driven, r := m.PropagateFailure(), m.PropagateFailure();
        return;
      }
      ghost var blank := Slots(Blank(startIdx, |texts|), 0);
      assert sm.Follows(st);
      driven := FinishPrepares(sm, m.value, st, t, blank);
      if !driven.Done? {
        r := driven.PropagateFailure();
        return;
      }
      r := Done(sm.statements);
      BackInStep(old(wire.log), served);
      FilledFromBlank(startIdx, texts, served, wire.mode);
      DescribedInOrder(r.value, startIdx, texts, served, wire.mode);
    }

    method FinishBatch(sm: Batch, first: BackMsg, ghost start: Stage, ghost t: seq<BackMsg>)
      returns (r: Outcome<()>)
      requires exchangeInProgress && !wire.torn && t == [first] + wire.unread && sm.Runs(start, t, t)
      modifies this`transactionStatus, this`exchangeInProgress, wire`awaits, wire`unread, wire`torn, sm
      ensures !exchangeInProgress <==> r.Done? || (r.Fail? && r.error.ServerFailure?)
      ensures r.Fail? ==> r.error.ServerFailure? || r.error == Io
      ensures old(wire.Calm()) && Survives(t) ==> !exchangeInProgress && wire.Calm()
      ensures !exchangeInProgress ==>
                && wire.unread == [] && !wire.torn
                && t[|t| - 1].ReadyForQuery? && transactionStatus == StatusOf(t[|t| - 1].status)
                && r == ErrorIn(t, Done(()))
    {
      hide ErrorIn, StatusOf, sm.Runs, Survives, wire.Calm;
      var m := first;
      ghost var st, u := start, t;
      while true
        invariant sm.Runs(st, u, t) && u == [m] + wire.unread
        invariant exchangeInProgress && !wire.torn
        invariant old(wire.Calm()) ==> wire.Calm()
        invariant Survives(t) ==> Survives(u)
        decreases |wire.unread|
      {
        var action, st' := sm.Advance(m, st, u, t);
        match action.value {
          case ReadMessage =>
            m :- wire.ReadMessage();
            st, u := st', u[1..];
          case Report(error) =>
            transactionStatus := sm.transactionStatus;
            FinishExchange();
            return Fail(ServerFailure(error));
          case Finish =>
            FinishExchange();
            transactionStatus := sm.transactionStatus;
            return Done(());
        }
      }
    }

    /** Send one chunk and drive it to its end. */
    method DriveBatch(source: Source, chunk: seq<nat>) returns (r: Outcome<()>, ghost served: seq<Served>)
      requires Continuable() && Ready() && chunk != []
      requires writeBuffer == Chunk(source, chunk) + [SyncPoint]
      modifies this`writeBuffer, this`transactionStatus, this`exchangeInProgress, wire
      ensures Continuable()
      ensures wire.log == old(wire.log) + served
      ensures Units(served) <= Chunk(source, chunk) + [SyncPoint] && Chain(Normal, served, wire.mode)
      ensures Ready() <==> r.Done? || (r.Fail? && r.error.ServerFailure?)
      ensures r.Fail? ==> r.error.ServerFailure? || r.error == Io
      ensures old(Undisturbed()) ==> Ready() && Undisturbed() && Survives(Flatten(served))
      ensures Ready() ==>
                Units(served) == Chunk(source, chunk) + [SyncPoint] && r == ErrorIn(Flatten(served), Done(()))
    {
      hide Rest, Chain, Units, Flatten, LastStatus, ErrorIn, Concluded, StatusOf, Chunk;
      hide Survives, wire.Calm, wire.Survivable;
      var sm := new Batch(source.Sql?);
      var _ := BeginExchange();  // succeeds: the caller has checked
      PlainChunk(source, chunk);
      ghost var st := Opening(Chunk(source, chunk));
      var _ := sm.Step(NoData, st);  // asks to write the request
      var m;
      m, served := Request(writeBuffer);
      ghost var t := Flatten(served);
      if Units(served) == Chunk(source, chunk) + [SyncPoint] {
        IsExchange(Chunk(source, chunk), served, wire.mode);
      }
      var first :- m;
      r := FinishBatch(sm, first, st, t);
      if !exchangeInProgress {
        BackInStep(old(wire.log), served);
      }
    }

    /** Fill the write buffer with one chunk and its Sync. Parameters that do
        not encode leave the chunk unsent. */
    method WriteChunk(source: Source, chunk: seq<nat>, encodes: nat -> bool) returns (r: Outcome<()>)
      modifies this`writeBuffer
      ensures r == if AllEncode(encodes, chunk) then Done(()) else Fail(Encode)
      ensures r.Done? ==> writeBuffer == Chunk(source, chunk) + [SyncPoint]
    {
      writeBuffer := [];
      if source.Sql? {
        writeBuffer := writeBuffer + [ParseOnly(source.text)];
      }
      for i := 0 to |chunk|
        invariant AllEncode(encodes, chunk[..i]) && writeBuffer == Chunk(source, chunk[..i])
      {
        if !encodes(chunk[i]) {
          return Fail(Encode);
        }
        assert chunk[..i + 1] == chunk[..i] + [chunk[i]];
        writeBuffer := writeBuffer + [Apply(source, chunk[i])];
        assert Applies(source, chunk[..i + 1]) == Applies(source, chunk[..i]) + [Apply(source, chunk[i])];
      }
      assert chunk[..|chunk|] == chunk;
      writeBuffer := writeBuffer + [SyncPoint];
      return Done(());
    }

    /** Execute a statement with many parameter sets, chunk by chunk. However it
        ends, the first `k` chunks took effect, each parameter set once and in
        order, and nothing else did: all of them on success; on an encoding or a
        server error those before the chunk that caused it; after an interruption
        still a whole number of chunks. */
    method ExecBatch(source: Source, params: seq<nat>, chunkSize: nat, encodes: nat -> bool)
      returns (r: Outcome<()>, ghost served: seq<Served>, ghost k: nat)
      requires Valid()
      modifies this, wire
      ensures tickets == old(tickets)
      ensures Valid() && scopePending == old(scopePending) && nameCounter == old(nameCounter)
      ensures old(IsBroken()) ==> r == Fail(ConnectionBroken) && unchanged(this, wire)
      ensures wire.log == old(wire.log) + served
      ensures r.Done? ==> !IsBroken()
      ensures old(!IsBroken() && Undisturbed()) ==> !IsBroken() && Undisturbed()
      ensures var c := if chunkSize == 0 then 1 else chunkSize;
              && Durable(served) == params[..Covered(k, c, |params|)]
              && (old(!IsBroken()) && r.Done? ==> Durable(served) == params && AllEncode(encodes, params))
              && (r.Fail? && (r.error.Encode? || r.error.ServerFailure?) ==>
                    CausedBy(encodes, params, c, k, r.error.ServerFailure?) && !exchangeInProgress)
      ensures var units := Batched(source, params, if chunkSize == 0 then 1 else chunkSize);
              Units(served) <= units && (old(!IsBroken()) && r.Done? ==> Units(served) == units)
      ensures r.Done? || (r.Fail? && r.error.Encode?) ==> !HasError(Flatten(served))
      ensures r.Fail? && r.error.ServerFailure? ==> HasError(Flatten(served))
      ensures old(!IsBroken() && Undisturbed()) ==>
                !r.Dropped? && (r.Done? <==> AllEncode(encodes, params) && !HasError(Flatten(served)))
    {
      assert !HasError(Flatten([]));
      var c := if chunkSize > 0 then chunkSize else 1;
      served, k := [], 0;
      assert wire.log + [] == wire.log && Durable([]) == [] && params[..0] == [];
      var _ :- EnsureUsable();
      r, served, k := ExecBatchInner(source, params, c, encodes);
      Settle(r);
    }

    /** One chunk, after the chunks answered by `before` made `done` durable. */
    method RunChunk(source: Source, chunk: seq<nat>, encodes: nat -> bool,
                    ghost before: seq<Served>, ghost done: seq<nat>)
      returns (r: Outcome<()>, ghost s: seq<Served>)
      requires Continuable() && Ready() && chunk != [] && Effect(NOTHING, before) == Effects(done, [], false)
      modifies this`writeBuffer, this`transactionStatus, this`exchangeInProgress, wire
      ensures Continuable() && wire.log == old(wire.log) + s
      ensures Units(s) <= Chunk(source, chunk) + [SyncPoint]
      ensures r.Done? ==> Units(s) == Chunk(source, chunk) + [SyncPoint]
      ensures r.Done? ==>
                && Ready() && AllEncode(encodes, chunk)
                && Effect(NOTHING, before + s) == Effects(done + chunk, [], false)
      ensures r.Done? || (r.Fail? && r.error.Encode?) ==> (HasError(Flatten(before + s)) <==> HasError(Flatten(before)))
      ensures Durable(before + s) == done || Durable(before + s) == done + chunk
      ensures old(Undisturbed()) ==>
                && Ready() && Undisturbed()
                && !r.Dropped?
                && (r.Fail? ==> !r.error.IsConnectionBroken() && (r.error.Encode? || r.error.ServerFailure?))
      ensures r.Fail? && (r.error.Encode? || r.error.ServerFailure?) ==>
                && Durable(before + s) == done && Ready()
                && (AllEncode(encodes, chunk) <==> r.error.ServerFailure?)
                && (r.error.ServerFailure? ==> HasError(Flatten(before + s)))
    {
      hide Chain, Units, Flatten, HasError, LastStatus, ErrorIn, Concluded, Chunk, Effect, AllEncode, Survives;
      hide Undisturbed;
      s := [];
      NothingYet(Normal);
      assert wire.log + [] == wire.log && before + [] == before;
      var _ :- WriteChunk(source, chunk, encodes);
      r, s := DriveBatch(source, chunk);
      ErrorIff(Flatten(s), Done(()));
      ChunkOutcome(done, source, chunk, s, wire.mode);
      EffectConcat(NOTHING, before, s);
      FlattenConcat(before, s);
      ErrorInEither(Flatten(before), Flatten(s));
    }

    method ExecBatchInner(source: Source, params: seq<nat>, c: nat, encodes: nat -> bool)
      returns (r: Outcome<()>, ghost served: seq<Served>, ghost k: nat)
      requires Continuable() && Ready() && c > 0
      modifies this`writeBuffer, this`transactionStatus, this`exchangeInProgress, wire
      ensures Continuable()
      ensures wire.log == old(wire.log) + served
      ensures Durable(served) == params[..Covered(k, c, |params|)]
      ensures Units(served) <= Batched(source, params, c)
      ensures r.Done? ==> Units(served) == Batched(source, params, c)
      ensures r.Done? ==> Ready() && Durable(served) == params && AllEncode(encodes, params)
      ensures r.Fail? && (r.error.Encode? || r.error.ServerFailure?) ==>
                CausedBy(encodes, params, c, k, r.error.ServerFailure?) && Ready()
      ensures old(Undisturbed()) ==>
                && Ready() && Undisturbed()
                && !r.Dropped?
                && (r.Fail? ==> !r.error.IsConnectionBroken() && (r.error.Encode? || r.error.ServerFailure?))
      ensures r.Fail? && r.error.Encode? ==> !AllEncode(encodes, params)
      ensures r.Done? || (r.Fail? && r.error.Encode?) ==> !HasError(Flatten(served))
      ensures r.Fail? && r.error.ServerFailure? ==> HasError(Flatten(served))
    {
      hide Flatten, HasError, LastStatus, Chunk, Effect, InStep, Conforming, Covered, NextBound, AllEncode, Undisturbed;
      hide Reply, Next, Continuable, Error.IsConnectionBroken, Units, Batched, SentUpTo, CausedBy, ChunkAt;
      served, k := [], 0;
      BatchBegins(encodes, params, c, wire.log);
      NothingSent(source, params, c);
      var done := 0;
      while done < |params|
        invariant done == Covered(k, c, |params|)
        invariant Continuable() && Ready() && wire.log == old(wire.log) + served
        invariant Effect(NOTHING, served) == Effects(params[..done], [], false)
        invariant SentUpTo(source, params, c, done, served)
        invariant AllEncode(encodes, params[..done]) && !HasError(Flatten(served))
        invariant old(Undisturbed()) ==> Undisturbed()
        decreases |params| - done
      {
        var next := if done + c < |params| then done + c else |params|;
        var chunk := params[done..next];
        NextChunk(k, c, |params|);
        AllEncodePart(encodes, params, done, next);
        ghost var s;
        r, s := RunChunk(source, chunk, encodes, served, params[..done]);
        assert params[..done] + chunk == params[..next];
        Regrouped(old(wire.log), served, s);
        BatchedOn(source, params, c, done, next, served, s);
        served := served + s;
        if !r.Done? {
          assert |params[..done]| < |params[..next]|;
          if Durable(served) == params[..next] {
            k := k + 1;
          } else {
            ChunkCaused(encodes, params, c, k, done, next);
          }
          return;
        }
        AllEncodeConcat(encodes, params[..done], chunk);
        k, done := k + 1, next;
      }
      assert params[..|params|] == params;
      AllSent(source, params, c, served);
      return Done(()), served, k;
    }

    // -- The low-level protocol: one unit at a time, with Sync apart

    lemma StillInStep(before: seq<Served>, u: Unit, served: seq<Served>)
      requires wire.log == before + served && Units(served) == [u] && Chain(Normal, served, wire.mode)
      requires wire.unread == [] && !wire.torn && transactionStatus == LastStatus(before)
      requires var t := Flatten(served); t != [] && !t[|t| - 1].ErrorResponse? && !t[|t| - 1].ReadyForQuery?
      ensures InStep()
    {
      hide Reply, Next, Chain, Units, Flatten, LastStatus, NextMode;
      FirstUnit(served, u, []);
      JustOne(u, served, wire.mode);
      StaysNormal(Flatten(served));
      StatusKept(before, served[0]);
    }

    method LowlevelFlush() returns (r: Outcome<()>)
      requires Valid()
      modifies this, wire
      ensures tickets == old(tickets)
      ensures Valid() && scopePending == old(scopePending) && nameCounter == old(nameCounter)
      ensures old(IsBroken()) ==> r == Fail(ConnectionBroken) && unchanged(this, wire)
      ensures wire.log == old(wire.log) && wire.unread == old(wire.unread)
      ensures old(!IsBroken()) ==> wire.writes == old(wire.writes) + 1
      ensures old(!IsBroken() && wire.Calm()) ==> r.Done? && wire.Calm()
      ensures old(!IsBroken()) ==> (r.Done? <==> !IsBroken())
    {
      var _ :- EnsureUsable();
      writeBuffer := [];  // a Flush is no unit
      var _ := BeginExchange();  // succeeds: just checked
      var w, served := wire.WriteAll(writeBuffer);
      assert served == [] && old(wire.log) + served == old(wire.log);
      var _ :- w;
      FinishExchange();
      return Done(());
    }

    /** Wait for the ReadyForQuery that answers a Sync. */
    method FinishSync(ghost t: seq<BackMsg>) returns (r: Outcome<()>)
      requires exchangeInProgress && !wire.torn && wire.unread == t && Rest(Stage(WantSync, []), t)
      modifies this`transactionStatus, this`exchangeInProgress, this`isBroken, wire`awaits, wire`unread, wire`torn
      ensures r.Done? ==> !exchangeInProgress
      ensures old(wire.Calm()) && Survives(t) ==> !exchangeInProgress && wire.Calm()
      ensures !exchangeInProgress ==>
                && wire.unread == [] && !wire.torn && isBroken == old(isBroken)
                && t[|t| - 1].ReadyForQuery? && transactionStatus == StatusOf(t[|t| - 1].status)
                && r == ErrorIn(t, Done(()))
    {
      hide ErrorIn, Rest, StatusOf, HasError, HasEmpty, Progresses, Survives, wire.Calm;
      var pending: Outcome<()> := Done(());
      ghost var st := Stage(WantSync, []);
      while true
        invariant exchangeInProgress && !wire.torn && isBroken == old(isBroken)
        invariant wire.unread != [] ==>
                    && Rest(st, wire.unread) && st.todo == [] && (st.ph.WantSync? || st.ph.WantReady?)
                    && ErrorIn(wire.unread, pending) == ErrorIn(t, Done(()))
                    && wire.unread[|wire.unread| - 1] == t[|t| - 1]
        invariant !pending.Dropped?
        invariant old(wire.Calm()) ==> wire.Calm()
        invariant Survives(t) ==> wire.unread != [] && Survives(wire.unread)
        decreases |wire.unread|
      {
        if wire.unread != [] {
          Head(st, wire.unread);
          SyncStep(st, wire.unread[0]);
          UnfoldError(wire.unread, pending);
        }
        var m :- wire.ReadMessage();
        match m {
          case Async(_) =>
            continue;
          case ReadyForQuery(status) =>
            transactionStatus := StatusOf(status);
            FinishExchange();
            return pending;
          case ErrorResponse(error) =>
            if ServerFailure(error).IsConnectionBroken() {
              isBroken := true;
              return Fail(ServerFailure(error));
            }
            pending := Fail(ServerFailure(error));
            st := Stage(WantReady, []);
        }
      }
    }

    /** Send a Sync and wait for ReadyForQuery; an error on the way is raised
        once it came. */
    method LowlevelSyncInner() returns (r: Outcome<()>, ghost served: seq<Served>)
      requires Continuable()
      modifies this`writeBuffer, this`transactionStatus, this`exchangeInProgress, this`isBroken, wire
      ensures Continuable()
      ensures wire.log == old(wire.log) + served
      ensures old(!Ready()) ==>
                && r == Fail(ConnectionBroken) && unchanged(wire)
                && isBroken == old(isBroken) && exchangeInProgress == old(exchangeInProgress)
      ensures r.Done? ==> Ready()
      ensures old(Ready() && wire.Calm()) && Survives(Flatten(served)) ==> Ready() && wire.Calm()
      ensures wire.Survivable() ==> Survives(Flatten(served))
      ensures Ready() ==>
                && Units(served) == [SyncPoint] && (r.Done? <==> !HasError(Flatten(served)))
                && r == ErrorIn(Flatten(served), Done(())) && RowsOf(Flatten(served)) == []
    {
      assert Survives(Flatten([]));
      hide ErrorIn, Rest, StatusOf, Chain, Units, Flatten, Concluded, LastStatus, HasError, Conforming, RowsOf, Reply;
      hide Survives, wire.Calm, wire.Survivable;
      served := [];
      assert wire.log + [] == wire.log;
      var _ :- BeginExchange();
      var w;
      w, served := Ask([SyncPoint]);
      var _ :- w;
      ghost var t := Flatten(served);
      OnlySync(served, wire.mode);
      r := FinishSync(t);
      if !exchangeInProgress {
        BackInStep(old(wire.log), served);
      }
    }

    method LowlevelSync() returns (r: Outcome<()>, ghost served: seq<Served>)
      requires Valid()
      modifies this, wire
      ensures tickets == old(tickets)
      ensures Valid() && scopePending == old(scopePending) && nameCounter == old(nameCounter)
      ensures old(IsBroken()) ==> r == Fail(ConnectionBroken) && unchanged(this, wire)
      ensures wire.log == old(wire.log) + served
      ensures r.Done? ==> !IsBroken()
      ensures old(!IsBroken() && Undisturbed()) ==> !IsBroken() && Undisturbed()
      ensures !IsBroken() ==> Units(served) == [SyncPoint] && (r.Done? <==> !HasError(Flatten(served)))
    {
      hide Flatten, HasError, ErrorIn, LastStatus, Survives;
      served := [];
      assert wire.log + [] == wire.log;
      var _ :- EnsureUsable();
      r, served := LowlevelSyncInner();
      Settle(r);
      ErrorIff(Flatten(served), Done(()));
    }

    /** Await the completions of a [Parse] Bind. */
    method FinishBinding(sm: Binding, first: BackMsg, ghost start: Phase, ghost t: seq<BackMsg>)
      returns (r: Outcome<()>)
      requires exchangeInProgress && !wire.torn && t == [first] + wire.unread && Reply(start, t) && sm.Follows(start)
      modifies this`exchangeInProgress, wire`awaits, wire`unread, wire`torn, sm
      ensures r.Done? <==> !exchangeInProgress
      ensures old(wire.Calm()) && !HasError(t) ==> r.Done? && wire.Calm()
      ensures r.Done? ==> wire.unread == [] && !wire.torn && !HasError(t) && t[|t| - 1] == BindComplete
    {
      hide Reply, Next, HasError, wire.Calm, sm.Follows;
      var m := first;
      ghost var ph, u := start, t;
      while true
        invariant exchangeInProgress && !wire.torn && sm.Follows(ph)
        invariant old(wire.Calm()) ==> wire.Calm()
        invariant Reply(ph, u) && u == [m] + wire.unread && u[|u| - 1] == t[|t| - 1] && (HasError(u) <==> HasError(t))
        decreases |wire.unread|
      {
        Server.AdvanceRest(ph, u);
        ErrorAhead(u);
        var action :- sm.Step(m, ph);
        if action == Finish {
          FinishExchange();
          return Done(());
        }
        ph, u := Next(ph, m).next, u[1..];
        m :- wire.ReadMessage();
      }
    }

    /** Send [Parse] Bind, with a Flush, and await the completions. An error
        leaves the exchange unfinished. */
    method DriveBinding(portal: string, source: Source, params: nat) returns (r: Outcome<()>, ghost served: seq<Served>)
      requires Continuable() && Ready()
      modifies this`writeBuffer, this`exchangeInProgress, wire
      ensures Continuable()
      ensures wire.log == old(wire.log) + served
      ensures r.Done? <==> Ready()
      ensures old(wire.Calm()) && !HasError(Flatten(served)) ==> r.Done? && wire.Calm()
      ensures r.Done? ==>
                && Units(served) == [Bind(portal, source, params)]
                && !HasError(Flatten(served)) && RowsOf(Flatten(served)) == []
    {
      hide Chain, Units, Flatten, LastStatus, HasError, Reply, RowsOf, wire.Calm;
      served := [];
      assert wire.log + [] == wire.log;
      ghost var bind := Bind(portal, source, params);
      var sm := new Binding(portal, source, params);
      var _ := BeginExchange();  // succeeds: the caller has checked
      var _ := sm.Step(NoData, WantSync);  // asks to write the request
      var first;
      first, served := Request(sm.request);
      ghost var t := Flatten(served);
      if Units(served) == [bind] {
        JustOne(bind, served, wire.mode);
      }
      var m :- first;
      NoRows(Start(bind), t);
      r := FinishBinding(sm, m, Start(bind), t);
      if r.Done? {
        StillInStep(old(wire.log), bind, served);
      }
    }

    method LowlevelBind(portal: string, statement: string, params: nat, encodes: bool)
      returns (r: Outcome<()>, ghost served: seq<Served>)
      requires Valid()
      modifies this, wire
      ensures tickets == old(tickets)
      ensures Valid() && scopePending == old(scopePending) && nameCounter == old(nameCounter)
      ensures old(IsBroken()) ==> r == Fail(ConnectionBroken) && unchanged(this, wire)
      ensures old(!IsBroken()) && !encodes ==> r == Fail(Encode) && unchanged(this, wire)
      ensures wire.log == old(wire.log) + served
      ensures old(!IsBroken()) && encodes ==> (r.Done? <==> !IsBroken())
      ensures old(!IsBroken() && wire.Calm()) && encodes && !HasError(Flatten(served)) ==> r.Done? && wire.Calm()
      ensures r.Done? ==> Units(served) == [Bind(portal, Statement(statement), params)] && !HasError(Flatten(served))
    {
      hide Flatten, HasError, LastStatus;
      served := [];
      assert wire.log + [] == wire.log;
      var _ :- EnsureUsable();
      if !encodes {
        return Fail(Encode), served;
      }
      r, served := DriveBinding(portal, Statement(statement), params);
      Settle(r);
    }

    /** Read the reply to a fetch. */
    method FinishFetch(handler: Recorder, ghost start: Phase, ghost t: seq<BackMsg>, ghost before: seq<Callback>)
      returns (r: Outcome<bool>)
      requires exchangeInProgress && !wire.torn && wire.unread == t && handler.log == before
      requires Reply(start, t) && start.WantDescribe?
      modifies this`exchangeInProgress, wire`awaits, wire`unread, wire`torn, handler
      ensures r.Done? <==> !exchangeInProgress
      ensures old(wire.Calm()) && !HasError(t) && !HasEmpty(t) && handler.Obliging() ==> r.Done? && wire.Calm()
      ensures before <= handler.log
      ensures r.Done? ==>
                && wire.unread == [] && !wire.torn && !HasError(t) && handler.log == before + Calls(true, [], t)
                && t != [] && (if r.value then t[|t| - 1].PortalSuspended? else t[|t| - 1].CommandComplete?)
    {
      var columnBuffer: Bytes := [];
      ghost var ph := start;
      hide Reply, Next, Calls, HasError, HasEmpty, wire.Calm, handler.Obliging;
      assert Fetching(ph, t, t, [], handler.log, handler.log);
      hide Fetching;
      while true
        invariant exchangeInProgress && !wire.torn && before <= handler.log
        invariant wire.unread != [] ==> Fetching(ph, wire.unread, t, columnBuffer, handler.log, before)
        invariant old(wire.Calm()) ==> wire.Calm()
        invariant !HasError(t) && !HasEmpty(t) ==> wire.unread != [] && !HasEmpty(wire.unread)
        decreases |wire.unread|
      {
        ghost var u := wire.unread;
        if u != [] {
          FetchStep(ph, u, t, columnBuffer, handler.log, before);
        }
        var m :- wire.ReadMessage();
        if m.Async? {
          continue;
        }
        var delivered, columnBuffer' := Deliver(m, columnBuffer, handler);
        var over :- delivered;
        columnBuffer := columnBuffer';
        if over.Some? {
          FinishExchange();
          return Done(over.value);
        }
        ph := Next(ph, m).next;
      }
    }

    /** Describe and execute a portal. `Done(true)` means that rows are left. */
    method LowlevelExecuteInner(portal: string, maxRows: nat, handler: Recorder)
      returns (r: Outcome<bool>, ghost served: seq<Served>)
      requires Continuable()
      modifies this`writeBuffer, this`exchangeInProgress, wire, handler
      ensures Continuable()
      ensures wire.log == old(wire.log) + served && old(handler.log) <= handler.log
      ensures old(!Ready()) ==>
                && r == Fail(ConnectionBroken) && unchanged(wire, handler)
                && exchangeInProgress == old(exchangeInProgress)
      ensures r.Done? <==> Ready()
      ensures old(Ready() && wire.Calm()) && handler.Obliging()
              && !HasError(Flatten(served)) && !HasEmpty(Flatten(served)) ==>
                r.Done? && wire.Calm()
      ensures r.Done? ==>
                var t := Flatten(served);
                && Units(served) == [Fetch(portal, maxRows)] && !HasError(t)
                && handler.log == old(handler.log) + Calls(true, [], t)
                && OneResult(Calls(true, [], t)) && RowsIn(Calls(true, [], t)) == RowsOf(t)
                && t != [] && (r.value <==> t[|t| - 1].PortalSuspended?)
    {
      hide Chain, Units, Flatten, LastStatus, HasError, Reply, Calls, RowsThenEnd, OneResult, RowsOf, RowsIn;
      hide Conforming, Next;
      hide HasEmpty, wire.Calm, handler.Obliging;
      served := [];
      assert wire.log + [] == wire.log;
      var _ :- BeginExchange();
      var w;
      w, served := Ask([Fetch(portal, maxRows)]);
      var _ :- w;
      ghost var t := Flatten(served);
      JustOne(Fetch(portal, maxRows), served, wire.mode);
      FetchShape([], maxRows > 0, t);
      r := FinishFetch(handler, WantDescribe(maxRows > 0), t, handler.log);
      if r.Done? {
        StillInStep(old(wire.log), Fetch(portal, maxRows), served);
      }
    }

    method LowlevelExecute(portal: string, maxRows: nat, handler: Recorder)
      returns (r: Outcome<bool>, ghost served: seq<Served>)
      requires Valid()
      modifies this, wire, handler
      ensures tickets == old(tickets)
      ensures Valid() && scopePending == old(scopePending) && nameCounter == old(nameCounter)
      ensures old(IsBroken()) ==> r == Fail(ConnectionBroken) && unchanged(this, wire, handler)
      ensures wire.log == old(wire.log) + served && old(handler.log) <= handler.log
      ensures old(!IsBroken()) ==> (r.Done? <==> !IsBroken())
      ensures old(!IsBroken() && wire.Calm()) && handler.Obliging() ==>
                (!HasError(Flatten(served)) && !HasEmpty(Flatten(served)) ==> r.Done? && wire.Calm())
      ensures r.Done? ==>
                var t := Flatten(served);
                && Units(served) == [Fetch(portal, maxRows)] && !HasError(t)
                && OneResult(handler.log[|old(handler.log)|..])
                && Tells([], ResultMessages(t), handler.log[|old(handler.log)|..])
                && t != [] && (r.value <==> t[|t| - 1].PortalSuspended?)
    {
      hide Flatten, HasError, LastStatus, Units, Calls, OneResult, Chain, Tells, ResultMessages;
      served := [];
      assert wire.log + [] == wire.log;
      var _ :- EnsureUsable();
      r, served := LowlevelExecuteInner(portal, maxRows, handler);
      Settle(r);
      if r.Done? {
        CallsTell([], Flatten(served));
        assert handler.log[|old(handler.log)|..] == Calls(true, [], Flatten(served));
      }
    }

    method LowlevelClosePortal(portal: string) returns (r: Outcome<()>, ghost served: seq<Served>)
      requires Valid()
      modifies this, wire
      ensures tickets == old(tickets)
      ensures Valid() && scopePending == old(scopePending) && nameCounter == old(nameCounter)
      ensures old(IsBroken()) ==> r == Fail(ConnectionBroken) && unchanged(this, wire)
      ensures wire.log == old(wire.log) + served
      ensures old(!IsBroken()) ==> (r.Done? <==> !IsBroken())
      ensures old(!IsBroken() && wire.Calm()) && !HasError(Flatten(served)) ==> r.Done? && wire.Calm()
      ensures r.Done? ==> Units(served) == [ClosePortal(portal)] && !HasError(Flatten(served))
    {
      hide Flatten, HasError, LastStatus, Units, Chain;
      served := [];
      assert wire.log + [] == wire.log;
      var _ :- EnsureUsable();
      r, served := LowlevelClosePortalInner(portal);
      Settle(r);
    }

    method LowlevelClosePortalInner(portal: string) returns (r: Outcome<()>, ghost served: seq<Served>)
      requires Continuable() && Ready()
      modifies this`writeBuffer, this`exchangeInProgress, wire
      ensures Continuable()
      ensures wire.log == old(wire.log) + served
      ensures r.Done? <==> Ready()
      ensures old(wire.Calm()) && !HasError(Flatten(served)) ==> r.Done? && wire.Calm()
      ensures r.Done? ==> Units(served) == [ClosePortal(portal)] && !HasError(Flatten(served))
    {
      hide Chain, Units, Flatten, LastStatus, HasError, Reply, Next, Conforming, wire.Calm;
      served := [];
      assert wire.log + [] == wire.log;
      var _ := BeginExchange();  // succeeds: the caller has checked
      var w;
      w, served := Ask([ClosePortal(portal)]);
      var _ :- w;
      ghost var t := Flatten(served);
      JustOne(ClosePortal(portal), served, wire.mode);
      while true
        invariant exchangeInProgress && !wire.torn && wire.log == old(wire.log) + served
        invariant Chain(Normal, served, wire.mode)
        invariant old(wire.Calm()) ==> wire.Calm()
        invariant !HasError(t) ==> wire.unread != []
        invariant wire.unread != [] ==>
                    && Reply(WantClose, wire.unread)
                    && t != [] && wire.unread[|wire.unread| - 1] == t[|t| - 1]
                    && (HasError(wire.unread) <==> HasError(t))
        decreases |wire.unread|
      {
        if wire.unread != [] {
          Server.AdvanceRest(WantClose, wire.unread);
          CloseStep(wire.unread[0]);
          ErrorAhead(wire.unread);
        }
        var m :- wire.ReadMessage();
        match m {
          case Async(_) => continue;
          case CloseComplete =>
            FinishExchange();
            StillInStep(old(wire.log), ClosePortal(portal), served);
            return Done(()), served;
          case ErrorResponse(error) => return Fail(ServerFailure(error)), served;
          case _ => return Fail(LibraryBug("expected CloseComplete or ErrorResponse")), served;
        }
      }
    }

    /** The portal handle's `exec`. */
    method PortalExec(maxRows: nat, handler: Recorder) returns (r: Outcome<bool>, ghost served: seq<Served>)
      requires Continuable()
      modifies this`writeBuffer, this`exchangeInProgress, wire, handler
      ensures Continuable() && wire.log == old(wire.log) + served && old(handler.log) <= handler.log
      ensures old(!Ready()) ==>
                && r == Fail(ConnectionBroken) && unchanged(wire, handler)
                && exchangeInProgress == old(exchangeInProgress)
      ensures r.Done? <==> Ready()
      ensures old(Ready() && wire.Calm()) && handler.Obliging() && Smooth(Flatten(served)) ==> r.Done? && wire.Calm()
      ensures r.Done? ==>
                && Units(served) == [Fetch("", maxRows)] && !HasError(Flatten(served))
                && RowsIn(handler.log) == RowsIn(old(handler.log)) + RowsOf(Flatten(served))
                && (r.value <==> Flatten(served) != [] && Flatten(served)[|Flatten(served)| - 1].PortalSuspended?)
    {
      hide Chain, Units, Flatten, LastStatus, HasError, Calls, RowsOf, RowsIn, OneResult, InStep, Conforming;
      hide wire.Calm, handler.Obliging;
      ghost var log := handler.log;
      r, served := LowlevelExecuteInner("", maxRows, handler);
      if r.Done? {
        RowsInConcat(log, Calls(true, [], Flatten(served)));
      }
    }

    /** One step of the caller's closure; it may be the last. */
    method ClosureStep(step: PortalStep, handler: Recorder) returns (stop: Option<Outcome<()>>, ghost s: seq<Served>)
      requires Continuable()
      modifies this`writeBuffer, this`exchangeInProgress, wire, handler
      ensures Continuable() && wire.log == old(wire.log) + s && old(handler.log) <= handler.log
      ensures step.GiveUp? ==> stop == Some(Fail(InvalidUsage))
      ensures step.Vanish? ==> stop == Some(Dropped)
      ensures !step.FetchRows? ==> s == [] && unchanged(this, wire, handler)
      ensures step.FetchRows? && stop.Some? ==> !stop.value.Done? && !Ready()
      ensures step.FetchRows? && Ready() ==>
                && old(Ready()) && stop.None?
                && Units(s) == [Fetch("", step.maxRows)] && !HasError(Flatten(s))
                && RowsIn(handler.log) == RowsIn(old(handler.log)) + RowsOf(Flatten(s))
      ensures old(Ready() && wire.Calm()) && handler.Obliging() && Smooth(Flatten(s)) && step.FetchRows? ==>
                Ready() && wire.Calm()
    {
      hide Chain, Units, Flatten, LastStatus, HasError, RowsOf, RowsIn, Smooth, InStep, Conforming;
      hide wire.Calm, handler.Obliging;
      s := [];
      assert wire.log + [] == wire.log;
      match step {
        case GiveUp => return Some(Fail(InvalidUsage)), s;
        case Vanish => return Some(Dropped), s;
        case FetchRows(maxRows, propagate) =>
          var fetched;
          fetched, s := PortalExec(maxRows, handler);
          if fetched.Dropped? {
            return Some(Dropped), s;
          }
          if fetched.Fail? && propagate {
            return Some(Fail(fetched.error)), s;
          }
          return None, s;
      }
    }

    /** The caller's closure, with a portal handle. */
    method RunClosure(script: seq<PortalStep>, handler: Recorder) returns (r: Outcome<()>, ghost served: seq<Served>)
      requires Continuable() && Ready()
      modifies this`writeBuffer, this`exchangeInProgress, wire, handler
      ensures Continuable()
      ensures wire.log == old(wire.log) + served && old(handler.log) <= handler.log
      ensures Ready() ==>
                && Units(served) == Fetches(script) && !HasError(Flatten(served))
                && RowsIn(handler.log) == RowsIn(old(handler.log)) + RowsOf(Flatten(served))
                && (r.Done? <==> Completes(script)) && (r.Fail? ==> r.error == InvalidUsage)
      ensures old(wire.Calm()) && handler.Obliging() && Smooth(Flatten(served)) && Returns(script) ==>
                Ready() && wire.Calm() && !r.Dropped?
    {
      served := [];
      assert wire.log + [] == wire.log;
      NoneFetched(script, handler.log);
      hide *;
      var i := 0;
      while i < |script|
        invariant i <= |script|
        invariant Continuable() && wire.log == old(wire.log) + served && old(handler.log) <= handler.log
        invariant Ready() ==> Fetched(script, i, served, old(handler.log), handler.log)
        invariant old(wire.Calm()) && handler.Obliging() && Smooth(Flatten(served)) && Returns(script) ==>
                    Ready() && wire.Calm() && Returns(script[i..])
      {
        ScriptStep(script, i);
        StopsHere(script, i, served, old(handler.log), handler.log);
        ghost var log := handler.log;
        var stop, s := ClosureStep(script[i], handler);
        if script[i].FetchRows? {
          OneMoreFetched(script, i, served, s, old(handler.log), log, handler.log);
        }
        Regrouped(old(wire.log), served, s);
        served := served + s;
        if stop.Some? {
          return stop.value, served;
        }
        i := i + 1;
      }
      StopsHere(script, i, served, old(handler.log), handler.log);
      return Done(()), served;
    }

    /** Bind the unnamed portal, hand it to the closure, and Sync when the
        closure returns. The scope stays open, and the connection unusable,
        unless that Sync comes to its end. */
    method ExecPortalInner(source: Source, params: nat, script: seq<PortalStep>, handler: Recorder)
      returns (r: Outcome<()>, ghost served: seq<Served>)
      requires Valid() && !IsBroken()
      modifies this, wire, handler
      ensures tickets == old(tickets)
      ensures Continuable() && nameCounter == old(nameCounter)
      ensures !r.Dropped? ==> (!scopePending <==> Ready())
      ensures old(wire.Calm()) && handler.Obliging() && Smooth(Flatten(served)) && Returns(script) ==>
                !scopePending && !(r.Fail? && r.error.IsConnectionBroken())
      ensures wire.log == old(wire.log) + served && old(handler.log) <= handler.log
      ensures r.Done? ==> !IsBroken()
      ensures !scopePending ==>
              Ready() && PortalServed(source, params, script, served, old(handler.log), handler.log, r)
    {
      hide Chain, Units, Flatten, HasError, Calls, RowsOf, RowsIn, InStep, Conforming, ErrorIn;
      hide PortalServed, Fetches, Completes, Returns, Survives, wire.Calm, handler.Obliging;
      scopePending := true;
      var bound;
      bound, served := DriveBinding("", source, params);
      var _ :- bound;
      var result, fetched := RunClosure(script, handler);
      ghost var before := served;
      served := served + fetched;
      FlattenConcat(before, fetched);
      SmoothInBoth(Flatten(before), Flatten(fetched));
      if result.Dropped? {
        return Dropped, served;
      }
      // refused if a fetch left its exchange open
      var synced, sync := LowlevelSyncInner();
      FlattenConcat(served, sync);
      SmoothInBoth(Flatten(served), Flatten(sync));
      SmoothSurvives(Flatten(sync));
      served := served + sync;
      if synced.Dropped? {
        return Dropped, served;
      }
      // the Sync may have been answered even if it failed
      if EnsureExchangeReady().Done? {
        scopePending := false;
      }
      r := if result.Done? then synced else result;
      if Ready() {
        PortalUnits(source, params, script, before, fetched, sync, old(handler.log), handler.log, r);
      }
    }

    /** Execute a statement through the unnamed portal. If the connection is
        usable afterwards the server was asked for exactly the closure's
        fetches, the handler has every row of them in order, and success means
        that the closure completed and the server reported no error. */
    method ExecPortal(source: Source, params: nat, encodes: bool, script: seq<PortalStep>, handler: Recorder)
      returns (r: Outcome<()>, ghost served: seq<Served>)
      requires Valid()
      modifies this, wire, handler
      ensures tickets == old(tickets)
      ensures Valid() && nameCounter == old(nameCounter)
      ensures old(IsBroken()) ==> r == Fail(ConnectionBroken) && unchanged(this, wire, handler)
      ensures old(!IsBroken()) && !encodes ==> r == Fail(Encode) && unchanged(this, wire, handler)
      ensures wire.log == old(wire.log) + served && old(handler.log) <= handler.log
      ensures r.Done? ==> !IsBroken()
      ensures old(!IsBroken() && wire.Calm()) && handler.Obliging() && Smooth(Flatten(served)) && Returns(script) ==>
                !IsBroken()
      ensures !IsBroken() && encodes ==> PortalServed(source, params, script, served, old(handler.log), handler.log, r)
    {
      hide PortalServed, Smooth, Returns, Flatten;
      served := [];
      assert wire.log + [] == wire.log;
      var _ :- EnsureUsable();
      if !encodes {
        return Fail(Encode), served;
      }
      r, served := ExecPortalInner(source, params, script, handler);
      Settle(r);
    }

    /** Bind a named portal: the first half of a transaction's portal. */
    method CreateNamedPortal(portal: string, source: Source, params: nat, encodes: bool)
      returns (r: Outcome<()>, ghost served: seq<Served>)
      requires Valid()
      modifies this, wire
      ensures tickets == old(tickets)
      ensures Valid() && scopePending == old(scopePending) && nameCounter == old(nameCounter)
      ensures old(IsBroken()) ==> r == Fail(ConnectionBroken) && unchanged(this, wire)
      ensures old(!IsBroken()) && !encodes ==> r == Fail(Encode) && unchanged(this, wire)
      ensures wire.log == old(wire.log) + served
      ensures old(!IsBroken()) && encodes ==> (r.Done? <==> !IsBroken())
      ensures old(!IsBroken() && wire.Calm()) && encodes && !HasError(Flatten(served)) ==> r.Done? && wire.Calm()
      ensures r.Done? ==> Units(served) == [Bind(portal, source, params)] && !HasError(Flatten(served))
    {
      hide Flatten, HasError, LastStatus;
      served := [];
      assert wire.log + [] == wire.log;
      var _ :- EnsureUsable();
      if !encodes {
        return Fail(Encode), served;
      }
      r, served := DriveBinding(portal, source, params);
    }
  }

  /** What a whole portal scope amounts to. */
  predicate PortalServed(source: Source, params: nat, script: seq<PortalStep>, served: seq<Served>,
                         before: seq<Callback>, log: seq<Callback>, r: Outcome<()>) {
    && Units(served) == [Bind("", source, params)] + Fetches(script) + [SyncPoint]
    && RowsIn(log) == RowsIn(before) + RowsOf(Flatten(served))
    && (r.Done? <==> Completes(script) && !HasError(Flatten(served)))
  }

  lemma PortalUnits(source: Source, params: nat, script: seq<PortalStep>,
                    bound: seq<Served>, fetched: seq<Served>, sync: seq<Served>,
                    before: seq<Callback>, log: seq<Callback>, r: Outcome<()>)
    requires Units(bound) == [Bind("", source, params)]
    requires Units(fetched) == Fetches(script) && Units(sync) == [SyncPoint]
    requires !HasError(Flatten(bound)) && !HasError(Flatten(fetched))
    requires r.Done? <==> Completes(script) && !HasError(Flatten(sync))
    requires RowsOf(Flatten(bound)) == [] && RowsOf(Flatten(sync)) == []
    requires RowsIn(log) == RowsIn(before) + RowsOf(Flatten(fetched))
    ensures PortalServed(source, params, script, bound + fetched + sync, before, log, r)
  {
    hide HasError, Flatten, Units, RowsOf, RowsIn, Fetches, Completes;
    Joined(bound, fetched);
    Joined(bound + fetched, sync);
    assert [] + RowsOf(Flatten(fetched)) + [] == RowsOf(Flatten(fetched));
  }

  /** `i` steps of a closure were fetches, and all of them succeeded. */
  ghost predicate Fetched(script: seq<PortalStep>, i: nat, served: seq<Served>,
                          before: seq<Callback>, log: seq<Callback>)
    requires i <= |script|
  {
    && Units(served) + Fetches(script[i..]) == Fetches(script)
    && !HasError(Flatten(served))
    && RowsIn(log) == RowsIn(before) + RowsOf(Flatten(served))
    && (Completes(script[i..]) <==> Completes(script))
  }

  lemma StaysNormal(t: seq<BackMsg>)
    requires t != [] && !t[|t| - 1].ErrorResponse?
    ensures NextMode(Normal, t) == Normal
  {
  }

  lemma StatusKept(before: seq<Served>, s: Served)
    requires s.trace != [] && !s.trace[|s.trace| - 1].ReadyForQuery?
    ensures LastStatus(before + [s]) == LastStatus(before)
  {
    assert (before + [s])[..|before|] == before;
  }

  lemma OnlySync(served: seq<Served>, to: Mode)
    requires Units(served) == [SyncPoint] && Chain(Normal, served, to)
    ensures var t := Flatten(served);
            && Rest(Stage(WantSync, []), t) && Concluded(served, to) && RowsOf(t) == []
            && (ErrorIn(t, Done(())).Done? <==> !HasError(t))
  {
    hide Rest, Chain, Units, Flatten, Reply, Concluded, RowsOf;
    JustSync(Normal, served, to);
    JustOne(SyncPoint, served, to);
    NoRows(WantSync, Flatten(served));
    ErrorIff(Flatten(served), Done(()));
  }

  lemma NoneFetched(script: seq<PortalStep>, log: seq<Callback>)
    ensures Fetched(script, 0, [], log, log) && script[0..] == script
  {
    assert script[0..] == script && [] + Fetches(script) == Fetches(script) && RowsIn(log) + [] == RowsIn(log);
  }

  lemma OneMoreFetched(script: seq<PortalStep>, i: nat, before: seq<Served>, s: seq<Served>,
                       start: seq<Callback>, log: seq<Callback>, log': seq<Callback>)
    requires i < |script| && script[i].FetchRows?
    ensures Smooth(Flatten(before + s)) ==> Smooth(Flatten(before)) && Smooth(Flatten(s))
    ensures Fetched(script, i, before, start, log) && Units(s) == [Fetch("", script[i].maxRows)]
            && !HasError(Flatten(s)) && RowsIn(log') == RowsIn(log) + RowsOf(Flatten(s)) ==>
              Fetched(script, i + 1, before + s, start, log')
  {
    hide Units, Flatten, HasError, RowsOf, RowsIn, Fetches, Completes, Smooth;
    ScriptStep(script, i);
    Joined(before, s);
    FlattenConcat(before, s);
    SmoothInBoth(Flatten(before), Flatten(s));
  }

  /** The closure ends here if there is nothing left to fetch. */
  lemma StopsHere(script: seq<PortalStep>, i: nat, served: seq<Served>, before: seq<Callback>, log: seq<Callback>)
    requires i <= |script|
    ensures Fetched(script, i, served, before, log) && (i == |script| || !script[i].FetchRows?) ==>
              && Units(served) == Fetches(script) && !HasError(Flatten(served))
              && RowsIn(log) == RowsIn(before) + RowsOf(Flatten(served))
              && (i == |script| <==> Completes(script))
  {
    hide Units, Flatten, HasError, RowsOf, RowsIn, Fetches, Completes;
    ScriptStep(script, i);
  }

  lemma Regrouped(a: seq<Served>, b: seq<Served>, c: seq<Served>)
    ensures a + b + c == a + (b + c) && (c == [] ==> b + c == b)
  {
  }

  lemma Joined(a: seq<Served>, b: seq<Served>)
    ensures RowsOf(Flatten(a + b)) == RowsOf(Flatten(a)) + RowsOf(Flatten(b))
    ensures HasError(Flatten(a + b)) <==> HasError(Flatten(a)) || HasError(Flatten(b))
    ensures Units(a + b) == Units(a) + Units(b)
  {
    hide *;
    FlattenConcat(a, b);
    RowsOfConcat(Flatten(a), Flatten(b));
    ErrorInEither(Flatten(a), Flatten(b));
  }
}
