/** The extended query machine: prepare, execute and close, each one exchange. */
module ExtendedQueries {
  import opened Protocol
  import opened Server
  import opened Exchange
  import opened Machines

  datatype State =
    | Initial
    | WaitingParse
    | WaitingBind
    | WaitingDescribe
    | WaitingRowDesc
    | ProcessingRows
    | WaitingReady
    | Finished

  // -- The shape of the callbacks over a whole exchange

  /** Phases after which nothing is reported any more. */
  predicate Quiet(ph: Phase) {
    ph.WantSync? || ph.WantReady? || ph.WantClose?
  }

  predicate BeforeRows(ph: Phase) {
    match ph
    case WantParse(then_) => then_ == ThenBind(ThenDescribe)
    case WantBind(after) => after == ThenDescribe
    case WantDescribe(_) => true
    case _ => false
  }

  /** Which messages a row phase allows, and where they lead. */
  lemma RowsStep(st: Stage, m: BackMsg)
    requires st.ph.Rows? && !st.ph.limited && st.todo == [] && !Progresses(st, m).Unexpected?
    ensures m.Async? || m.DataRow? || m.CommandComplete? || m.EmptyQueryResponse? || m.ErrorResponse?
    ensures m.Async? || m.DataRow? ==> Progresses(st, m) == Onward(st)
    ensures m.DataRow? ==> st.ph.has
    ensures m.CommandComplete? || m.EmptyQueryResponse? ==> Progresses(st, m) == Onward(Stage(WantSync, []))
    ensures m.ErrorResponse? ==> Progresses(st, m) == Onward(Stage(WantReady, [])) || Progresses(st, m) == Gone
  {
  }

  lemma EarlyStep(st: Stage, m: BackMsg)
    requires BeforeRows(st.ph) && st.todo == [] && !Progresses(st, m).Unexpected?
    requires st.ph.WantDescribe? ==> !st.ph.limited
    ensures m.Async? || m.ParseComplete? || m.BindComplete? || m.RowDescription? || m.NoData? || m.ErrorResponse?
    ensures m.Async? || m.ParseComplete? || m.BindComplete? ==>
              && Progresses(st, m).Onward? && var next := Progresses(st, m).next;
              BeforeRows(next.ph) && next.todo == [] && (next.ph.WantDescribe? ==> !next.ph.limited)
    ensures m.RowDescription? || m.NoData? ==>
              Progresses(st, m) == Onward(Stage(Rows(m.RowDescription?, false), []))
    ensures m.ErrorResponse? ==> Progresses(st, m) == Onward(Stage(WantReady, [])) || Progresses(st, m) == Gone
  {
  }

  lemma {:induction false} QuietCalls(cols: Bytes, st: Stage, t: seq<BackMsg>)
    requires Rest(st, t) && Quiet(st.ph) && st.todo == []
    ensures Calls(true, cols, t) == [] && RowsOf(t) == []
    decreases t
  {
    if Progresses(st, t[0]).Onward? {
      QuietCalls(cols, Progresses(st, t[0]).next, t[1..]);
    }
  }

  /** `cs` ends with the end of its result. */
  predicate Complete(cs: seq<Callback>) {
    cs != [] && cs[|cs| - 1].ResultEnd?
  }

  lemma {:induction false} RowCalls(cols: Bytes, st: Stage, t: seq<BackMsg>)
    requires Rest(st, t) && st.ph.Rows? && st.todo == [] && !st.ph.limited
    ensures RowsThenEnd(cols, Calls(true, cols, t)) && RowsIn(Calls(true, cols, t)) == RowsOf(t)
    decreases t
  {
    hide Rest, Progresses, HasError, HasEmpty, Calls, Learned;
    Head(st, t);
    RowsStep(st, t[0]);
    UnfoldCalls(true, cols, t);
    OneCall(true, cols, t[0]);
    var rest := Calls(true, cols, t[1..]);
    match t[0] {
      case Async(_) =>
        RowCalls(cols, st, t[1..]);
        assert [] + rest == rest;
      case DataRow(row) =>
        RowCalls(cols, st, t[1..]);
        assert ([Row(cols, row)] + rest)[1..] == rest;
      case CommandComplete(tag) =>
        QuietCalls(cols, Stage(WantSync, []), t[1..]);
        assert Calls(true, cols, t) == [ResultEnd(tag)] && [ResultEnd(tag)][1..] == [];
      case EmptyQueryResponse =>
        QuietCalls(cols, Stage(WantSync, []), t[1..]);
      case ErrorResponse(_) =>
        if t[1..] != [] {
          QuietCalls(cols, Stage(WantReady, []), t[1..]);
        } else {
          NoCalls(cols);
        }
    }
  }

  lemma NoCalls(cols: Bytes)
    ensures Calls(true, cols, []) == []
  {
  }

  lemma {:induction false} RowsComplete(cols: Bytes, st: Stage, t: seq<BackMsg>)
    requires Rest(st, t) && st.ph.Rows? && st.todo == [] && !st.ph.limited
    requires !HasError(t) && !HasEmpty(t)
    ensures Complete(Calls(true, cols, t))
    decreases t
  {
    hide Rest, Progresses, HasError, HasEmpty;
    Head(st, t);
    RowsStep(st, t[0]);
    match t[0] {
      case Async(_) | DataRow(_) => RowsComplete(cols, st, t[1..]);
      case CommandComplete(tag) => QuietCalls(cols, Stage(WantSync, []), t[1..]);
    }
  }

  /** Without a result set the only callback is the end. */
  lemma {:induction false} NoRowCalls(cols: Bytes, st: Stage, t: seq<BackMsg>)
    requires Rest(st, t) && st.ph.Rows? && !st.ph.has && st.todo == [] && !st.ph.limited
    ensures OneResult(Calls(true, cols, t))
    decreases t
  {
    hide Rest, Progresses;
    Head(st, t);
    RowsStep(st, t[0]);
    match t[0] {
      case Async(_) => NoRowCalls(cols, st, t[1..]);
      case CommandComplete(tag) =>
        QuietCalls(cols, Stage(WantSync, []), t[1..]);
      case EmptyQueryResponse =>
        QuietCalls(cols, Stage(WantSync, []), t[1..]);
      case ErrorResponse(_) =>
        if t[1..] != [] {
          QuietCalls(cols, Stage(WantReady, []), t[1..]);
        }
    }
  }

  lemma AllRowCalls(cols: Bytes, has: bool, t: seq<BackMsg>)
    requires Rest(Stage(Rows(has, false), []), t)
    ensures var cs := Calls(true, cols, t);
            && RowsThenEnd(cols, cs) && RowsIn(cs) == RowsOf(t) && (!has ==> OneResult(cs))
            && (!HasError(t) && !HasEmpty(t) ==> Complete(cs))
  {
    hide *;
    RowCalls(cols, Stage(Rows(has, false), []), t);
    if !has {
      NoRowCalls(cols, Stage(Rows(has, false), []), t);
    }
    if !HasError(t) && !HasEmpty(t) {
      RowsComplete(cols, Stage(Rows(has, false), []), t);
    }
  }

  lemma StartFirst(cols: Bytes, cs: seq<Callback>)
    requires RowsThenEnd(cols, cs)
    ensures var all := [ResultStart(cols)] + cs;
            OneResult(all) && RowsIn(all) == RowsIn(cs) && (Complete(cs) ==> Complete(all))
  {
    var all := [ResultStart(cols)] + cs;
    assert all[1..] == cs && [] + RowsIn(cs) == RowsIn(cs);
    hide RowsThenEnd;
  }

  lemma NoCallback()
    ensures OneResult([]) && RowsIn([]) == []
  {
  }

  /** Over every exchange of an execution, with an error possible anywhere,
      the callbacks are a start, the rows in order and an end, or an end alone,
      or a prefix of these; without an error they are complete. */
  lemma {:induction false} CallShape(cols: Bytes, st: Stage, t: seq<BackMsg>)
    requires Rest(st, t) && BeforeRows(st.ph) && st.todo == []
    requires st.ph.WantDescribe? ==> !st.ph.limited
    ensures OneResult(Calls(true, cols, t)) && RowsIn(Calls(true, cols, t)) == RowsOf(t)
    ensures !HasError(t) && !HasEmpty(t) ==> Complete(Calls(true, cols, t))
    decreases t
  {
    hide Rest, Progresses, HasError, HasEmpty, BeforeRows, RowsThenEnd, Calls, Complete, RowsIn, OneResult;
    Head(st, t);
    EarlyStep(st, t[0]);
    UnfoldCalls(true, cols, t);
    OneCall(true, cols, t[0]);
    NoCalls(cols);
    NoCallback();
    match t[0] {
      case RowDescription(cols') =>
        AllRowCalls(cols', true, t[1..]);
        StartFirst(cols', Calls(true, cols', t[1..]));
      case NoData =>
        AllRowCalls(cols, false, t[1..]);
        assert [] + Calls(true, cols, t[1..]) == Calls(true, cols, t[1..]);
      case ErrorResponse(_) =>
        if t[1..] != [] {
          QuietCalls(cols, Stage(WantReady, []), t[1..]);
        }
      case Async(_) | ParseComplete | BindComplete =>
        CallShape(cols, Progresses(st, t[0]).next, t[1..]);
        assert [] + Calls(true, cols, t[1..]) == Calls(true, cols, t[1..]);
    }
  }

  /** Where each message that is neither asynchronous nor an error leads. */
  lemma MovesOn(st: Stage, m: BackMsg)
    requires st.todo == [] && !m.Async? && !m.ErrorResponse? && !Progresses(st, m).Unexpected?
    ensures st.ph == WantParse(ThenParameters) ==>
            m.ParseComplete? && Progresses(st, m) == Onward(Stage(WantParameters, []))
    ensures st.ph == WantParse(ThenBind(ThenDescribe)) ==>
              m.ParseComplete? && Progresses(st, m) == Onward(Stage(WantBind(ThenDescribe), []))
    ensures st.ph == WantBind(ThenDescribe) ==>
            m.BindComplete? && Progresses(st, m) == Onward(Stage(WantDescribe(false), []))
    ensures st.ph == WantParameters ==> m.ParameterDescription? && Progresses(st, m) == Onward(Stage(WantColumns, []))
    ensures st.ph == WantColumns ==>
            (m.RowDescription? || m.NoData?) && Progresses(st, m) == Onward(Stage(WantSync, []))
    ensures st.ph == WantClose ==> m.CloseComplete? && Progresses(st, m) == Onward(Stage(WantSync, []))
    ensures st.ph.WantSync? || st.ph.WantReady? ==> m.ReadyForQuery? && Progresses(st, m) == Ended
    ensures st.ph.WantDescribe? ==>
              && (m.RowDescription? || m.NoData?)
              && Progresses(st, m) == Onward(Stage(Rows(m.RowDescription?, st.ph.limited), []))
    ensures st.ph.Rows? ==>
              && (m.DataRow? || m.CommandComplete? || m.EmptyQueryResponse? || m.PortalSuspended?)
              && Progresses(st, m) == Onward(if m.DataRow? then st else Stage(WantSync, []))
  {
  }

  class ExtendedQuery {
    const operation: Operation
    const request: seq<Unit>   // what the constructors leave in the write buffer
    const handler: Recorder
    var state: State
    var transactionStatus: TransactionStatus
    var preparedStmt: Option<PreparedStatement>
    var pendingError: Option<ServerError>
    var columnBuffer: Bytes

    constructor (operation: Operation, idx: nat, handler: Recorder)
      ensures this.operation == operation && this.handler == handler && request == [Op(operation), SyncPoint]
      ensures state == Initial && pendingError == None && columnBuffer == []
      ensures preparedStmt == if operation.Prepare? then Some(PreparedStatement(idx, [], None)) else None
    {
      this.operation, this.handler, this.request := operation, handler, [Op(operation), SyncPoint];
      state, transactionStatus, pendingError, columnBuffer := Initial, Idle, None, [];
      preparedStmt := if operation.Prepare? then Some(PreparedStatement(idx, [], None)) else None;
    }

    /** The machine is where the server is. */
    predicate Follows(st: Stage)
      reads this
    {
      && st.todo == []
      && (pendingError.Some? <==> st.ph.WantReady?)
      && (preparedStmt.Some? <==> operation.Prepare?)
      && match st.ph
         case WantParse(then_) =>
           && state == WaitingParse
           && (match operation
               case Prepare(_, _, _) => then_ == ThenParameters
               case ExecuteSql(_, _) => then_ == ThenBind(ThenDescribe)
               case _ => false)
         case WantBind(after) =>
           state == WaitingBind && after == ThenDescribe && (operation.Execute? || operation.ExecuteSql?)
         case WantDescribe(_) => state == ProcessingRows && (operation.Execute? || operation.ExecuteSql?)
         case Rows(_, _) => state == ProcessingRows && (operation.Execute? || operation.ExecuteSql?)
         case WantParameters => state == WaitingDescribe && operation.Prepare?
         case WantColumns => state == WaitingRowDesc && operation.Prepare?
         case WantClose => state == WaitingReady
         case WantSync => state == WaitingReady
         case WantReady => state == WaitingReady
         case _ => false
    }

    method HandleParse(m: BackMsg) returns (r: Outcome<Action>)
      modifies this`state
      ensures m.ParseComplete? && (operation.ExecuteSql? || operation.Prepare?) ==>
                r == Done(ReadMessage) && state == if operation.Prepare? then WaitingDescribe else WaitingBind
    {
      if !m.ParseComplete? {
        return Fail(LibraryBug("expected ParseComplete"));
      }
      match operation {
        case ExecuteSql(_, _) => state := WaitingBind;
        case Prepare(_, _, _) => state := WaitingDescribe;
        case _ => return Fail(LibraryBug("handle_parse called for non-parse operation"));
      }
      return Done(ReadMessage);
    }

    method HandleDescribe(m: BackMsg) returns (r: Outcome<Action>)
      modifies this`state, this`preparedStmt
      ensures m.ParameterDescription? ==>
                r == Done(ReadMessage) && state == WaitingRowDesc && preparedStmt == Learned(old(preparedStmt), [m])
    {
      if !m.ParameterDescription? {
        return Fail(LibraryBug("expected ParameterDescription"));
      }
      if preparedStmt.Some? {
        preparedStmt := Some(preparedStmt.value.(paramOids := m.oids));
      }
      assert [m][1..] == [];
      state := WaitingRowDesc;
      return Done(ReadMessage);
    }

    method HandleRowDesc(m: BackMsg) returns (r: Outcome<Action>)
      modifies this`state, this`preparedStmt
      ensures m.RowDescription? || m.NoData? ==>
                r == Done(ReadMessage) && state == WaitingReady && preparedStmt == Learned(old(preparedStmt), [m])
    {
      assert [m][1..] == [];
      match m {
        case RowDescription(cols) =>
          if preparedStmt.Some? {
            preparedStmt := Some(preparedStmt.value.(rowDesc := Some(cols)));
          }
        case NoData =>
        case _ => return Fail(LibraryBug("expected RowDescription or NoData"));
      }
      state := WaitingReady;
      return Done(ReadMessage);
    }

    method HandleBind(m: BackMsg) returns (r: Outcome<Action>)
      modifies this`state, this`columnBuffer, handler
      ensures m.BindComplete? ==>
                && r == Done(ReadMessage) && state == ProcessingRows && columnBuffer == old(columnBuffer)
                && handler.log == old(handler.log) && handler.refused == old(handler.refused)
    {
      match m {
        case BindComplete =>
        case RowDescription(cols) =>
          columnBuffer := cols;
          var _ :- handler.Call(ResultStart(cols));
        case _ => return Fail(LibraryBug("expected BindComplete"));
      }
      state := ProcessingRows;
      return Done(ReadMessage);
    }

    method HandleRows(m: BackMsg) returns (r: Outcome<Action>)
      modifies this`state, this`columnBuffer, this`transactionStatus, handler
      ensures var legal := m.RowDescription? || m.NoData? || m.DataRow? || m.CommandComplete?
                           || m.EmptyQueryResponse? || m.PortalSuspended?;
              legal && !operation.Prepare? ==>
                && (r == Done(ReadMessage) || (!r.Done? && handler.refused)) && (handler.Obliging() ==> r.Done?)
                && (r.Done? ==> handler.refused == old(handler.refused))
                && handler.log == old(handler.log) + Calls(true, old(columnBuffer), [m])
                && columnBuffer == (if m.RowDescription? then m.cols else old(columnBuffer))
                && (r.Done? ==>
                      state == if m.RowDescription? || m.NoData? || m.DataRow? then old(state) else WaitingReady)
    {
      assert [m][1..] == [];
      match m {
        case RowDescription(cols) =>
          columnBuffer := cols;
          var _ :- handler.Call(ResultStart(cols));
        case NoData =>
        case DataRow(row) =>
          var _ :- handler.Call(Row(columnBuffer, row));
        case CommandComplete(tag) =>
          var _ :- handler.Call(ResultEnd(tag));
          state := WaitingReady;
        case EmptyQueryResponse => state := WaitingReady;
        case PortalSuspended => state := WaitingReady;
        case ReadyForQuery(status) =>
          transactionStatus := StatusOf(status);
          state := Finished;
          return Done(Finish);
        case _ => return Fail(LibraryBug("unexpected message in rows"));
      }
      return Done(ReadMessage);
    }

    method HandleReady(m: BackMsg) returns (r: Outcome<Action>)
      modifies this`state, this`transactionStatus, this`pendingError
      ensures m.ReadyForQuery? ==>
                && state == Finished && transactionStatus == StatusOf(m.status)
                && r == Done(match old(pendingError) case Some(e) => Report(e) case None => Finish)
      ensures m.CloseComplete? ==>
                r == Done(ReadMessage) && state == old(state) && pendingError == old(pendingError)
    {
      match m {
        case ReadyForQuery(status) =>
          transactionStatus := StatusOf(status);
          state := Finished;
          if pendingError.Some? {
            var e := pendingError.value;
            pendingError := None;
            return Done(Report(e));
          }
          return Done(Finish);
        case CloseComplete => return Done(ReadMessage);
        case _ => return Fail(LibraryBug("expected ReadyForQuery"));
      }
    }

    /** A message that is neither asynchronous nor an error. */
    method Handle(m: BackMsg, ghost st: Stage) returns (r: Outcome<Action>)
      requires state != Initial && state != Finished && !m.Async? && !m.ErrorResponse?
      modifies this, handler
      ensures old(Follows(st)) && !Progresses(st, m).Unexpected? ==>
                && handler.log == old(handler.log) + Calls(!operation.Prepare?, old(columnBuffer), [m])
                && preparedStmt == (if operation.Prepare? then Learned(old(preparedStmt), [m]) else None)
                && (!r.Done? ==> handler.refused) && (handler.Obliging() ==> r.Done?)
                && (r.Done? ==> handler.refused == old(handler.refused))
                && columnBuffer == (if m.RowDescription? && !operation.Prepare? then m.cols else old(columnBuffer))
                && match Progresses(st, m)
                   case Onward(st') =>
                     r.Done? ==> r.value.Reads() && Follows(st') && state != Finished && state != Initial
                                 && pendingError == old(pendingError)
                   case Ended =>
                     && state == Finished && m.ReadyForQuery? && transactionStatus == StatusOf(m.status)
                     && r == Done(match old(pendingError) case Some(e) => Report(e) case None => Finish)
                   case _ => false
    {
      hide Calls, Learned, StatusOf, Rest, Reply, Chain, Units, Flatten, Progresses, Next, Recorder.Obliging;
      OneCall(!operation.Prepare?, columnBuffer, m);
      LearnedOne(preparedStmt, [m]);
      if Follows(st) && !Progresses(st, m).Unexpected? {
        MovesOn(st, m);
      }
      match state {
        case WaitingParse => r := HandleParse(m);
        case WaitingDescribe => r := HandleDescribe(m);
        case WaitingRowDesc => r := HandleRowDesc(m);
        case WaitingBind => r := HandleBind(m);
        case ProcessingRows => r := HandleRows(m);
        case WaitingReady => r := HandleReady(m);
      }
    }

    /** One step. Given a message the protocol allows where the server is, the
        machine moves on with the server, makes exactly the callbacks the
        message stands for, and finishes on ReadyForQuery alone, with the last
        error if there was one. */
    method Step(m: BackMsg, ghost st: Stage) returns (r: Outcome<Action>)
      requires state != Finished
      modifies this, handler
      ensures old(state == Initial && pendingError == None && (preparedStmt.Some? <==> operation.Prepare?)) ==>
                && r == Done(WriteAndReadMessage) && pendingError == None && Follows(Opening([Op(operation)]))
                && handler.log == old(handler.log) && handler.refused == old(handler.refused)
                && columnBuffer == old(columnBuffer) && preparedStmt == old(preparedStmt)
      ensures old(state != Initial && Follows(st)) && !Progresses(st, m).Unexpected? ==>
                && handler.log == old(handler.log) + Calls(!operation.Prepare?, old(columnBuffer), [m])
                && preparedStmt == (if operation.Prepare? then Learned(old(preparedStmt), [m]) else None)
                && (!r.Done? ==> handler.refused) && (handler.Obliging() ==> r.Done?)
                && (r.Done? ==> handler.refused == old(handler.refused))
                && (m.RowDescription? && !operation.Prepare? ==> columnBuffer == m.cols)
                && (!m.RowDescription? || operation.Prepare? ==> columnBuffer == old(columnBuffer))
                && match Progresses(st, m)
                   case Onward(st') =>
                     r.Done? ==>
                       && r.value.Reads() && Follows(st') && state != Finished && state != Initial
                       && pendingError == (if m.ErrorResponse? then Some(m.error) else old(pendingError))
                   case Ended =>
                     && state == Finished && m.ReadyForQuery? && transactionStatus == StatusOf(m.status)
                     && r == Done(match old(pendingError) case Some(e) => Report(e) case None => Finish)
                   case _ => r.Done? && r.value.Reads() && state != Finished
    {
      hide Calls, Learned, StatusOf, Rest, Reply, Chain, Units, Flatten, Recorder.Obliging;
      OneCall(!operation.Prepare?, columnBuffer, m);
      LearnedOne(preparedStmt, [m]);
      if state == Initial {
        state := match operation
          case Prepare(_, _, _) => WaitingParse
          case Execute(_, _) => WaitingBind
          case ExecuteSql(_, _) => WaitingParse
          case CloseStatement(_) => WaitingReady;
        return Done(WriteAndReadMessage);
      }
      if m.Async? {
        return Done(HandleAsyncMessageAndReadMessage(m.notice));
      }
      if m.ErrorResponse? {
        pendingError := Some(m.error);
        state := WaitingReady;
        return Done(ReadMessage);
      }
      hide Progresses, Follows;
      r := Handle(m, st);
    }

    /** In the middle of the exchange `t`, of which `u` is left, the callbacks
        made, the statement learned and the error seen so far, and those `u`
        stands for, are together those of `t`. */
    ghost predicate Runs(st: Stage, u: seq<BackMsg>, t: seq<BackMsg>,
                         calls: seq<Callback>, stmt: Option<PreparedStatement>)
      reads this, handler
    {
      && Rest(st, u) && Follows(st) && state != Initial && state != Finished
      && handler.log + Calls(!operation.Prepare?, columnBuffer, u) == calls + Calls(!operation.Prepare?, [], t)
      && (preparedStmt.Some? <==> operation.Prepare?)
      && Learned(preparedStmt, u) == Learned(stmt, t)
      && ErrorIn(u, Raised(pendingError)) == ErrorIn(t, Done(()))
      && t != [] && u[|u| - 1] == t[|t| - 1]
    }

    lemma Starts(t: seq<BackMsg>)
      requires Rest(Opening([Op(operation)]), t) && Follows(Opening([Op(operation)]))
      requires columnBuffer == [] && pendingError == None
      ensures Runs(Opening([Op(operation)]), t, t, handler.log, preparedStmt)
    {
    }

    /** One step inside an exchange. */
    method Advance(m: BackMsg, ghost st: Stage, ghost u: seq<BackMsg>, ghost t: seq<BackMsg>,
                   ghost calls: seq<Callback>, ghost stmt: Option<PreparedStatement>)
      returns (r: Outcome<Action>, ghost st': Stage)
      requires Runs(st, u, t, calls, stmt) && m == u[0]
      modifies this, handler
      ensures r.Done? ==> r.value != WriteAndReadMessage
      ensures r.Done? && r.value.Reads() && u[1..] != [] ==> Runs(st', u[1..], t, calls, stmt)
      ensures handler.Obliging() ==> r.Done?
      ensures r.Done? && r.value.Reads() && Survives(u) ==> u[1..] != [] && Survives(u[1..])
      ensures old(handler.log) <= handler.log <= calls + Calls(!operation.Prepare?, [], t)
      ensures Stopped(r) ==>
                && u == [m] && m.ReadyForQuery? && m == t[|t| - 1] && transactionStatus == StatusOf(m.status)
                && handler.log == calls + Calls(!operation.Prepare?, [], t)
                && preparedStmt == Learned(stmt, t)
                && ErrorIn(t, Done(())) == (if r.value.Report? then Fail(ServerFailure(r.value.error)) else Done(()))
    {
      hide Calls, Learned, ErrorIn, Rest, StatusOf, Progresses, Follows, Survives, handler.Obliging;
      Head(st, u);
      UnfoldCalls(!operation.Prepare?, columnBuffer, u);
      LearnedOne(preparedStmt, u);
      UnfoldError(u, Raised(pendingError));
      NothingLeft(!operation.Prepare?, columnBuffer, preparedStmt);
      st' := if Progresses(st, m).Onward? then Progresses(st, m).next else st;
      r := Step(m, st);
    }
  }
}
