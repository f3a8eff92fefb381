/** The simple query machine: one string, any number of results. */
module SimpleQueries {
  import opened Protocol
  import opened Server
  import opened Exchange
  import opened Machines

  datatype State = Initial | WaitingResponse | ProcessingRows | WaitingReady | Finished

  /** Where a handler is: between two results, or inside one. */
  datatype Cursor = Between | Inside(cols: Bytes)

  /** Repetitions of a start, rows and an end, or of an end alone: where such
      callbacks lead from `cur`, unless they are none. */
  function Walk(cur: Cursor, cs: seq<Callback>): Option<Cursor>
    decreases cs
  {
    if cs == [] then Some(cur)
    else
      match cs[0]
      case ResultStart(c) => if cur.Between? then Walk(Inside(c), cs[1..]) else None
      case Row(c, _) => if cur == Inside(c) then Walk(cur, cs[1..]) else None
      case ResultEnd(_) => Walk(Between, cs[1..])
  }

  lemma {:induction false} WalkOn(cur: Cursor, cs: seq<Callback>, c: Callback)
    ensures Walk(cur, cs + [c]) == if Walk(cur, cs).None? then None else Walk(Walk(cur, cs).value, [c])
    decreases cs
  {
    if cs == [] {
      assert [] + [c] == [c];
    } else {
      assert (cs + [c])[1..] == cs[1..] + [c];
      WalkOn(match cs[0] case ResultStart(c') => Inside(c') case Row(_, _) => cur case ResultEnd(_) => Between,
             cs[1..], c);
    }
  }

  lemma WalkOne(cur: Cursor, c: Callback)
    ensures Walk(cur, [c]) ==
            match c
            case ResultStart(cols) => if cur.Between? then Some(Inside(cols)) else None
            case Row(cols, _) => if cur == Inside(cols) then Some(cur) else None
            case ResultEnd(_) => Some(Between)
  {
    assert [c][1..] == [];
  }

  /** The callbacks are whole results, or a prefix of such. */
  predicate Results(cs: seq<Callback>) {
    Walk(Between, cs).Some?
  }

  class SimpleQuery {
    const handler: Recorder
    const query: string
    const before: nat    // callbacks made before this machine was created
    var state: State
    var transactionStatus: TransactionStatus
    var pendingError: Option<ServerError>
    var columnBuffer: Bytes

    constructor (handler: Recorder, query: string)
      ensures this.handler == handler && this.query == query && before == |handler.log|
      ensures state == Initial && pendingError == None && columnBuffer == [] && Shaped()
    {
      this.handler, this.query, before := handler, query, |handler.log|;
      state, transactionStatus, pendingError, columnBuffer := Initial, Idle, None, [];
    }

    ghost function Made(): seq<Callback>
      requires before <= |handler.log|
      reads this, handler
    {
      handler.log[before..]
    }

    /** What holds whatever the server sends: the callbacks made so far are
        results, and the state says where among them the handler is. */
    ghost predicate Shaped()
      reads this, handler
    {
      && before <= |handler.log|
      && Results(Made())
      && (state == Initial || state == WaitingResponse ==> Walk(Between, Made()) == Some(Between))
      && (state == ProcessingRows ==> Walk(Between, Made()) == Some(Inside(columnBuffer)))
    }

    /** The machine is where the server is. */
    predicate Follows(st: Stage)
      reads this
    {
      && st.todo == []
      && (pendingError.Some? ==> st.ph.WantReady?)
      && match st.ph
         case QueryResponse => state == WaitingResponse
         case QueryRows => state == ProcessingRows
         case WantReady => state == WaitingReady
         case _ => false
    }

    method Call(c: Callback) returns (r: Outcome<()>)
      requires before <= |handler.log|
      modifies handler
      ensures handler.log == old(handler.log) + [c] && Made() == old(Made()) + [c]
      ensures Walk(Between, Made()) ==
              if old(Walk(Between, Made())).None? then None else
              var cur := old(Walk(Between, Made())).value;
              match c
              case ResultStart(cols) => if cur.Between? then Some(Inside(cols)) else None
              case Row(cols, _) => if cur == Inside(cols) then Some(cur) else None
              case ResultEnd(_) => Some(Between)
      ensures r.Done? ==> handler.refused == old(handler.refused)
      ensures !r.Done? ==> handler.refused
      ensures handler.Obliging() ==> r.Done?
    {
      WalkOn(Between, Made(), c);
      WalkOne(if Walk(Between, Made()).Some? then Walk(Between, Made()).value else Between, c);
      hide Walk;
      r := handler.Call(c);
      assert Made() == old(Made()) + [c];
    }

    method HandleResponse(m: BackMsg) returns (r: Outcome<Action>)
      requires Shaped() && state == WaitingResponse
      modifies this`state, this`transactionStatus, this`columnBuffer, handler
      ensures before <= |handler.log| && Results(Made()) && (r.Done? ==> Shaped())
      ensures handler.log == old(handler.log) + Calls(true, old(columnBuffer), [m]) || !r.Done?
      ensures r.Done? ==> handler.refused == old(handler.refused)
      ensures m.ReadyForQuery? ==>
                r == Done(Finish) && state == Finished && transactionStatus == StatusOf(m.status)
      ensures m.RowDescription? || m.CommandComplete? || m.EmptyQueryResponse? ==>
                && handler.log == old(handler.log) + Calls(true, old(columnBuffer), [m])
                && (r == Done(ReadMessage) || (!r.Done? && handler.refused)) && (handler.Obliging() ==> r.Done?)
                && (m.RowDescription? ==> columnBuffer == m.cols)
      ensures m.EmptyQueryResponse? ==> r.Done?
      ensures !m.RowDescription? ==> columnBuffer == old(columnBuffer)
      ensures r.Done? ==>
                match m
                case RowDescription(_) => r.value == ReadMessage && state == ProcessingRows
                case CommandComplete(_) => r.value == ReadMessage && state == WaitingResponse
                case EmptyQueryResponse => r.value == ReadMessage && state == WaitingReady
                case ReadyForQuery(_) => true
                case _ => false
    {
      OneCall(true, columnBuffer, m);
      hide Walk, Calls, StatusOf;
      match m {
        case RowDescription(cols) =>
          columnBuffer := cols;
          var _ :- Call(ResultStart(cols));
          state := ProcessingRows;
        case CommandComplete(tag) =>
          var _ :- Call(ResultEnd(tag));
          state := WaitingResponse;
        case EmptyQueryResponse =>
          state := WaitingReady;
        case ReadyForQuery(status) =>
          transactionStatus := StatusOf(status);
          state := Finished;
          return Done(Finish);
        case _ =>
          return Fail(LibraryBug("unexpected message in query response"));
      }
      return Done(ReadMessage);
    }

    method HandleRows(m: BackMsg) returns (r: Outcome<Action>)
      requires Shaped() && state == ProcessingRows
      modifies this`state, this`transactionStatus, handler
      ensures before <= |handler.log| && Results(Made()) && (r.Done? ==> Shaped())
      ensures handler.log == old(handler.log) + Calls(true, columnBuffer, [m]) || !r.Done?
      ensures r.Done? ==> handler.refused == old(handler.refused)
      ensures m.ReadyForQuery? ==>
                r == Done(Finish) && state == Finished && transactionStatus == StatusOf(m.status)
      ensures m.DataRow? || m.CommandComplete? ==>
                && handler.log == old(handler.log) + Calls(true, columnBuffer, [m])
                && (r == Done(ReadMessage) || (!r.Done? && handler.refused)) && (handler.Obliging() ==> r.Done?)
      ensures r.Done? ==>
                match m
                case DataRow(_) => r.value == ReadMessage && state == ProcessingRows
                case CommandComplete(_) => r.value == ReadMessage && state == WaitingResponse
                case ReadyForQuery(_) => true
                case _ => false
    {
      OneCall(true, columnBuffer, m);
      hide Walk, Calls, StatusOf;
      match m {
        case DataRow(row) =>
          var _ :- Call(Row(columnBuffer, row));
        case CommandComplete(tag) =>
          var _ :- Call(ResultEnd(tag));
          state := WaitingResponse;
        case ReadyForQuery(status) =>
          transactionStatus := StatusOf(status);
          state := Finished;
          return Done(Finish);
        case _ =>
          return Fail(LibraryBug("unexpected message in row processing"));
      }
      return Done(ReadMessage);
    }

    method HandleReady(m: BackMsg) returns (r: Outcome<Action>)
      modifies this`state, this`transactionStatus, this`pendingError
      ensures !m.ReadyForQuery? ==> r.Fail? && state == old(state)
      ensures m.ReadyForQuery? ==>
                && state == Finished && transactionStatus == StatusOf(m.status)
                && r == Done(match old(pendingError) case Some(e) => Report(e) case None => Finish)
    {
      if !m.ReadyForQuery? {
        return Fail(LibraryBug("expected ReadyForQuery"));
      }
      transactionStatus := StatusOf(m.status);
      state := Finished;
      if pendingError.Some? {
        var e := pendingError.value;
        pendingError := None;
        return Done(Report(e));
      }
      return Done(Finish);
    }

    /** One step. Whatever the server sends, the callbacks stay results and
        the machine stops with success, or with the pending error, only on
        ReadyForQuery; given a message the protocol allows it moves on with
        the server. */
    method Step(m: BackMsg, ghost st: Stage) returns (r: Outcome<Action>)
      requires state != Finished && Shaped()
      modifies this, handler
      ensures before <= |handler.log| && Results(Made()) && (r.Done? ==> Shaped())
      ensures old(state) == Initial ==>
                && r == Done(WriteAndReadMessage) && handler.log == old(handler.log)
                && handler.refused == old(handler.refused) && columnBuffer == old(columnBuffer)
                && pendingError == old(pendingError) && state == WaitingResponse
                && (pendingError == None ==> Follows(Stage(QueryResponse, [])))
      ensures old(state) != Initial && r.Done? ==>
                && handler.log == old(handler.log) + Calls(true, old(columnBuffer), [m])
                && columnBuffer == (if m.RowDescription? then m.cols else old(columnBuffer))
                && handler.refused == old(handler.refused)
                && (r.value.Reads() <==> !m.ReadyForQuery?)
                && (m.ReadyForQuery? ==>
                      && state == Finished && transactionStatus == StatusOf(m.status)
                      && (r.value == Finish || (old(pendingError).Some? && r.value == Report(old(pendingError).value))))
                && (!m.ReadyForQuery? ==> state != Finished && state != Initial)
      ensures old(state) != Initial && m.ReadyForQuery? ==> r.Done?
      ensures old(state != Initial && Follows(st)) && !Progresses(st, m).Unexpected? ==>
                && handler.log == old(handler.log) + Calls(true, old(columnBuffer), [m])
                && (!r.Done? ==> handler.refused) && (handler.Obliging() ==> r.Done?)
                && match Progresses(st, m)
                   case Onward(st') =>
                     r.Done? ==>
                       && Follows(st')
                       && pendingError == (if m.ErrorResponse? then Some(m.error) else old(pendingError))
                   case Ended =>
                     r == Done(match old(pendingError) case Some(e) => Report(e) case None => Finish)
                   case _ => r.Done?
    {
      hide Calls, StatusOf, Walk;
      OneCall(true, columnBuffer, m);
      if state == Initial {
        state := WaitingResponse;
        return Done(WriteAndReadMessage);
      }
      if m.Async? {
        return Done(HandleAsyncMessageAndReadMessage(m.notice));
      }
      if m.ErrorResponse? {
        pendingError := Some(m.error);
        state := WaitingReady;
        return Done(ReadMessage);
      }
      match state {
        case WaitingResponse => r := HandleResponse(m);
        case ProcessingRows => r := HandleRows(m);
        case WaitingReady => r := HandleReady(m);
      }
    }

    /** In the middle of the exchange `t`, of which `u` is left. */
    ghost predicate Runs(st: Stage, u: seq<BackMsg>, t: seq<BackMsg>, calls: seq<Callback>)
      reads this, handler
    {
      && Rest(st, u) && Follows(st) && state != Initial && state != Finished && Shaped()
      && handler.log + Calls(true, columnBuffer, u) == calls + Calls(true, [], t)
      && ErrorIn(u, Raised(pendingError)) == ErrorIn(t, Done(()))
      && t != [] && u[|u| - 1] == t[|t| - 1]
    }

    lemma Starts(t: seq<BackMsg>)
      requires Rest(Stage(QueryResponse, []), t) && Follows(Stage(QueryResponse, [])) && Shaped()
      requires columnBuffer == [] && pendingError == None
      ensures Runs(Stage(QueryResponse, []), t, t, handler.log)
    {
    }

    /** One step inside an exchange. */
    method Advance(m: BackMsg, ghost st: Stage, ghost u: seq<BackMsg>, ghost t: seq<BackMsg>,
                   ghost calls: seq<Callback>)
      returns (r: Outcome<Action>, ghost st': Stage)
      requires Runs(st, u, t, calls) && m == u[0]
      modifies this, handler
      ensures before <= |handler.log| && Results(Made())
      ensures r.Done? ==> r.value != WriteAndReadMessage
      ensures r.Done? && r.value.Reads() && u[1..] != [] ==> Runs(st', u[1..], t, calls)
      ensures handler.Obliging() ==> r.Done?
      ensures r.Done? && r.value.Reads() && Survives(u) ==> u[1..] != [] && Survives(u[1..])
      ensures Stopped(r) ==>
                && u == [m] && m.ReadyForQuery? && m == t[|t| - 1] && transactionStatus == StatusOf(m.status)
                && handler.log == calls + Calls(true, [], t)
                && ErrorIn(t, Done(())) == (if r.value.Report? then Fail(ServerFailure(r.value.error)) else Done(()))
    {
      hide Calls, ErrorIn, Rest, StatusOf, Progresses, Follows, Walk, Survives, handler.Obliging;
      Head(st, u);
      UnfoldCalls(true, columnBuffer, u);
      UnfoldError(u, Raised(pendingError));
      NothingLeft(true, columnBuffer, None);
      st' := if Progresses(st, m).Onward? then Progresses(st, m).next else st;
      r := Step(m, st);
    }

    static lemma NotStarted(ms: seq<BackMsg>)
      ensures Calls(true, [], ms[..0]) == [] && Columns([], ms[..0]) == []
    {
    }

    /** The driver's loop over any messages at all, conforming or not: up to
        its end the callbacks are results, it stops with success only on the
        first ReadyForQuery, and it made exactly the callbacks the messages up
        to there stand for. */
    method Replay(ms: seq<BackMsg>) returns (r: Outcome<Action>, n: nat)
      requires state == Initial && Shaped() && pendingError == None && columnBuffer == []
      modifies this, handler
      ensures before <= |handler.log| && Results(Made()) && n <= |ms|
      ensures r.Done? && r.value.Reads() ==> n == |ms|
      ensures Stopped(r) <==> n > 0 && ms[n - 1].ReadyForQuery?
      ensures forall i | 0 <= i < n - 1 :: !ms[i].ReadyForQuery?
      ensures Stopped(r) ==> transactionStatus == StatusOf(ms[n - 1].status)
      ensures r.Done? ==> handler.log == old(handler.log) + Calls(true, [], ms[..n])
    {
      hide Calls, Columns, StatusOf, Walk, Results, Shaped, Progresses, Opening, Follows, Next, Recorder.Obliging;
      NotStarted(ms);
      r := Step(BackMsg.NoData, Stage(WantReady, []));
      r, n := Done(ReadMessage), 0;
      while n < |ms| && r.Done? && r.value.Reads()
        invariant n <= |ms| && before <= |handler.log| && Results(Made())
        invariant r.Done? ==>
                    handler.log == old(handler.log) + Calls(true, [], ms[..n]) && columnBuffer == Columns([], ms[..n])
        invariant r.Done? && r.value.Reads() ==> Shaped() && state != Initial && state != Finished
        invariant Stopped(r) <==> n > 0 && ms[n - 1].ReadyForQuery?
        invariant forall i | 0 <= i < n - 1 :: !ms[i].ReadyForQuery?
        invariant Stopped(r) ==> transactionStatus == StatusOf(ms[n - 1].status)
      {
        r := Step(ms[n], Stage(WantReady, []));
        CallsOn(true, [], ms[..n], ms[n]);
        assert ms[..n + 1] == ms[..n] + [ms[n]];
        n := n + 1;
      }
    }
  }
}
