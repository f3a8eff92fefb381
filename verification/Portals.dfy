/** Binding a portal without executing it. */
module Portals {
  import opened Protocol
  import opened Server
  import opened Exchange
  import opened Machines

  datatype BindState = Initial | WaitingParse | WaitingBind | Finished

  class Binding {
    const needsParse: bool
    const request: seq<Unit>   // what the constructor leaves in the write buffer
    var state: BindState

    constructor (portal: string, source: Source, params: nat)
      ensures needsParse == source.Sql? && state == Initial && request == [Bind(portal, source, params)]
    {
      needsParse, request := source.Sql?, [Bind(portal, source, params)];
      state := Initial;
    }

    predicate Follows(ph: Phase)
      reads this
    {
      match ph
      case WantParse(then_) => state == WaitingParse && then_ == ThenBind(ThenNothing)
      case WantBind(after) => state == WaitingBind && after == ThenNothing
      case _ => false
    }

    /** One step: there is no Sync, so an error is raised at once. */
    method Step(m: BackMsg, ghost ph: Phase) returns (r: Outcome<Action>)
      modifies this
      ensures old(state) == Initial ==>
                && r == Done(WriteAndReadMessage)
                && Follows(if needsParse then WantParse(ThenBind(ThenNothing)) else WantBind(ThenNothing))
      ensures old(Follows(ph)) && m.ErrorResponse? ==> r == Fail(ServerFailure(m.error))
      ensures old(Follows(ph)) && !m.ErrorResponse? ==>
                match Next(ph, m)
                case Illegal => true
                case More(ph') => r == Done(ReadMessage) && Follows(ph')
                case Last => r == Done(Finish) && state == Finished && m == BindComplete
    {
      if state == Initial {
        state := if needsParse then WaitingParse else WaitingBind;
        return Done(WriteAndReadMessage);
      }
      if m.Async? {
        return Done(ReadMessage);
      }
      if m.ErrorResponse? {
        return Fail(ServerFailure(m.error));
      }
      match state {
        case WaitingParse =>
          if !m.ParseComplete? {
            return Fail(LibraryBug("expected ParseComplete"));
          }
          state := WaitingBind;
          return Done(ReadMessage);
        case WaitingBind =>
          if !m.BindComplete? {
            return Fail(LibraryBug("expected BindComplete"));
          }
          state := Finished;
          return Done(Finish);
        case Finished => return Fail(LibraryBug("unexpected state"));
      }
    }
  }

  /** What a caller's closure does with a portal handle: fetch rows, passing
      a failure on or ignoring it; return an error of its own; or never be
      resumed. */
  datatype PortalStep = FetchRows(maxRows: nat, propagate: bool) | GiveUp | Vanish

  /** The fetches of a closure no fetch of which fails. */
  function Fetches(script: seq<PortalStep>): seq<Unit> {
    if script == [] || !script[0].FetchRows? then [] else [Fetch("", script[0].maxRows)] + Fetches(script[1..])
  }

  /** The closure ends by itself and with success, unless a fetch fails. */
  predicate Completes(script: seq<PortalStep>) {
    script == [] || (script[0].FetchRows? && Completes(script[1..]))
  }

  /** The closure returns, with success or not. */
  predicate Returns(script: seq<PortalStep>) {
    script == [] || script[0].GiveUp? || (script[0].FetchRows? && Returns(script[1..]))
  }

  lemma ScriptStep(script: seq<PortalStep>, i: nat)
    requires i <= |script|
    ensures i < |script| && Returns(script[i..]) ==>
              !script[i].Vanish? && (script[i].FetchRows? ==> Returns(script[i + 1..]))
    ensures i == |script| ==> Fetches(script[i..]) == [] && Completes(script[i..])
    ensures i < |script| && script[i].FetchRows? ==>
              && Fetches(script[i..]) == [Fetch("", script[i].maxRows)] + Fetches(script[i + 1..])
              && Completes(script[i..]) == Completes(script[i + 1..])
    ensures i < |script| && !script[i].FetchRows? ==> Fetches(script[i..]) == [] && !Completes(script[i..])
  {
    if i < |script| {
      assert script[i..][1..] == script[i + 1..];
    }
  }

  /** The callbacks of one fetch are one result, or the part of it that fits. */
  lemma {:induction false} FetchedRows(cols: Bytes, has: bool, limited: bool, t: seq<BackMsg>)
    requires Reply(Rows(has, limited), t)
    ensures var cs := Calls(true, cols, t);
            RowsThenEnd(cols, cs) && RowsIn(cs) == RowsOf(t) && (!has ==> OneResult(cs))
    decreases t
  {
    hide Reply, Calls;
    Server.AdvanceRest(Rows(has, limited), t);
    UnfoldCalls(true, cols, t);
    OneCall(true, cols, t[0]);
    NothingLeft(true, cols, None);
    var rest := Calls(true, cols, t[1..]);
    if t[0].DataRow? || t[0].Async? {
      FetchedRows(cols, has, limited, t[1..]);
      assert t[0].Async? ==> [] + rest == rest;
      assert t[0].DataRow? ==> ([Row(cols, t[0].row)] + rest)[1..] == rest;
    }
  }

  lemma {:induction false} FetchShape(cols: Bytes, limited: bool, t: seq<BackMsg>)
    requires Reply(WantDescribe(limited), t)
    ensures OneResult(Calls(true, cols, t)) && RowsIn(Calls(true, cols, t)) == RowsOf(t)
    decreases t
  {
    hide Reply, Calls, RowsThenEnd;
    Server.AdvanceRest(WantDescribe(limited), t);
    UnfoldCalls(true, cols, t);
    OneCall(true, cols, t[0]);
    NothingLeft(true, cols, None);
    match t[0] {
      case RowDescription(cols') =>
        FetchedRows(cols', true, limited, t[1..]);
        assert ([ResultStart(cols')] + Calls(true, cols', t[1..]))[1..] == Calls(true, cols', t[1..]);
      case NoData =>
        FetchedRows(cols, false, limited, t[1..]);
        assert [] + Calls(true, cols, t[1..]) == Calls(true, cols, t[1..]);
      case ErrorResponse(_) =>
      case Async(_) =>
        FetchShape(cols, limited, t[1..]);
        assert [] + Calls(true, cols, t[1..]) == Calls(true, cols, t[1..]);
    }
  }

  /** Hand one message of a fetch to the handler. A value says that the fetch
      is over, and whether rows are left. */
  method Deliver(m: BackMsg, columnBuffer: Bytes, handler: Recorder)
    returns (r: Outcome<Option<bool>>, columnBuffer': Bytes)
    modifies handler
    ensures old(handler.log) <= handler.log
    ensures handler.Obliging() ==> r.Done? || !(m.RowDescription? || m.NoData? || m.DataRow? || m.CommandComplete?)
    ensures m.PortalSuspended? ==> r.Done?
    ensures r.Done? ==>
              && handler.log == old(handler.log) + Calls(true, columnBuffer, [m])
              && columnBuffer' == (if m.RowDescription? then m.cols else columnBuffer)
              && match m
                 case RowDescription(_) | NoData | DataRow(_) => r.value == None
                 case CommandComplete(_) => r.value == Some(false)
                 case PortalSuspended => r.value == Some(true)
                 case _ => false
  {
    OneCall(true, columnBuffer, m);
    columnBuffer' := columnBuffer;
    match m {
      case RowDescription(cols) =>
        columnBuffer' := cols;
        var _ :- handler.Call(ResultStart(cols));
      case NoData =>
      case DataRow(row) =>
        var _ :- handler.Call(Row(columnBuffer, row));
      case CommandComplete(tag) =>
        var _ :- handler.Call(ResultEnd(tag));
        return Done(Some(false)), columnBuffer';
      case PortalSuspended =>
        return Done(Some(true)), columnBuffer';
      case ErrorResponse(error) =>
        return Fail(ServerFailure(error)), columnBuffer';
      case _ =>
        return Fail(LibraryBug("unexpected message in execute")), columnBuffer';
    }
    return Done(None), columnBuffer';
  }

  /** A fetch under way: `u` is left of its reply `t`. */
  ghost predicate Fetching(ph: Phase, u: seq<BackMsg>, t: seq<BackMsg>, cols: Bytes,
                           log: seq<Callback>, before: seq<Callback>) {
    && Reply(ph, u) && (ph.WantDescribe? || ph.Rows?)
    && t != [] && u[|u| - 1] == t[|t| - 1]
    && (HasError(u) <==> HasError(t))
    && log + Calls(true, cols, u) == before + Calls(true, [], t)
  }

  lemma FetchPhases(ph: Phase, m: BackMsg)
    requires (ph.WantDescribe? || ph.Rows?) && !Next(ph, m).Illegal?
    ensures m.CommandComplete? || m.PortalSuspended? ==> Next(ph, m) == Last
    ensures m.Async? ==> Next(ph, m) == More(ph)
    ensures m.Async? || m.ErrorResponse? || m.EmptyQueryResponse? || m.RowDescription? || m.NoData? || m.DataRow?
            || m.CommandComplete? || m.PortalSuspended?
    ensures m.RowDescription? || m.NoData? || m.DataRow? ==> Next(ph, m).More? && Next(ph, m).next.Rows?
  {
  }

  lemma FetchHead(ph: Phase, u: seq<BackMsg>, t: seq<BackMsg>, cols: Bytes, log: seq<Callback>, before: seq<Callback>)
    requires Fetching(ph, u, t, cols, log, before)
    ensures !Next(ph, u[0]).Illegal?
    ensures Next(ph, u[0]) == Last ==> u == [u[0]] && u[0] == t[|t| - 1]
    ensures Next(ph, u[0]).More? ==>
              && Reply(Next(ph, u[0]).next, u[1..]) && u[1..][|u[1..]| - 1] == t[|t| - 1]
    ensures HasError(t) <==> u[0].ErrorResponse? || HasError(u[1..])
    ensures HasEmpty(u) <==> u[0].EmptyQueryResponse? || HasEmpty(u[1..])
    ensures before + Calls(true, [], t) ==
            log + Calls(true, cols, [u[0]]) + Calls(true, if u[0].RowDescription? then u[0].cols else cols, u[1..])
  {
    hide Reply, HasError, HasEmpty, Calls, Next;
    Server.AdvanceRest(ph, u);
    ErrorAhead(u);
    UnfoldCalls(true, cols, u);
  }

  /** The next message of a fetch, and what remains of it. */
  lemma FetchStep(ph: Phase, u: seq<BackMsg>, t: seq<BackMsg>, cols: Bytes, log: seq<Callback>, before: seq<Callback>)
    requires Fetching(ph, u, t, cols, log, before)
    ensures u[0].CommandComplete? || u[0].PortalSuspended? ==>
              && u[1..] == [] && u[0] == t[|t| - 1] && !HasError(t)
              && log + Calls(true, cols, [u[0]]) == before + Calls(true, [], t)
    ensures u[0].Async? ==> Fetching(ph, u[1..], t, cols, log, before)
    ensures u[0].RowDescription? || u[0].NoData? || u[0].DataRow? ==>
              && Next(ph, u[0]).More?
              && Fetching(Next(ph, u[0]).next, u[1..], t, if u[0].RowDescription? then u[0].cols else cols,
                          log + Calls(true, cols, [u[0]]), before)
    ensures u[0].CommandComplete? || u[0].PortalSuspended? || u[0].Async? || u[0].RowDescription? || u[0].NoData?
            || u[0].DataRow? || (u[0].ErrorResponse? && HasError(t)) || u[0].EmptyQueryResponse?
    ensures HasEmpty(u) <==> u[0].EmptyQueryResponse? || HasEmpty(u[1..])
  {
    hide Reply, HasError, HasEmpty, Calls, Next;
    FetchHead(ph, u, t, cols, log, before);
    FetchPhases(ph, u[0]);
    OneCall(true, cols, u[0]);
    NothingLeft(true, cols, None);
    ErrorAhead(u);
  }
}
