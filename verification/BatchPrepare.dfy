/** Preparing several statements in one round trip. */
module BatchPrepares {
  import opened Protocol
  import opened Server
  import opened Exchange
  import opened Machines

  datatype BatchState = Initial | Processing | Finished

  /** The statements as first created: numbered from `start`, still blank. */
  function Blank(start: nat, count: nat): (stmts: seq<PreparedStatement>)
    ensures |stmts| == count && forall i | 0 <= i < count :: stmts[i] == PreparedStatement(start + i, [], None)
  {
    seq(count, i requires i >= 0 => PreparedStatement(start + i, [], None))
  }

  /** What prepares these texts under the numbers from `start`. */
  function Parses(start: nat, texts: seq<string>): (units: seq<Unit>)
    ensures |units| == |texts|
    ensures forall i | 0 <= i < |texts| :: units[i] == Op(Operation.Prepare(WireName(start + i), texts[i], []))
  {
    seq(|texts|, i requires 0 <= i < |texts| => Op(Operation.Prepare(WireName(start + i), texts[i], [])))
  }

  datatype Slots = Slots(stmts: seq<PreparedStatement>, at: nat)

  /** What one message fills in, and where. */
  function Filled1(s: Slots, m: BackMsg): Slots {
    var stmts := if s.at < |s.stmts| then s.stmts[s.at := Learned(Some(s.stmts[s.at]), [m]).value] else s.stmts;
    Slots(stmts, if m.RowDescription? || m.NoData? then s.at + 1 else s.at)
  }

  function Filled(s: Slots, t: seq<BackMsg>): Slots
    decreases t
  {
    if t == [] then s else Filled(Filled1(s, t[0]), t[1..])
  }

  lemma {:induction false} FilledConcat(s: Slots, a: seq<BackMsg>, b: seq<BackMsg>)
    ensures Filled(s, a + b) == Filled(Filled(s, a), b)
    decreases a
  {
    if a == [] {
      assert a + b == b;
    } else {
      assert (a + b)[1..] == a[1..] + b;
      FilledConcat(Filled1(s, a[0]), a[1..], b);
    }
  }

  /** A statement's own reply fills its own slot and moves on to the next. */
  lemma {:induction false} FilledByReply(s: Slots, ph: Phase, t: seq<BackMsg>)
    requires Reply(ph, t) && !t[|t| - 1].ErrorResponse? && s.at < |s.stmts|
    requires ph == WantParse(ThenParameters) || ph == WantParameters || ph == WantColumns
    ensures Filled(s, t) == Slots(s.stmts[s.at := Learned(Some(s.stmts[s.at]), t).value], s.at + 1)
    decreases t
  {
    hide Reply;
    AdvanceRest(ph, t);
    var s' := Filled1(s, t[0]);
    LearnedOne(Some(s.stmts[s.at]), t);
    if Next(ph, t[0]).More? {
      FilledByReply(s', Next(ph, t[0]).next, t[1..]);
    } else {
      var stmt := Learned(Some(s.stmts[s.at]), [t[0]]);
      assert Filled(s', []) == s' && Learned(stmt, []) == stmt;
    }
  }

  predicate AllPrepare(units: seq<Unit>) {
    forall i | 0 <= i < |units| :: units[i].Op? && units[i].op.Prepare?
  }

  /** A Sync's reply fills nothing. */
  lemma {:induction false} FilledBySync(s: Slots, ph: Phase, t: seq<BackMsg>)
    requires Reply(ph, t) && (ph.WantSync? || ph.WantReady?)
    ensures Filled(s, t).at == s.at
    ensures s.at == |s.stmts| ==> Filled(s, t) == s
    decreases t
  {
    if Next(ph, t[0]).More? {
      FilledBySync(Filled1(s, t[0]), Next(ph, t[0]).next, t[1..]);
    }
  }

  class BatchPrepare {
    var state: BatchState
    var statements: seq<PreparedStatement>
    var currentStmt: nat
    var transactionStatus: TransactionStatus
    var request: seq<Unit>    // what the constructor left in the write buffer

    constructor (texts: seq<string>, startIdx: nat)
      ensures state == Initial && currentStmt == 0
      ensures statements == Blank(startIdx, |texts|)
      ensures request == Parses(startIdx, texts) + [SyncPoint]
    {
      state, currentStmt, transactionStatus := Initial, 0, Idle;
      statements, request := [], [];
      new;
      for i := 0 to |texts|
        invariant state == Initial && currentStmt == 0
        invariant statements == Blank(startIdx, i) && request == Parses(startIdx, texts[..i])
      {
        request := request + [Op(Operation.Prepare(WireName(startIdx + i), texts[i], []))];
        statements := statements + [PreparedStatement(startIdx + i, [], None)];
      }
      assert texts[..|texts|] == texts;
      request := request + [SyncPoint];
    }

    /** The machine is where the server is. */
    predicate Follows(st: Stage)
      reads this
    {
      && state == Processing && AllPrepare(st.todo)
      && match st.ph
         case WantParse(then_) => then_ == ThenParameters && currentStmt + 1 + |st.todo| == |statements|
         case WantParameters => currentStmt + 1 + |st.todo| == |statements|
         case WantColumns => currentStmt + 1 + |st.todo| == |statements|
         case WantSync => st.todo == [] && currentStmt == |statements|
         case _ => false
    }

    /** One step: every message the protocol allows fills in what it says, and
        an error is raised at once, before ReadyForQuery. */
    method Step(m: BackMsg, ghost st: Stage) returns (r: Outcome<Action>)
      modifies this
      ensures old(state) == Initial ==>
                && r == Done(WriteAndReadMessage) && state == Processing && statements == old(statements)
                && currentStmt == old(currentStmt) && request == old(request)
      ensures old(state) != Initial && m.ErrorResponse? ==> r == Fail(ServerFailure(m.error))
      ensures old(Follows(st)) && !m.ErrorResponse? && !Progresses(st, m).Unexpected? ==>
                && Slots(statements, currentStmt) == Filled1(Slots(old(statements), old(currentStmt)), m)
                && match Progresses(st, m)
                   case Onward(st') => r == Done(ReadMessage) && Follows(st')
                   case Ended => r == Done(Finish) && m.ReadyForQuery? && transactionStatus == StatusOf(m.status)
                   case _ => true
    {
      assert [m][1..] == [];
      if currentStmt < |statements| {
        LearnedOne(Some(statements[currentStmt]), [m]);
        assert statements[currentStmt := statements[currentStmt]] == statements;
      }
      hide Reply, Rest, StatusOf;
      if state == Initial {
        state := Processing;
        return Done(WriteAndReadMessage);
      }
      if m.Async? {
        return Done(ReadMessage);
      }
      if m.ErrorResponse? {
        return Fail(ServerFailure(m.error));
      }
      if state != Processing {
        return Fail(LibraryBug("unexpected state"));
      }
      match m {
        case ParseComplete =>
        case ParameterDescription(oids) =>
          if currentStmt < |statements| {
            statements := statements[currentStmt := statements[currentStmt].(paramOids := oids)];
          }
        case RowDescription(cols) =>
          if currentStmt < |statements| {
            statements := statements[currentStmt := statements[currentStmt].(rowDesc := Some(cols))];
          }
          currentStmt := currentStmt + 1;
        case NoData =>
          currentStmt := currentStmt + 1;
        case ReadyForQuery(status) =>
          transactionStatus := StatusOf(status);
          state := Finished;
          return Done(Finish);
        case _ =>
          return Fail(LibraryBug("unexpected message in batch prepare"));
      }
      return Done(ReadMessage);
    }

    /** In the middle of the exchange `t`, of which `u` is left. */
    ghost predicate Runs(st: Stage, u: seq<BackMsg>, t: seq<BackMsg>, before: Slots)
      reads this
    {
      && Rest(st, u) && Follows(st) && state == Processing
      && Filled(Slots(statements, currentStmt), u) == Filled(before, t)
      && (HasError(u) <==> HasError(t))
      && t != [] && u[|u| - 1] == t[|t| - 1]
    }

    /** One step inside an exchange. */
    method Advance(m: BackMsg, ghost st: Stage, ghost u: seq<BackMsg>, ghost t: seq<BackMsg>, ghost before: Slots)
      returns (r: Outcome<Action>, ghost st': Stage)
      requires Runs(st, u, t, before) && m == u[0]
      modifies this
      ensures r.Done? ==> r.value == ReadMessage || r.value == Finish
      ensures !r.Done? ==> m.ErrorResponse? && r == Fail(ServerFailure(m.error)) && HasError(t)
      ensures r == Done(ReadMessage) ==> u[1..] != [] && Runs(st', u[1..], t, before)
      ensures r == Done(Finish) ==>
                && u == [m] && m.ReadyForQuery? && m == t[|t| - 1] && transactionStatus == StatusOf(m.status)
                && Slots(statements, currentStmt) == Filled(before, t) && !HasError(t)
    {
      ghost var s := Slots(statements, currentStmt);
      assert Filled(s, u) == Filled(Filled1(s, m), u[1..]) && Filled(Filled1(s, m), []) == Filled1(s, m);
      hide Filled, Filled1, Rest, StatusOf, Progresses, Follows;
      Head(st, u);
      st' := if Progresses(st, m).Onward? then Progresses(st, m).next else st;
      r := Step(m, st);
    }
  }

  /** What the i-th statement was told by the server's i-th reply. */
  predicate Positional(stmts: seq<PreparedStatement>, start: nat, served: seq<Served>)
    decreases stmts
  {
    if stmts == [] then true
    else
      && served != []
      && Some(stmts[0]) == Learned(Some(PreparedStatement(start, [], None)), served[0].trace)
      && Positional(stmts[1..], start + 1, served[1..])
  }

  /** Filling from the whole stream is filling each slot from its own reply,
      whatever asynchronous messages lie in between. */
  lemma {:induction false} FilledInOrder(before: seq<PreparedStatement>, start: nat, texts: seq<string>,
                                         served: seq<Served>, to: Mode)
    requires Units(served) == Parses(start, texts) + [SyncPoint]
    requires Chain(Normal, served, to) && !HasError(Flatten(served))
    ensures var f := Filled(Slots(before + Blank(start, |texts|), |before|), Flatten(served));
            && f.at == |before| + |texts| == |f.stmts| && f.stmts[..|before|] == before
            && Positional(f.stmts[|before|..], start, served)
    decreases texts
  {
    hide *;
    if texts == [] {
      NothingFilled(before, start, served, to);
    } else {
      FirstPrepared(start, texts, served, to);
      var stmt := FilledHead(before, start, |texts|, served[0].trace, Flatten(served[1..]));
      FilledInOrder(before + [stmt], start + 1, texts[1..], served[1..], to);
      var f := Filled(Slots(before + Blank(start, |texts|), |before|), Flatten(served));
      Tail(f.stmts, before, stmt);
      PositionalHead(f.stmts[|before|..], start, served);
    }
  }

  lemma NothingFilled(before: seq<PreparedStatement>, start: nat, served: seq<Served>, to: Mode)
    requires Units(served) == Parses(start, []) + [SyncPoint] && Chain(Normal, served, to)
    ensures var f := Filled(Slots(before + Blank(start, 0), |before|), Flatten(served));
            && f.at == |before| == |f.stmts| && f.stmts[..|before|] == before
            && Positional(f.stmts[|before|..], start, served)
  {
    hide Reply, Next, Filled;
    assert Parses(start, []) + [SyncPoint] == [SyncPoint];
    FirstUnit(served, SyncPoint, []);
    assert before + Blank(start, 0) == before;
    FilledBySync(Slots(before, |before|), WantSync, served[0].trace);
  }

  /** The reply to the first of several texts, and those to the others. */
  lemma FirstPrepared(start: nat, texts: seq<string>, served: seq<Served>, to: Mode)
    requires texts != [] && Units(served) == Parses(start, texts) + [SyncPoint]
    requires Chain(Normal, served, to) && !HasError(Flatten(served))
    ensures served != [] && Units(served[1..]) == Parses(start + 1, texts[1..]) + [SyncPoint]
    ensures var t := served[0].trace;
            && Flatten(served) == t + Flatten(served[1..]) && !HasError(Flatten(served[1..]))
            && Reply(WantParse(ThenParameters), t) && !t[|t| - 1].ErrorResponse?
            && Chain(Normal, served[1..], to)
  {
    hide Reply, Next, HasError, Chain, Flatten, Units, NextMode;
    var first := Op(Operation.Prepare(WireName(start), texts[0], []));
    assert Parses(start, texts) + [SyncPoint] == [first] + (Parses(start + 1, texts[1..]) + [SyncPoint]);
    FirstUnit(served, first, Parses(start + 1, texts[1..]) + [SyncPoint]);
    ChainHead(Normal, served, to);
    NoErrorIn(served[0].trace, Flatten(served[1..]));
  }

  lemma Tail(stmts: seq<PreparedStatement>, before: seq<PreparedStatement>, stmt: PreparedStatement)
    requires |stmts| > |before| && stmts[..|before| + 1] == before + [stmt]
    ensures stmts[..|before|] == before && stmts[|before|..] != [] && stmts[|before|..][0] == stmt
    ensures stmts[|before|..][1..] == stmts[|before + [stmt]|..]
  {
    assert stmts[..|before|] == stmts[..|before| + 1][..|before|];
    assert stmts[..|before| + 1][|before|] == stmt;
  }

  lemma PositionalHead(stmts: seq<PreparedStatement>, start: nat, served: seq<Served>)
    requires stmts != [] && served != []
    ensures Positional(stmts, start, served) <==>
            && Some(stmts[0]) == Learned(Some(PreparedStatement(start, [], None)), served[0].trace)
            && Positional(stmts[1..], start + 1, served[1..])
  {
    hide Learned;
  }

  /** From blank statements on. */
  lemma FilledFromBlank(start: nat, texts: seq<string>, served: seq<Served>, to: Mode)
    requires Units(served) == Parses(start, texts) + [SyncPoint]
    requires Chain(Normal, served, to) && !HasError(Flatten(served))
    ensures var f := Filled(Slots(Blank(start, |texts|), 0), Flatten(served));
            |f.stmts| == |texts| && Positional(f.stmts, start, served)
  {
    hide Learned, HasError, Filled, Blank, Parses, Chain, Flatten, Units, Positional;
    FilledInOrder([], start, texts, served, to);
    assert [] + Blank(start, |texts|) == Blank(start, |texts|);
    var f := Filled(Slots(Blank(start, |texts|), 0), Flatten(served));
    assert f.stmts[0..] == f.stmts;
  }

  /** The first of the units that prepare several texts, and the others. */
  lemma PreparesOpen(start: nat, texts: seq<string>)
    requires texts != []
    ensures var units := Parses(start, texts);
            && units != [] && Plain(units) && Opening(units).ph == WantParse(ThenParameters)
            && AllPrepare(Opening(units).todo) && |Opening(units).todo| == |texts| - 1
  {
  }

  lemma FilledHead(before: seq<PreparedStatement>, start: nat, count: nat, t: seq<BackMsg>, rest: seq<BackMsg>)
    returns (stmt: PreparedStatement)
    requires count > 0 && Reply(WantParse(ThenParameters), t) && !t[|t| - 1].ErrorResponse?
    ensures Some(stmt) == Learned(Some(PreparedStatement(start, [], None)), t)
    ensures Filled(Slots(before + Blank(start, count), |before|), t + rest)
            == Filled(Slots(before + [stmt] + Blank(start + 1, count - 1), |before| + 1), rest)
  {
    hide Reply, Learned, Filled;
    var s := Slots(before + Blank(start, count), |before|);
    stmt := Learned(Some(PreparedStatement(start, [], None)), t).value;
    FilledConcat(s, t, rest);
    FilledByReply(s, WantParse(ThenParameters), t);
    assert s.stmts[|before|] == PreparedStatement(start, [], None);
    assert s.stmts[|before| := stmt] == before + [stmt] + Blank(start + 1, count - 1);
  }

  lemma {:induction false} Consecutive(stmts: seq<PreparedStatement>, start: nat, served: seq<Served>)
    requires Positional(stmts, start, served)
    ensures |stmts| <= |served| && forall i | 0 <= i < |stmts| :: stmts[i].idx == start + i
    decreases stmts
  {
    if stmts != [] {
      LearnedIdx(Some(PreparedStatement(start, [], None)), served[0].trace);
      Consecutive(stmts[1..], start + 1, served[1..]);
      assert forall i | 0 < i < |stmts| :: stmts[i] == stmts[1..][i - 1];
    }
  }

  /** Each statement is what the server's reply in its place describes. */
  lemma {:induction false} DescribedInOrder(stmts: seq<PreparedStatement>, start: nat, texts: seq<string>,
                                            served: seq<Served>, to: Mode)
    requires |stmts| == |texts| && Positional(stmts, start, served)
    requires Units(served) == Parses(start, texts) + [SyncPoint]
    requires Chain(Normal, served, to) && !HasError(Flatten(served))
    ensures |stmts| <= |served|
    ensures forall i | 0 <= i < |stmts| :: Describes(served[i].trace, stmts[i])
    decreases stmts
  {
    hide Reply, Learned, HasError, Describes, Parses, Chain, Flatten, Units;
    if stmts != [] {
      FirstPrepared(start, texts, served, to);
      LearnsStatement(WantParse(ThenParameters), PreparedStatement(start, [], None), served[0].trace);
      DescribedInOrder(stmts[1..], start + 1, texts[1..], served[1..], to);
      forall i | 0 < i < |stmts| ensures Describes(served[i].trace, stmts[i]) {
        assert stmts[i] == stmts[1..][i - 1] && served[i] == served[1..][i - 1];
      }
    }
  }
}
