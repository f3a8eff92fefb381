/** What the sans-I/O state machines share: the actions they ask for and the
    callbacks they make. */
module Machines {
  import opened Protocol
  import Numerics
  import Server

  datatype Action =
    | ReadMessage
    | WriteAndReadMessage
    | HandleAsyncMessageAndReadMessage(notice: string)
    | Report(error: ServerError)        // a server error, with the connection clean
    | Finish
  {
    predicate Reads() {
      ReadMessage? || HandleAsyncMessageAndReadMessage?
    }
  }

  /** A machine has come to its end, with success or with a server error. */
  predicate Stopped(r: Outcome<Action>) {
    r.Done? && !r.value.Reads()
  }

  datatype Callback = ResultStart(cols: Bytes) | Row(cols: Bytes, row: Bytes) | ResultEnd(tag: string)

  /** The name a statement number has on the wire. */
  function WireName(idx: nat): (name: string)
    ensures "_zero_s_" < name
  {
    "_zero_s_" + Numerics.ToText(idx)
  }

  datatype PreparedStatement = PreparedStatement(idx: nat, paramOids: seq<nat>, rowDesc: Option<Bytes>)

  /** A caller's handler: it records its callbacks and may fail, or panic, at
      any of them. */
  class Recorder {
    const verdict: nat -> Outcome<()>
    var log: seq<Callback>
    var refused: bool

    /** It never fails. */
    ghost predicate Obliging() {
      forall n :: verdict(n).Done?
    }

    constructor (verdict: nat -> Outcome<()>)
      ensures this.verdict == verdict && log == [] && !refused
    {
      this.verdict := verdict;
      log, refused := [], false;
    }

    method Call(c: Callback) returns (r: Outcome<()>)
      modifies this
      ensures log == old(log) + [c]
      ensures r.Done? ==> refused == old(refused)
      ensures !r.Done? ==> refused
      ensures Obliging() ==> r.Done?
    {
      log := log + [c];
      r := verdict(|log|);
      if !r.Done? {
        refused := true;
      }
    }
  }

  /** Rows of one result set, then perhaps its end. */
  predicate RowsThenEnd(cols: Bytes, cs: seq<Callback>) {
    cs == []
    || (cs[0].Row? && cs[0].cols == cols && RowsThenEnd(cols, cs[1..]))
    || (cs[0].ResultEnd? && |cs| == 1)
  }

  /** A start, rows and an end, or an end alone, or any prefix of these. */
  predicate OneResult(cs: seq<Callback>) {
    cs == []
    || (cs[0].ResultStart? && RowsThenEnd(cs[0].cols, cs[1..]))
    || (cs[0].ResultEnd? && |cs| == 1)
  }

  lemma {:induction false} RowsPrefix(cols: Bytes, p: seq<Callback>, cs: seq<Callback>)
    requires p <= cs && RowsThenEnd(cols, cs)
    ensures RowsThenEnd(cols, p)
    decreases p
  {
    if p != [] {
      assert p[1..] <= cs[1..];
      if cs[0].Row? {
        RowsPrefix(cols, p[1..], cs[1..]);
      }
    }
  }

  lemma OnePrefix(p: seq<Callback>, cs: seq<Callback>)
    requires p <= cs && OneResult(cs)
    ensures OneResult(p)
  {
    if p != [] && p[0].ResultStart? {
      assert p[1..] <= cs[1..];
      RowsPrefix(p[0].cols, p[1..], cs[1..]);
    }
  }

  function RowsIn(cs: seq<Callback>): seq<Bytes> {
    if cs == [] then [] else (if cs[0].Row? then [cs[0].row] else []) + RowsIn(cs[1..])
  }

  /** The callbacks a run of messages stands for, given the columns so far.
      A machine that prepares a statement reports none. */
  function Calls(reports: bool, cols: Bytes, t: seq<BackMsg>): seq<Callback>
    decreases t
  {
    if t == [] || !reports then []
    else
      match t[0]
      case RowDescription(c) => [ResultStart(c)] + Calls(reports, c, t[1..])
      case DataRow(r) => [Row(cols, r)] + Calls(reports, cols, t[1..])
      case CommandComplete(tag) => [ResultEnd(tag)] + Calls(reports, cols, t[1..])
      case _ => Calls(reports, cols, t[1..])
  }

  // -- The callbacks, said of the messages themselves

  /** The messages that make up results, in order. */
  function ResultMessages(t: seq<BackMsg>): (ms: seq<BackMsg>)
    ensures forall m :: m in ms <==> m in t && (m.RowDescription? || m.DataRow? || m.CommandComplete?)
  {
    if t == [] then []
    else
      assert t == [t[0]] + t[1..];
      (if t[0].RowDescription? || t[0].DataRow? || t[0].CommandComplete? then [t[0]] else []) + ResultMessages(t[1..])
  }

  /** No columns are described from `i` up to `j`. */
  predicate NoColumns(ms: seq<BackMsg>, i: nat, j: nat)
    requires i <= j <= |ms|
  {
    forall k | i <= k < j :: !ms[k].RowDescription?
  }

  /** A row told carries the columns last described before it, `cols` if
      there are none. */
  predicate RowColumns(cols: Bytes, ms: seq<BackMsg>, cs: seq<Callback>)
    requires |cs| == |ms| && forall i | 0 <= i < |ms| && ms[i].DataRow? :: cs[i].Row?
  {
    && (forall i | 0 <= i < |ms| && ms[i].DataRow? :: NoColumns(ms, 0, i) ==> cs[i].cols == cols)
    && (forall i, j | 0 <= j < i < |ms| && ms[i].DataRow? && ms[j].RowDescription? ::
          NoColumns(ms, j + 1, i) ==> cs[i].cols == ms[j].cols)
  }

  /** The callback of one message: a start tells the columns described, a row
      itself, and an end the tag. */
  predicate TellsOne(m: BackMsg, c: Callback) {
    match m
    case RowDescription(cols) => c == ResultStart(cols)
    case DataRow(row) => c.Row? && c.row == row
    case CommandComplete(tag) => c == ResultEnd(tag)
    case _ => false
  }

  /** The callbacks tell these messages, one by one. */
  predicate Tells(cols: Bytes, ms: seq<BackMsg>, cs: seq<Callback>) {
    && |cs| == |ms| && (forall i | 0 <= i < |ms| :: TellsOne(ms[i], cs[i]))
    && RowColumns(cols, ms, cs)
  }

  lemma NoColumnsShift(m: BackMsg, ms: seq<BackMsg>, i: nat, j: nat)
    requires i <= j <= |ms|
    ensures NoColumns([m] + ms, i + 1, j + 1) <==> NoColumns(ms, i, j)
    ensures NoColumns([m] + ms, 0, j + 1) <==> !m.RowDescription? && NoColumns(ms, 0, j)
  {
    var ms' := [m] + ms;
    assert forall k | 0 <= k < |ms| :: ms'[k + 1] == ms[k];
    if NoColumns(ms', i + 1, j + 1) {
      forall k | i <= k < j ensures !ms[k].RowDescription? {
        assert !ms'[k + 1].RowDescription?;
      }
    }
    if NoColumns(ms', 0, j + 1) {
      assert !ms'[0].RowDescription?;
      forall k | 0 <= k < j ensures !ms[k].RowDescription? {
        assert !ms'[k + 1].RowDescription?;
      }
    }
  }

  /** One message more in front. */
  lemma TellsFirst(cols: Bytes, m: BackMsg, ms: seq<BackMsg>, c: Callback, cs: seq<Callback>)
    requires TellsOne(m, c) && (m.DataRow? ==> c.cols == cols)
    requires Tells(if m.RowDescription? then m.cols else cols, ms, cs)
    ensures Tells(cols, [m] + ms, [c] + cs)
  {
    hide TellsOne, NoColumns;
    var ms', cs' := [m] + ms, [c] + cs;
    forall i | 0 <= i < |ms'| && ms'[i].DataRow? ensures cs'[i].Row? {
      assert TellsOne(ms'[i], cs'[i]);
      RowTold(ms'[i], cs'[i]);
    }
    RowTold(m, c);
    forall i | 0 <= i < |ms'| && ms'[i].DataRow? && NoColumns(ms', 0, i) ensures cs'[i].cols == cols {
      if i > 0 {
        NoColumnsShift(m, ms, 0, i - 1);
        assert ms'[i] == ms[i - 1] && cs'[i] == cs[i - 1];
      }
    }
    forall i, j | 0 <= j < i < |ms'| && ms'[i].DataRow? && ms'[j].RowDescription? && NoColumns(ms', j + 1, i)
      ensures cs'[i].cols == ms'[j].cols
    {
      assert ms'[i] == ms[i - 1] && cs'[i] == cs[i - 1];
      NoColumnsShift(m, ms, j, i - 1);
      if j > 0 {
        assert ms'[j] == ms[j - 1];
      }
    }
  }

  lemma RowTold(m: BackMsg, c: Callback)
    ensures m.DataRow? && TellsOne(m, c) ==> c.Row?
  {
  }

  /** A machine that reports tells exactly the results of a stream, whatever
      else is in it. */
  lemma {:induction false} CallsTell(cols: Bytes, t: seq<BackMsg>)
    ensures Tells(cols, ResultMessages(t), Calls(true, cols, t))
    decreases t
  {
    if t != [] {
      UnfoldCalls(true, cols, t);
      OneCall(true, cols, t[0]);
      var cols' := if t[0].RowDescription? then t[0].cols else cols;
      CallsTell(cols', t[1..]);
      hide Tells, ResultMessages, Calls;
      ResultsUnfold(t);
      var ms, cs := ResultMessages(t[1..]), Calls(true, cols', t[1..]);
      match t[0] {
        case RowDescription(_) => TellsFirst(cols, t[0], ms, ResultStart(t[0].cols), cs);
        case DataRow(_) => TellsFirst(cols, t[0], ms, Row(cols, t[0].row), cs);
        case CommandComplete(_) => TellsFirst(cols, t[0], ms, ResultEnd(t[0].tag), cs);
        case _ =>
          assert [] + cs == cs && [] + ms == ms;
      }
    }
  }

  lemma ResultsUnfold(t: seq<BackMsg>)
    requires t != []
    ensures ResultMessages(t) ==
            (if t[0].RowDescription? || t[0].DataRow? || t[0].CommandComplete? then [t[0]] else [])
            + ResultMessages(t[1..])
  {
  }

  lemma OneCall(reports: bool, cols: Bytes, m: BackMsg)
    ensures Calls(reports, cols, [m]) ==
            if !reports then []
            else if m.RowDescription? then [ResultStart(m.cols)]
            else if m.DataRow? then [Row(cols, m.row)]
            else if m.CommandComplete? then [ResultEnd(m.tag)]
            else []
  {
    assert [m][1..] == [];
  }

  lemma UnfoldCalls(reports: bool, cols: Bytes, t: seq<BackMsg>)
    requires t != []
    ensures var cols' := if t[0].RowDescription? && reports then t[0].cols else cols;
            Calls(reports, cols, t) == Calls(reports, cols, [t[0]]) + Calls(reports, cols', t[1..])
  {
    assert [t[0]][1..] == [];
  }

  /** The columns in force after a run of messages. */
  function Columns(cols: Bytes, t: seq<BackMsg>): Bytes
    decreases t
  {
    if t == [] then cols else Columns(if t[0].RowDescription? then t[0].cols else cols, t[1..])
  }

  lemma {:induction false} CallsOn(reports: bool, cols: Bytes, t: seq<BackMsg>, m: BackMsg)
    ensures Calls(reports, cols, t + [m]) == Calls(reports, cols, t) + Calls(reports, Columns(cols, t), [m])
    ensures Columns(cols, t + [m]) == if m.RowDescription? then m.cols else Columns(cols, t)
    decreases t
  {
    if t == [] {
      assert [] + [m] == [m];
    } else {
      assert (t + [m])[1..] == t[1..] + [m];
      CallsOn(reports, if t[0].RowDescription? then t[0].cols else cols, t[1..], m);
    }
  }

  /** What a run of messages says about the statement being prepared. */
  function Learned(stmt: Option<PreparedStatement>, t: seq<BackMsg>): (learned: Option<PreparedStatement>)
    ensures learned.Some? <==> stmt.Some?
    decreases t
  {
    if t == [] || stmt.None? then stmt
    else
      Learned(match t[0]
              case ParameterDescription(oids) => Some(stmt.value.(paramOids := oids))
              case RowDescription(c) => Some(stmt.value.(rowDesc := Some(c)))
              case _ => stmt, t[1..])
  }

  /** The columns are what the messages describe. */
  predicate DescribesColumns(t: seq<BackMsg>, columns: Option<Bytes>) {
    && (if columns.Some? then RowDescription(columns.value) in t else NoData in t)
    && (forall m <- t :: (m.RowDescription? ==> columns == Some(m.cols)) && (m.NoData? ==> columns == None))
  }

  /** The statement is what the messages describe: its parameter types are
      those of the ParameterDescription, and its columns those of the
      RowDescription, or none if NoData was sent. */
  predicate Describes(t: seq<BackMsg>, stmt: PreparedStatement) {
    && ParameterDescription(stmt.paramOids) in t
    && (forall m <- t | m.ParameterDescription? :: m.oids == stmt.paramOids)
    && DescribesColumns(t, stmt.rowDesc)
  }

  /** Nothing of `t` describes a statement. */
  predicate Undescribed(t: seq<BackMsg>) {
    forall m <- t :: !m.ParameterDescription? && !m.RowDescription? && !m.NoData?
  }

  lemma {:induction false} LearnsNothing(stmt: PreparedStatement, t: seq<BackMsg>)
    requires Undescribed(t)
    ensures Learned(Some(stmt), t) == Some(stmt)
    decreases t
  {
    if t != [] {
      assert t[0] in t && forall m <- t[1..] :: m in t;
      LearnsNothing(stmt, t[1..]);
    }
  }

  /** The end of a reply to a Parse and a Describe tells the columns. */
  lemma {:induction false} LearnsColumns(stmt: PreparedStatement, t: seq<BackMsg>)
    requires Server.Reply(Server.WantColumns, t) && !t[|t| - 1].ErrorResponse? && stmt.rowDesc == None
    ensures var learned := Learned(Some(stmt), t);
            && learned.Some? && learned.value.paramOids == stmt.paramOids
            && DescribesColumns(t, learned.value.rowDesc) && forall m <- t :: !m.ParameterDescription?
    decreases t
  {
    Server.AdvanceRest(Server.WantColumns, t);
    assert t == [t[0]] + t[1..];
    LearnedOne(Some(stmt), t);
    if t[0].Async? {
      LearnsColumns(stmt, t[1..]);
    } else {
      assert t == [t[0]];
    }
  }

  /** The whole reply describes the statement, whatever asynchronous messages
      lie in between. */
  lemma {:induction false} LearnsStatement(ph: Server.Phase, stmt: PreparedStatement, t: seq<BackMsg>)
    requires Server.Reply(ph, t) && !t[|t| - 1].ErrorResponse? && stmt.rowDesc == None
    requires ph == Server.WantParse(Server.ThenParameters) || ph == Server.WantParameters
    ensures Learned(Some(stmt), t).Some? && Describes(t, Learned(Some(stmt), t).value)
    decreases t
  {
    Server.AdvanceRest(ph, t);
    assert t == [t[0]] + t[1..];
    LearnedOne(Some(stmt), t);
    if t[0].ParameterDescription? {
      LearnsColumns(stmt.(paramOids := t[0].oids), t[1..]);
    } else {
      LearnsStatement(Server.Next(ph, t[0]).next, stmt, t[1..]);
    }
  }

  /** What follows describes nothing. */
  lemma DescribesBoth(t: seq<BackMsg>, rest: seq<BackMsg>, stmt: PreparedStatement)
    requires Describes(t, stmt) && Undescribed(rest)
    ensures Describes(t + rest, stmt)
  {
    assert forall m <- t + rest :: m in t || m in rest;
    assert forall m <- t :: m in t + rest;
  }

  lemma {:induction false} SyncDescribesNothing(ph: Server.Phase, t: seq<BackMsg>)
    requires Server.Reply(ph, t) && (ph.WantSync? || ph.WantReady?)
    ensures Undescribed(t)
    decreases t
  {
    assert t == [t[0]] + t[1..];
    if Server.Next(ph, t[0]).More? {
      SyncDescribesNothing(Server.Next(ph, t[0]).next, t[1..]);
    }
  }

  lemma {:induction false} LearnedConcat(stmt: Option<PreparedStatement>, a: seq<BackMsg>, b: seq<BackMsg>)
    ensures Learned(stmt, a + b) == Learned(Learned(stmt, a), b)
    decreases a
  {
    if a == [] {
      assert a + b == b;
    } else {
      assert (a + b)[1..] == a[1..] + b;
      LearnedOne(stmt, a);
      LearnedOne(stmt, a + b);
      assert [(a + b)[0]] == [a[0]];
      LearnedConcat(Learned(stmt, [a[0]]), a[1..], b);
    }
  }

  lemma LearnedOne(stmt: Option<PreparedStatement>, t: seq<BackMsg>)
    ensures t != [] ==> Learned(stmt, t) == Learned(Learned(stmt, [t[0]]), t[1..])
    ensures t != [] && !(t[0].ParameterDescription? || t[0].RowDescription?) ==> Learned(stmt, [t[0]]) == stmt
    ensures Learned(None, t) == None
  {
    if t != [] {
      assert [t[0]][1..] == [];
    }
  }

  function Raised(pending: Option<ServerError>): Outcome<()> {
    match pending case Some(e) => Fail(ServerFailure(e)) case None => Done(())
  }

  lemma NothingLeft(reports: bool, cols: Bytes, stmt: Option<PreparedStatement>)
    ensures Calls(reports, cols, []) == [] && Learned(stmt, []) == stmt
  {
  }

  lemma {:induction false} LearnedIdx(stmt: Option<PreparedStatement>, t: seq<BackMsg>)
    ensures stmt.Some? ==> Learned(stmt, t).value.idx == stmt.value.idx
    decreases t
  {
    if t != [] {
      LearnedOne(stmt, t);
      assert [t[0]][1..] == [];
      LearnedIdx(Learned(stmt, [t[0]]), t[1..]);
    }
  }

  lemma RowsInUnfold(cs: seq<Callback>)
    ensures cs == [] ==> RowsIn(cs) == []
    ensures cs != [] ==> RowsIn(cs) == (if cs[0].Row? then [cs[0].row] else []) + RowsIn(cs[1..])
  {
  }

  lemma {:induction false} RowsInConcat(a: seq<Callback>, b: seq<Callback>)
    ensures RowsIn(a + b) == RowsIn(a) + RowsIn(b)
  {
    hide *;
    RowsInUnfold(a);
    if a == [] {
      assert a + b == b;
    } else {
      assert (a + b)[1..] == a[1..] + b;
      RowsInUnfold(a + b);
      RowsInConcat(a[1..], b);
    }
  }
}
