/** What the pipeline's queue of expectations has to do with the units the
    server answered and the units still in the write buffer. */
module PipelineQueue {
  import opened Protocol
  import opened Server
  import opened Exchange
  import opened Machines

  datatype Expectation = Execution(kind: ExecKind) | Sync

  /** What one message gives a row handler to hear. */
  function Heard(cols: Bytes, m: BackMsg): seq<Callback> {
    match m
    case DataRow(row) => [Callback.Row(cols, row)]
    case CommandComplete(tag) => [ResultEnd(tag)]
    case _ => []
  }

  function ColumnsAfter(cols: Bytes, m: BackMsg): Bytes {
    if m.RowDescription? then m.cols else cols
  }

  /** What a reply gives a row handler to hear: its rows, each with its
      columns, and its end. A pipeline announces no start. */
  function Hears(cols: Bytes, t: seq<BackMsg>): seq<Callback>
    decreases t
  {
    if t == [] then [] else Heard(cols, t[0]) + Hears(ColumnsAfter(cols, t[0]), t[1..])
  }

  /** The rows heard are the rows sent. */
  lemma {:induction false} HearsRows(cols: Bytes, t: seq<BackMsg>)
    ensures RowsIn(Hears(cols, t)) == RowsOf(t)
    decreases t
  {
    if t != [] {
      var first, rest := Heard(cols, t[0]), Hears(ColumnsAfter(cols, t[0]), t[1..]);
      HearsRows(ColumnsAfter(cols, t[0]), t[1..]);
      RowsInConcat(first, rest);
      assert t[0].DataRow? ==> first[1..] == [];
    }
  }

  // -- What is heard, said of the reply itself

  /** `cs` is what the handler of a claim hears of the reply `t`: its rows in
      order, then the end with its tag iff the reply ends with one. Each row
      carries the columns that the reply describes, if it is raw SQL, and those
      of the ticket otherwise. */
  predicate HeardAs(kind: ExecKind, columns: Option<Bytes>, t: seq<BackMsg>, cs: seq<Callback>)
    requires t != []
  {
    var n, last := |RowsOf(t)|, t[|t| - 1];
    && |cs| == (if last.CommandComplete? then n + 1 else n)
    && (last.CommandComplete? ==> cs[n] == ResultEnd(last.tag))
    && (forall i | 0 <= i < n :: cs[i].Row? && cs[i].row == RowsOf(t)[i])
    && (kind.BindExecute? ==> forall i | 0 <= i < n :: columns == Some(cs[i].cols))
    && (kind.ParseBindExecute? ==>
          forall i | 0 <= i < n :: RowDescription(cs[i].cols) in t
                                   && forall m <- t | m.RowDescription? :: m.cols == cs[i].cols)
  }

  /** The same with the columns at hand: those of every row. */
  predicate HeardUnder(cols: Bytes, t: seq<BackMsg>, cs: seq<Callback>)
    requires t != []
  {
    var n, last := |RowsOf(t)|, t[|t| - 1];
    && |cs| == (if last.CommandComplete? then n + 1 else n)
    && (last.CommandComplete? ==> cs[n] == ResultEnd(last.tag))
    && (forall i | 0 <= i < n :: cs[i] == Callback.Row(cols, RowsOf(t)[i]))
  }

  lemma {:induction false} RowsHeard(ph: Phase, cols: Bytes, t: seq<BackMsg>)
    requires Reply(ph, t) && ph.Rows?
    ensures HeardUnder(cols, t, Hears(cols, t)) && (forall m <- t :: !m.RowDescription?)
    ensures !ph.has ==> RowsOf(t) == []
    decreases t
  {
    AdvanceRest(ph, t);
    var m, rest := t[0], t[1..];
    assert t == [m] + rest;
    RowsStep(ph, m);
    hide Reply, Next, HeardUnder, Hears, Heard, RowsOf;
    if Next(ph, m).More? {
      RowsHeard(ph, cols, rest);
      RowOrLater(cols, m, rest);
    } else {
      LastUnder(cols, m);
    }
  }

  lemma RowsStep(ph: Phase, m: BackMsg)
    requires ph.Rows? && !Next(ph, m).Illegal?
    ensures !m.RowDescription? && (m.DataRow? ==> ph.has)
    ensures Next(ph, m).More? ==> Next(ph, m) == More(ph) && (m.DataRow? || m.Async?)
    ensures Next(ph, m).Last? ==> !m.DataRow?
  {
  }

  /** A row, or nothing, ahead of what is heard later. */
  lemma RowOrLater(cols: Bytes, m: BackMsg, rest: seq<BackMsg>)
    requires rest != [] && (m.DataRow? || m.Async? || m.BindComplete?) && HeardUnder(cols, rest, Hears(cols, rest))
    ensures HeardUnder(cols, [m] + rest, Hears(cols, [m] + rest))
    ensures RowsOf([m] + rest) == (if m.DataRow? then [m.row] else []) + RowsOf(rest)
  {
    var t := [m] + rest;
    assert t[1..] == rest && t[|t| - 1] == rest[|rest| - 1];
    var cs := Hears(cols, rest);
    assert RowsOf(t) == (if m.DataRow? then [m.row] else []) + RowsOf(rest);
    assert Hears(cols, t) == (if m.DataRow? then [Callback.Row(cols, m.row)] else []) + cs;
    hide RowsOf, Hears;
    assert !m.DataRow? ==> RowsOf(t) == RowsOf(rest) && Hears(cols, t) == cs;
  }

  /** The end, if there is one. */
  lemma LastUnder(cols: Bytes, m: BackMsg)
    requires !m.DataRow? && !m.RowDescription?
    ensures HeardUnder(cols, [m], Hears(cols, [m])) && RowsOf([m]) == []
  {
    assert [m][1..] == [] && RowsOf([]) == [] && Hears(cols, []) == [];
    assert RowsOf([m]) == [] && Hears(cols, [m]) == if m.CommandComplete? then [ResultEnd(m.tag)] else [];
  }

  /** A message that is no part of a result changes nothing of that. */
  lemma HeardLater(m: BackMsg, rest: seq<BackMsg>, cs: seq<Callback>)
    requires rest != [] && !m.DataRow? && !m.RowDescription?
    requires HeardAs(ParseBindExecute, None, rest, cs)
    ensures HeardAs(ParseBindExecute, None, [m] + rest, cs)
  {
    var t := [m] + rest;
    RowsLater(m, rest);
    hide RowsOf;
    assert forall m' <- t :: m' == m || m' in rest;
    forall i | 0 <= i < |RowsOf(t)|
      ensures RowDescription(cs[i].cols) in t && forall m' <- t | m'.RowDescription? :: m'.cols == cs[i].cols
    {
      assert RowDescription(cs[i].cols) in rest;
    }
  }

  lemma RowsLater(m: BackMsg, rest: seq<BackMsg>)
    requires !m.DataRow?
    ensures RowsOf([m] + rest) == RowsOf(rest)
  {
    assert ([m] + rest)[1..] == rest && [] + RowsOf(rest) == RowsOf(rest);
  }

  /** The columns of what follows. */
  lemma HeardDescribed(m: BackMsg, cols: Bytes, rest: seq<BackMsg>, cs: seq<Callback>)
    requires rest != [] && HeardUnder(cols, rest, cs) && forall m <- rest :: !m.RowDescription?
    requires m == RowDescription(cols) || (m.NoData? && RowsOf(rest) == [])
    ensures HeardAs(ParseBindExecute, None, [m] + rest, cs)
  {
    var t := [m] + rest;
    RowsLater(m, rest);
    hide RowsOf;
    assert t[0] == m;
    assert forall m' <- t :: m' == m || m' in rest;
  }

  lemma DescribeStep(ph: Phase, m: BackMsg)
    requires ph == WantParse(ThenBind(ThenDescribe)) || ph == WantBind(ThenDescribe) || ph == WantDescribe(false)
    ensures m.DataRow? || m.CommandComplete? ==> Next(ph, m).Illegal?
    ensures m.ErrorResponse? <==> Next(ph, m).Last?
    ensures m.RowDescription? || m.NoData? ==>
              Next(ph, m).Illegal? || Next(ph, m) == More(Rows(m.RowDescription?, false))
    ensures Next(ph, m).More? && !m.RowDescription? && !m.NoData? ==>
              var ph' := Next(ph, m).next;
              ph' == WantParse(ThenBind(ThenDescribe)) || ph' == WantBind(ThenDescribe) || ph' == WantDescribe(false)
  {
  }

  /** What comes before the rows gives nothing to hear, and describes them. */
  lemma {:induction false} HearsDescribed(ph: Phase, t: seq<BackMsg>)
    requires Reply(ph, t)
    requires ph == WantParse(ThenBind(ThenDescribe)) || ph == WantBind(ThenDescribe) || ph == WantDescribe(false)
    ensures HeardAs(ParseBindExecute, None, t, Hears([], t))
    decreases t
  {
    AdvanceRest(ph, t);
    DescribeStep(ph, t[0]);
    var m, rest := t[0], t[1..];
    assert t == [m] + rest;
    HearsFirst(m, rest);
    hide Reply, Next, HeardAs, HeardUnder, Hears, Heard, RowsOf;
    if m.ErrorResponse? {
      JustError(m.error);
    } else if m.RowDescription? || m.NoData? {
      var cols := if m.RowDescription? then m.cols else [];
      RowsHeard(Rows(m.RowDescription?, false), cols, rest);
      HeardDescribed(m, cols, rest, Hears(cols, rest));
    } else {
      HearsDescribed(Next(ph, m).next, rest);
      HeardLater(m, rest, Hears([], rest));
    }
  }

  lemma HearsFirst(m: BackMsg, rest: seq<BackMsg>)
    requires !m.DataRow? && !m.CommandComplete?
    ensures Hears([], [m] + rest) == Hears(if m.RowDescription? then m.cols else [], rest)
  {
    assert ([m] + rest)[1..] == rest;
    assert [] + Hears(ColumnsAfter([], m), rest) == Hears(ColumnsAfter([], m), rest);
  }

  lemma JustError(error: ServerError)
    ensures HeardAs(ParseBindExecute, None, [ErrorResponse(error)], Hears([], [ErrorResponse(error)]))
  {
    assert [ErrorResponse(error)][1..] == [];
    assert RowsOf([ErrorResponse(error)]) == [] && Hears([], [ErrorResponse(error)]) == [];
  }

  lemma {:induction false} HearsKnown(ph: Phase, cols: Bytes, t: seq<BackMsg>)
    requires Reply(ph, t) && ph == WantBind(ThenRows)
    ensures HeardUnder(cols, t, Hears(cols, t))
    decreases t
  {
    AdvanceRest(ph, t);
    var m, rest := t[0], t[1..];
    assert t == [m] + rest;
    BindStep(m);
    hide Reply, Next, HeardUnder, Hears, Heard, RowsOf;
    if m.ErrorResponse? {
      LastUnder(cols, m);
    } else {
      if m.BindComplete? {
        RowsHeard(Rows(true, false), cols, rest);
      } else {
        HearsKnown(ph, cols, rest);
      }
      RowOrLater(cols, m, rest);
    }
  }

  lemma BindStep(m: BackMsg)
    ensures m.ErrorResponse? ==> Next(WantBind(ThenRows), m).Last?
    ensures m.BindComplete? ==> Next(WantBind(ThenRows), m) == More(Rows(true, false))
    ensures m.Async? ==> Next(WantBind(ThenRows), m) == More(WantBind(ThenRows))
    ensures !m.ErrorResponse? && !m.BindComplete? && !m.Async? ==> Next(WantBind(ThenRows), m).Illegal?
  {
  }

  /** What a claim hears of an execution's whole reply. */
  lemma HearsReply(kind: ExecKind, tag: nat, columns: Option<Bytes>, t: seq<BackMsg>)
    requires Reply(Start(Exec(kind, tag)), t)
    requires kind.BindExecute? ==> columns.Some? || RowsOf(t) == []
    ensures var cols := if kind.BindExecute? && columns.Some? then columns.value else [];
            HeardAs(kind, columns, t, Hears(cols, t))
  {
    hide Reply, Hears;
    if kind.ParseBindExecute? {
      HearsDescribed(WantParse(ThenBind(ThenDescribe)), t);
    } else {
      HearsKnown(WantBind(ThenRows), if columns.Some? then columns.value else [], t);
    }
  }

  function Expected(u: Unit): Expectation {
    if u.Exec? then Execution(u.kind) else Sync
  }

  function Expectations(units: seq<Unit>): seq<Expectation> {
    if units == [] then [] else [Expected(units[0])] + Expectations(units[1..])
  }

  /** The executions among the units carry the tags from `from` up to `to`. */
  predicate Tagged(units: seq<Unit>, from: nat, to: nat) {
    if units == [] then from == to
    else if units[0].Exec? then units[0].tag == from && Tagged(units[1..], from + 1, to)
    else units[0].SyncPoint? && Tagged(units[1..], from, to)
  }

  predicate AllExec(units: seq<Unit>) {
    forall i | 0 <= i < |units| :: units[i].Exec?
  }

  /** The queue names, in order, what was sent and not yet claimed (`owed`)
      and what is still unsent (`unsent`). */
  predicate Tracks(queue: seq<Expectation>, owed: seq<Served>, unsent: seq<Unit>, from: nat, to: nat) {
    && AllExec(unsent)
    && queue == Expectations(Units(owed) + unsent)
    && Tagged(Units(owed) + unsent, from, to)
  }

  function Executions(queue: seq<Expectation>): nat {
    if queue == [] then 0 else (if queue[0].Execution? then 1 else 0) + Executions(queue[1..])
  }

  function Syncs(queue: seq<Expectation>): nat {
    if queue == [] then 0 else (if queue[0].Sync? then 1 else 0) + Syncs(queue[1..])
  }

  function DropSyncs(queue: seq<Expectation>): seq<Expectation> {
    if queue != [] && queue[0].Sync? then DropSyncs(queue[1..]) else queue
  }

  predicate StartsWithSync(queue: seq<Expectation>) {
    queue != [] && queue[0].Sync?
  }

  /** Whether a scope is still open when the Syncs at the front of `queue` have
      been answered, if there are any. */
  predicate StillOpen(queue: seq<Expectation>, open: bool) {
    if StartsWithSync(queue) then DropSyncs(queue) != [] else open
  }

  lemma StaysOpen(queue: seq<Expectation>)
    ensures DropSyncs(queue) != [] ==> StillOpen(queue, true)
  {
  }

  /** Draining the queue ends behind a Sync: its last entry is one, or one is
      sent because there is none. */
  predicate EndsBehindSync(queue: seq<Expectation>) {
    Sync !in queue || queue[|queue| - 1].Sync?
  }

  function Tail<T>(s: seq<T>): seq<T> {
    if s == [] then [] else s[1..]
  }

  function Readys(t: seq<BackMsg>): nat {
    if t == [] then 0 else (if t[0].ReadyForQuery? then 1 else 0) + Readys(t[1..])
  }

  function DropAsync(t: seq<BackMsg>): seq<BackMsg> {
    if t != [] && t[0].Async? then DropAsync(t[1..]) else t
  }

  /** Everything the client's side of a pipeline and the wire have in common:
      the unread stream is what the server sent for the sent part of the
      queue, the last part of everything it was ever sent. */
  predicate Coupling(queue: seq<Expectation>, owed: seq<Served>, unsent: seq<Unit>, lo: nat, hi: nat,
                     from: Mode, mode: Mode, unread: seq<BackMsg>, log: seq<Served>, status: TransactionStatus) {
    && from != Dead && Chain(from, owed, mode)
    && unread == Flatten(owed)
    && Tracks(queue, owed, unsent, lo, hi)
    && |owed| <= |log| && log[|log| - |owed|..] == owed
    && status == LastStatus(log[..|log| - |owed|])
  }

  // -- The queue as it grows and shrinks

  lemma {:induction false} Snoc(units: seq<Unit>, u: Unit, from: nat, to: nat)
    requires Tagged(units, from, to)
    requires u.SyncPoint? || (u.Exec? && u.tag == to)
    ensures Expectations(units + [u]) == Expectations(units) + [Expected(u)]
    ensures Tagged(units + [u], from, if u.Exec? then to + 1 else to)
    decreases units
  {
    if units != [] {
      assert (units + [u])[1..] == units[1..] + [u];
      Snoc(units[1..], u, if units[0].Exec? then from + 1 else from, to);
    }
  }

  lemma Pushed(queue: seq<Expectation>, owed: seq<Served>, unsent: seq<Unit>, lo: nat, hi: nat,
               from: Mode, mode: Mode, unread: seq<BackMsg>, log: seq<Served>, status: TransactionStatus,
               kind: ExecKind)
    requires Coupling(queue, owed, unsent, lo, hi, from, mode, unread, log, status)
    ensures Coupling(queue + [Execution(kind)], owed, unsent + [Exec(kind, hi)], lo, hi + 1,
                     from, mode, unread, log, status)
  {
    hide Chain, Flatten, LastStatus;
    Snoc(Units(owed) + unsent, Exec(kind, hi), lo, hi);
    assert Units(owed) + (unsent + [Exec(kind, hi)]) == Units(owed) + unsent + [Exec(kind, hi)];
  }

  lemma {:induction false} ChainConcat(from: Mode, a: seq<Served>, mid: Mode, b: seq<Served>, to: Mode)
    requires Chain(from, a, mid) && Chain(mid, b, to)
    ensures Chain(from, a + b, to)
    decreases b
  {
    if b == [] {
      assert a + b == a;
    } else {
      ChainSnoc(from, a, mid, b[0]);
      ChainConcat(from, a + [b[0]], NextMode(mid, b[0].trace), b[1..], to);
      assert a + [b[0]] + b[1..] == a + b;
    }
  }

  lemma Flushed(queue: seq<Expectation>, owed: seq<Served>, unsent: seq<Unit>, lo: nat, hi: nat,
                from: Mode, mode: Mode, unread: seq<BackMsg>, log: seq<Served>, status: TransactionStatus,
                served: seq<Served>, mode': Mode)
    requires Coupling(queue, owed, unsent, lo, hi, from, mode, unread, log, status)
    requires Chain(mode, served, mode') && Units(served) == unsent
    ensures Coupling(queue, owed + served, [], lo, hi, from, mode', unread + Flatten(served), log + served, status)
  {
    hide Chain, LastStatus, Flatten, Tagged, Expectations, Units;
    FlattenConcat(owed, served);
    ChainConcat(from, owed, mode, served, mode');
    assert Units(owed + served) + [] == Units(owed) + unsent;
    var n := |log| - |owed|;
    assert (log + served)[n..] == owed + served && (log + served)[..n] == log[..n];
  }

  lemma Synced(queue: seq<Expectation>, owed: seq<Served>, unsent: seq<Unit>, lo: nat, hi: nat,
               from: Mode, mode: Mode, unread: seq<BackMsg>, log: seq<Served>, status: TransactionStatus,
               served: seq<Served>, mode': Mode)
    requires Coupling(queue, owed, unsent, lo, hi, from, mode, unread, log, status)
    requires Chain(mode, served, mode') && Units(served) == unsent + [SyncPoint]
    ensures Coupling(queue + [Sync], owed + served, [], lo, hi, from, mode',
                     unread + Flatten(served), log + served, status)
    ensures served != [] && owed < owed + served
  {
    hide Chain, LastStatus, Flatten, Tagged, Expectations;
    SomeServed(served);
    hide Units;
    FlattenConcat(owed, served);
    ChainConcat(from, owed, mode, served, mode');
    Snoc(Units(owed) + unsent, SyncPoint, lo, hi);
    assert Units(owed + served) + [] == Units(owed) + (unsent + [SyncPoint]) == Units(owed) + unsent + [SyncPoint];
    var n := |log| - |owed|;
    assert (log + served)[n..] == owed + served && (log + served)[..n] == log[..n];
  }

  lemma SomeServed(served: seq<Served>)
    ensures Units(served) != [] ==> served != []
  {
  }

  lemma HeadPopped(queue: seq<Expectation>, owed: seq<Served>, unsent: seq<Unit>, lo: nat, hi: nat)
    requires Tracks(queue, owed, unsent, lo, hi) && owed != []
    ensures queue != [] && queue[0] == Expected(owed[0].unit)
    ensures owed[0].unit.SyncPoint? || (owed[0].unit.Exec? && owed[0].unit.tag == lo)
    ensures Tracks(queue[1..], owed[1..], unsent, if queue[0].Sync? then lo else lo + 1, hi)
  {
    hide Units, AllExec;
    UnitsHead(owed, unsent);
  }

  lemma UnitsHead(owed: seq<Served>, unsent: seq<Unit>)
    requires owed != []
    ensures var all := Units(owed) + unsent;
            all != [] && all[0] == owed[0].unit && all[1..] == Units(owed[1..]) + unsent
  {
    var rest := Units(owed[1..]);
    assert Units(owed) == [owed[0].unit] + rest;
    hide Units;
    assert [owed[0].unit] + rest + unsent == [owed[0].unit] + (rest + unsent);
  }

  /** The head of the queue was sent, unless it is an unsent execution. */
  lemma HeadSent(queue: seq<Expectation>, owed: seq<Served>, unsent: seq<Unit>, lo: nat, hi: nat)
    requires Tracks(queue, owed, unsent, lo, hi)
    ensures queue == [] ==> owed == [] && unsent == [] && lo == hi
    ensures queue != [] && (queue[0].Sync? || unsent == []) ==> owed != []
  {
    if owed == [] {
      assert Units(owed) + unsent == unsent;
    }
  }

  /** Reading the whole first reply, and dropping the first expectation. */
  lemma Popped(queue: seq<Expectation>, owed: seq<Served>, unsent: seq<Unit>, lo: nat, hi: nat,
               from: Mode, mode: Mode, unread: seq<BackMsg>, log: seq<Served>, status: TransactionStatus)
    requires Coupling(queue, owed, unsent, lo, hi, from, mode, unread, log, status) && owed != []
    ensures var t := owed[0].trace;
            && queue != [] && queue[0] == Expected(owed[0].unit)
            && (owed[0].unit.SyncPoint? || (owed[0].unit.Exec? && owed[0].unit.tag == lo))
            && owed[0] == log[|log| - |owed|]
            && unread == t + Flatten(owed[1..])
            && Conforms(from, owed[0].unit, t)
            && (NextMode(from, t) != Dead ==>
                  Coupling(queue[1..], owed[1..], unsent, if queue[0].Sync? then lo else lo + 1, hi,
                           NextMode(from, t), mode, Flatten(owed[1..]), log,
                           if t != [] && t[|t| - 1].ReadyForQuery? then StatusOf(t[|t| - 1].status) else status))
  {
    hide Reply, Next, Tracks, Expectations, Tagged, Units;
    HeadPopped(queue, owed, unsent, lo, hi);
    var n := |log| - |owed|;
    assert log[n + 1..] == owed[1..];
    assert log[..n + 1] == log[..n] + [owed[0]];
  }

  /** The count behind `pending_count`. */
  lemma {:induction false} Counted(units: seq<Unit>, from: nat, to: nat)
    requires Tagged(units, from, to)
    ensures to - from == Executions(Expectations(units))
    decreases units
  {
    if units != [] {
      Counted(units[1..], if units[0].Exec? then from + 1 else from, to);
    }
  }

  // -- ReadyForQuery messages against queued Syncs

  lemma {:induction false} ReadysConcat(a: seq<BackMsg>, b: seq<BackMsg>)
    ensures Readys(a + b) == Readys(a) + Readys(b)
  {
    if a == [] {
      assert a + b == b;
    } else {
      assert (a + b)[1..] == a[1..] + b;
      ReadysConcat(a[1..], b);
    }
  }

  lemma {:induction false} ReplyReadys(ph: Phase, t: seq<BackMsg>)
    requires Reply(ph, t)
    ensures Executing(ph) ==> Readys(t) == 0 && !t[|t| - 1].ReadyForQuery?
    ensures ph.WantSync? || ph.WantReady? ==> Readys(t) == if t[|t| - 1].ReadyForQuery? then 1 else 0
    decreases t
  {
    match Next(ph, t[0])
    case Last => assert t[1..] == [];
    case More(ph') => ReplyReadys(ph', t[1..]);
  }

  lemma {:induction false} LastKind(ph: Phase, t: seq<BackMsg>)
    requires Reply(ph, t) && (ph.WantSync? || ph.WantReady?)
    ensures t[|t| - 1].ReadyForQuery? || (t[|t| - 1].ErrorResponse? && t[|t| - 1].error.IsFatal())
    decreases t
  {
    match Next(ph, t[0])
    case Last =>
    case More(ph') => LastKind(ph', t[1..]);
  }

  predicate Pipelined(units: seq<Unit>) {
    forall u <- units :: u.Exec? || u.SyncPoint?
  }

  lemma {:induction false} TaggedPipelined(units: seq<Unit>, from: nat, to: nat)
    requires Tagged(units, from, to)
    ensures Pipelined(units)
    decreases units
  {
    if units != [] {
      TaggedPipelined(units[1..], if units[0].Exec? then from + 1 else from, to);
      assert units == [units[0]] + units[1..];
    }
  }

  /** A server that stays alive answers a Sync, and nothing else, with one
      ReadyForQuery. */
  lemma UnitReadys(s: Served)
    requires s.Ok() && s.mode != Dead && NextMode(s.mode, s.trace) != Dead && (s.unit.Exec? || s.unit.SyncPoint?)
    ensures Readys(s.trace) == if s.unit.SyncPoint? then 1 else 0
  {
    hide Reply, Next;
    if s.unit.SyncPoint? {
      var ph := if s.mode == Skipping then WantReady else WantSync;
      ReplyReadys(ph, s.trace);
      LastKind(ph, s.trace);
    } else if s.mode == Normal {
      ReplyReadys(Start(s.unit), s.trace);
    }
  }

  lemma QueueHead(owed: seq<Served>)
    ensures owed == [] ==> Readys(Flatten(owed)) == 0 == Syncs(Expectations(Units(owed)))
    ensures owed != [] && Pipelined(Units(owed)) ==>
              && (owed[0].unit.Exec? || owed[0].unit.SyncPoint?) && Pipelined(Units(owed[1..]))
              && Syncs(Expectations(Units(owed))) ==
                 (if owed[0].unit.SyncPoint? then 1 else 0) + Syncs(Expectations(Units(owed[1..])))
  {
    if owed != [] {
      var u, rest := owed[0].unit, Units(owed[1..]);
      assert Units(owed) == [u] + rest && Units(owed)[0] == u && Units(owed)[1..] == rest;
      assert u in Units(owed) && forall v <- rest :: v in Units(owed);
      assert Expectations(Units(owed))[1..] == Expectations(rest);
    }
  }

  lemma Outlives(from: Mode, owed: seq<Served>, to: Mode)
    requires Chain(from, owed, to) && to != Dead
    ensures from != Dead
  {
    if from == Dead {
      DeadForEver(owed, to);
    }
  }

  /** As long as the server is alive, the stream owes one ReadyForQuery for
      every Sync in the queue. */
  lemma {:induction false} Balanced(from: Mode, owed: seq<Served>, to: Mode)
    requires Chain(from, owed, to) && to != Dead && Pipelined(Units(owed))
    ensures Readys(Flatten(owed)) == Syncs(Expectations(Units(owed)))
    decreases owed
  {
    hide Reply, Next, Conforms, Chain, Flatten, Units, Expectations, Syncs, Readys, Pipelined, NextMode;
    QueueHead(owed);
    Outlives(from, owed, to);
    if owed != [] {
      var s := owed[0];
      ChainHead(from, owed, to);
      Outlives(NextMode(from, s.trace), owed[1..], to);
      UnitReadys(s);
      ReadysConcat(s.trace, Flatten(owed[1..]));
      Balanced(NextMode(from, s.trace), owed[1..], to);
    }
  }

  /** A stream that owes one ReadyForQuery too many fits no reading of the
      queue, and neither does a queue with fewer executions than tickets. */
  lemma OutOfStep(queue: seq<Expectation>, hi: nat, mode: Mode, unread: seq<BackMsg>)
    requires mode != Dead && Readys(unread) != Syncs(queue)
    ensures forall owed, from, lo, log, status ::
              !Coupling(queue, owed, [], lo, hi, from, mode, unread, log, status)
  {
    forall owed, from, lo, log, status | Coupling(queue, owed, [], lo, hi, from, mode, unread, log, status)
      ensures false
    {
      assert Units(owed) + [] == Units(owed);
      TaggedPipelined(Units(owed), lo, hi);
      Balanced(from, owed, mode);
    }
  }

  // -- Skipping asynchronous messages

  /** Past its asynchronous messages a reply goes on from the same phase. */
  lemma {:induction false} SkipAsync(ph: Phase, t: seq<BackMsg>, rest: seq<BackMsg>)
    requires Reply(ph, t)
    ensures DropAsync(t) != [] && Reply(ph, DropAsync(t)) && !DropAsync(t)[0].Async?
    ensures DropAsync(t)[|DropAsync(t)| - 1] == t[|t| - 1]
    ensures DropAsync(t + rest) == DropAsync(t) + rest
    decreases t
  {
    assert (t + rest)[0] == t[0];
    if t[0].Async? {
      assert (t + rest)[1..] == t[1..] + rest;
      SkipAsync(ph, t[1..], rest);
    }
  }

  lemma {:induction false} PastAsync(cols: Bytes, t: seq<BackMsg>)
    ensures Hears(cols, DropAsync(t)) == Hears(cols, t) && Readys(DropAsync(t)) == Readys(t)
    ensures |DropAsync(t)| <= |t|
  {
    if t != [] && t[0].Async? {
      PastAsync(cols, t[1..]);
    }
  }

  /** Reading `m` in phase `ph` leaves `u` of the reply `t`. */
  predicate Advanced(ph: Phase, cols: Bytes, t: seq<BackMsg>, m: BackMsg, u: seq<BackMsg>) {
    && |u| < |t| && Hears(cols, t) == Heard(cols, m) + Hears(ColumnsAfter(cols, m), u)
    && match Next(ph, m)
       case Illegal => false
       case Last => u == [] && m == t[|t| - 1]
       case More(ph') => Reply(ph', u) && u[|u| - 1] == t[|t| - 1]
  }

  lemma Advance(ph: Phase, cols: Bytes, t: seq<BackMsg>)
    requires Reply(ph, t)
    ensures Advanced(ph, cols, t, t[0], t[1..])
    ensures Executing(ph) && t[0].ErrorResponse? ==> t == [t[0]] && Hears(cols, t) == []
  {
    hide Reply;
    AdvanceRest(ph, t);
  }

  /** The phases of a pipelined execution. */
  predicate PipelinePhase(ph: Phase) {
    match ph
    case WantParse(then_) => then_ == ThenBind(ThenDescribe)
    case WantBind(after) => after != ThenNothing
    case WantDescribe(limited) => !limited
    case Rows(_, limited) => !limited
    case _ => false
  }

  lemma PipelineExecuting(ph: Phase)
    requires PipelinePhase(ph)
    ensures Executing(ph)
  {
  }

  lemma AdvanceExec(ph: Phase, cols: Bytes, t: seq<BackMsg>, m: BackMsg, u: seq<BackMsg>)
    requires Advanced(ph, cols, t, m, u) && PipelinePhase(ph) && !m.Async? && !m.ErrorResponse?
    ensures if m.CommandComplete? || m.EmptyQueryResponse?
            then u == [] && m == t[|t| - 1]
            else
              && (m.ParseComplete? || m.BindComplete? || m.RowDescription? || m.NoData? || m.DataRow?)
              && Next(ph, m).More? && PipelinePhase(Next(ph, m).next)
              && Reply(Next(ph, m).next, u) && u[|u| - 1] == t[|t| - 1]
  {
    hide Reply, Hears;
  }

  /** A message that starts an execution's reply gives nothing to hear. */
  lemma AdvanceQuietly(ph: Phase, cols: Bytes, t: seq<BackMsg>, m: BackMsg, u: seq<BackMsg>)
    requires Advanced(ph, cols, t, m, u) && !m.Async? && !m.ErrorResponse?
    ensures ph == WantParse(ThenBind(ThenDescribe)) ==>
              && m.ParseComplete? && Hears(cols, u) == Hears(cols, t)
              && Reply(WantBind(ThenDescribe), u) && u[|u| - 1] == t[|t| - 1]
    ensures ph == WantBind(ThenDescribe) ==>
              && m.BindComplete? && Hears(cols, u) == Hears(cols, t)
              && Reply(WantDescribe(false), u) && u[|u| - 1] == t[|t| - 1]
    ensures ph == WantBind(ThenRows) ==>
              && m.BindComplete? && Hears(cols, u) == Hears(cols, t)
              && Reply(Rows(true, false), u) && u[|u| - 1] == t[|t| - 1]
    ensures ph == WantDescribe(false) ==>
              && (m.RowDescription? || m.NoData?) && Hears(ColumnsAfter(cols, m), u) == Hears(cols, t)
              && Reply(Rows(m.RowDescription?, false), u) && u[|u| - 1] == t[|t| - 1]
  {
    hide Reply, Hears;
  }

  lemma AdvancedIs(ph: Phase, cols: Bytes, t: seq<BackMsg>, m: BackMsg, u: seq<BackMsg>)
    requires Advanced(ph, cols, t, m, u)
    ensures Hears(cols, t) == Heard(cols, m) + Hears(ColumnsAfter(cols, m), u) && t != []
    ensures match Next(ph, m)
            case Illegal => false
            case Last => u == [] && m == t[|t| - 1]
            case More(ph') => Reply(ph', u) && u[|u| - 1] == t[|t| - 1]
  {
    hide Reply, Hears, Next;
  }

  lemma RowsNext(ph: Phase, m: BackMsg)
    requires ph.Rows? && !ph.limited && !m.Async? && !m.ErrorResponse?
    ensures Next(ph, m) == if m.DataRow? && ph.has then More(ph)
                           else if m.CommandComplete? || m.EmptyQueryResponse? then Last else Illegal
  {
  }

  lemma HeardRow(cols: Bytes, m: BackMsg)
    ensures m.DataRow? ==> Heard(cols, m) == [Callback.Row(cols, m.row)] && ColumnsAfter(cols, m) == cols
  {
  }

  lemma HeardLast(cols: Bytes, m: BackMsg)
    ensures Heard(cols, m) + Hears(ColumnsAfter(cols, m), []) == Heard(cols, m)
  {
  }

  lemma AdvanceRows(ph: Phase, cols: Bytes, t: seq<BackMsg>, m: BackMsg, u: seq<BackMsg>)
    requires Advanced(ph, cols, t, m, u) && ph.Rows? && !ph.limited && !m.Async? && !m.ErrorResponse?
    ensures m.DataRow? || m.CommandComplete? || m.EmptyQueryResponse?
    ensures if m.DataRow?
            then
              && Reply(ph, u) && u[|u| - 1] == t[|t| - 1]
              && Hears(cols, t) == [Callback.Row(cols, m.row)] + Hears(cols, u)
            else u == [] && m == t[|t| - 1] && Hears(cols, t) == Heard(cols, m)
  {
    hide *;
    AdvancedIs(ph, cols, t, m, u);
    RowsNext(ph, m);
    HeardRow(cols, m);
    HeardLast(cols, m);
  }

  /** One row more and the rest. */
  lemma RowFirst(c: Callback, rest: seq<Callback>)
    ensures c.Row? ==> RowsIn([c] + rest) != []
  {
    assert ([c] + rest)[0] == c;
  }

  /** In the middle of the rows of `t`, with `u` of it unread: what was heard
      since `before`, and what is to come, is what `t` tells. */
  predicate Hearing(ph: Phase, cols: Bytes, t: seq<BackMsg>, u: seq<BackMsg>, before: seq<Callback>,
                    log: seq<Callback>) {
    && Reply(ph, u) && t != [] && u[|u| - 1] == t[|t| - 1]
    && log + Hears(cols, u) == before + Hears(cols, t)
    && (Survives(t) ==> Survives(u)) && (RowsIn(Hears(cols, t)) == [] ==> u == t)
  }

  lemma HearingIs(ph: Phase, cols: Bytes, t: seq<BackMsg>, u: seq<BackMsg>, before: seq<Callback>, log: seq<Callback>)
    requires Hearing(ph, cols, t, u, before, log)
    ensures Reply(ph, u) && t != [] && u[|u| - 1] == t[|t| - 1] && (Survives(t) ==> Survives(u))
    ensures log <= before + Hears(cols, t) && (Hears(cols, u) == [] ==> log == before + Hears(cols, t))
  {
    hide Reply, Hears, RowsIn;
    assert log <= log + Hears(cols, u);
  }

  lemma HearingRow(ph: Phase, cols: Bytes, t: seq<BackMsg>, u: seq<BackMsg>, before: seq<Callback>,
                   log: seq<Callback>, row: Bytes, u': seq<BackMsg>)
    requires Hearing(ph, cols, t, u, before, log) && Advanced(ph, cols, u, DataRow(row), u') && ph.Rows? && !ph.limited
    requires Survives(u) ==> Survives(u')
    ensures Hearing(ph, cols, t, u', before, log + [Callback.Row(cols, row)])
    ensures RowsIn(Hears(cols, t)) != [] && log + [Callback.Row(cols, row)] <= before + Hears(cols, t)
  {
    hide Reply, Hears, RowsIn, Advanced, Survives;
    AdvanceRows(ph, cols, u, DataRow(row), u');
    RowFirst(Callback.Row(cols, row), Hears(cols, u'));
    Prefixed(log, Callback.Row(cols, row), Hears(cols, u'));
  }

  lemma HearingLast(ph: Phase, cols: Bytes, t: seq<BackMsg>, u: seq<BackMsg>, before: seq<Callback>,
                    log: seq<Callback>, m: BackMsg, u': seq<BackMsg>)
    requires Hearing(ph, cols, t, u, before, log) && Advanced(ph, cols, u, m, u') && ph.Rows? && !ph.limited
    requires !m.Async? && !m.ErrorResponse?
    ensures m.DataRow? || m.CommandComplete? || m.EmptyQueryResponse?
    ensures !m.DataRow? ==> u' == [] && t[|t| - 1] == m && log + Heard(cols, m) == before + Hears(cols, t)
  {
    hide Reply, Hears, RowsIn, Advanced, Survives, Heard;
    AdvanceRows(ph, cols, u, m, u');
  }

  lemma AdvanceSync(ph: Phase, t: seq<BackMsg>)
    requires Reply(ph, t) && (ph.WantSync? || ph.WantReady?)
    ensures t[0].Async? || t[0].ErrorResponse? || t[0].ReadyForQuery?
    ensures t[0].Async? ==> Reply(ph, t[1..]) && t[1..][|t[1..]| - 1] == t[|t| - 1]
    ensures t[0].ReadyForQuery? ==> |t| == 1
    ensures HasError(t) <==> t[0].ErrorResponse? || HasError(t[1..])
  {
    ErrorAhead(t);
    hide HasError;
  }

  /** Nothing but the end of a skipped batch, or of the server, can come. */
  predicate Stalled(t: seq<BackMsg>) {
    var u := DropAsync(t);
    u == [] || u[0].ReadyForQuery? || (u[0].ErrorResponse? && u[0].error.IsFatal())
  }

  lemma {:induction false} DropAsyncSurvives(t: seq<BackMsg>)
    requires Survives(t)
    ensures Survives(DropAsync(t)) && (DropAsync(t) != [] ==> Survives(DropAsync(t)[1..]))
  {
    if t != [] && t[0].Async? {
      DropAsyncSurvives(t[1..]);
    }
  }

  /** A skipping server says nothing before ReadyForQuery or its end. */
  lemma {:induction false} SkippingStream(owed: seq<Served>, to: Mode)
    requires Chain(Skipping, owed, to)
    ensures Stalled(Flatten(owed))
    decreases owed
  {
    hide Tracks;
    if owed != [] {
      if owed[0].unit.SyncPoint? {
        SkipAsync(WantReady, owed[0].trace, Flatten(owed[1..]));
      } else {
        assert Flatten(owed) == Flatten(owed[1..]);
        SkippingStream(owed[1..], to);
      }
    }
  }

  // -- Errors that answer a Sync, a deferred constraint say

  /** Not a Sync answered with an error. */
  predicate Clean(s: Served) {
    s.unit.SyncPoint? ==> !HasError(s.trace)
  }

  predicate SyncsClean(owed: seq<Served>) {
    forall i | 0 <= i < |owed| :: Clean(owed[i])
  }

  /** The Syncs at the front are answered without an error. */
  predicate LeadClean(owed: seq<Served>) {
    owed != [] && owed[0].unit.SyncPoint? ==> Clean(owed[0]) && LeadClean(owed[1..])
  }

  /** No Sync among the units received from the `a`-th up to the `b`-th is
      answered with an error. */
  predicate CleanFrom(log: seq<Served>, a: int, b: int) {
    forall k | a <= k < b && 0 <= k < |log| :: Clean(log[k])
  }

  lemma SuffixClean(log: seq<Served>, k: nat)
    requires k <= |log|
    ensures SyncsClean(log[k..]) <==> CleanFrom(log, k, |log|)
  {
    hide Clean;
    if SyncsClean(log[k..]) {
      forall i | k <= i < |log| ensures Clean(log[i]) {
        assert log[i] == log[k..][i - k];
      }
    }
  }

  lemma CleanHead(owed: seq<Served>)
    requires owed != []
    ensures SyncsClean(owed) <==> Clean(owed[0]) && SyncsClean(owed[1..])
  {
    hide Clean;
    if Clean(owed[0]) && SyncsClean(owed[1..]) {
      forall i | 0 <= i < |owed| ensures Clean(owed[i]) {
        assert i > 0 ==> owed[i] == owed[1..][i - 1];
      }
    }
  }

  lemma {:induction false} LeadOfClean(owed: seq<Served>)
    ensures SyncsClean(owed) ==> LeadClean(owed)
  {
    if owed != [] {
      CleanHead(owed);
      LeadOfClean(owed[1..]);
    }
  }

  // -- Counting ReadyForQuery when nothing else is known

  /** Executions and a Sync behind them are owed one ReadyForQuery. */
  lemma SyncOwed(units: seq<Unit>, from: Mode, served: seq<Served>, to: Mode,
                 unread: seq<BackMsg>, queue: seq<Expectation>)
    requires Chain(from, served, to) && Units(served) == units + [SyncPoint]
    ensures AllExec(units) ==> Readys(unread + Flatten(served)) <= Readys(unread) + 1
    ensures AllExec(units) && to != Dead ==> Readys(unread + Flatten(served)) == Readys(unread) + 1
    ensures Syncs(queue + [Sync]) == Syncs(queue) + 1
  {
    SyncsSnoc(queue, Sync);
    if AllExec(units) {
      hide Chain, Flatten, Readys, Syncs, Expectations;
      PipelinedSync(units);
      OneSync(units);
      AtMostBalanced(from, served, to);
      ReadysConcat(unread, Flatten(served));
      if to != Dead {
        Balanced(from, served, to);
      }
    }
  }

  lemma PipelinedSync(units: seq<Unit>)
    requires AllExec(units)
    ensures Pipelined(units + [SyncPoint])
  {
  }

  /** However long the server is alive, no reply but a Sync's holds a
      ReadyForQuery. */
  lemma {:induction false} AtMostBalanced(from: Mode, owed: seq<Served>, to: Mode)
    requires Chain(from, owed, to) && Pipelined(Units(owed))
    ensures Readys(Flatten(owed)) <= Syncs(Expectations(Units(owed)))
    decreases owed
  {
    hide Reply, Next, Conforms, Chain, Flatten, Units, Expectations, Syncs, Readys, Pipelined, NextMode;
    QueueHead(owed);
    if owed != [] {
      var s := owed[0];
      ChainHead(from, owed, to);
      AtMostBalanced(NextMode(from, s.trace), owed[1..], to);
      UnitReadysAtMost(s);
      ReadysConcat(s.trace, Flatten(owed[1..]));
    }
  }

  lemma UnitReadysAtMost(s: Served)
    requires s.Ok() && (s.unit.Exec? || s.unit.SyncPoint?)
    ensures Readys(s.trace) <= if s.unit.SyncPoint? then 1 else 0
  {
    hide Reply, Next;
    if s.mode != Dead && s.unit.SyncPoint? {
      ReplyReadys(if s.mode == Skipping then WantReady else WantSync, s.trace);
    } else if s.mode == Normal {
      ReplyReadys(Start(s.unit), s.trace);
    }
  }

  /** Unsent executions add no Sync. */
  lemma {:induction false} SyncsOfSent(a: seq<Unit>, b: seq<Unit>)
    requires AllExec(b)
    ensures Syncs(Expectations(a + b)) == Syncs(Expectations(a))
  {
    if a == [] {
      assert a + b == b;
      NoSyncs(b);
    } else {
      assert (a + b)[1..] == a[1..] + b;
      SyncsOfSent(a[1..], b);
      assert Expectations(a + b)[1..] == Expectations(a[1..] + b) && Expectations(a)[1..] == Expectations(a[1..]);
    }
  }

  /** Executions, and a server's last words, hold no ReadyForQuery. */
  lemma OwesNoReady(from: Mode, served: seq<Served>, to: Mode, units: seq<Unit>, unread: seq<BackMsg>, words: LastWords)
    requires Chain(from, served, to) && Units(served) <= units && AllExec(units)
    ensures Readys(unread + Flatten(served) + words) == Readys(unread)
  {
    hide Chain, Flatten, Readys, Syncs, Expectations;
    AtMostBalanced(from, served, to);
    NoSyncs(Units(served));
    NoReadys(words);
    ReadysConcat(unread, Flatten(served));
    ReadysConcat(unread + Flatten(served), words);
  }

  lemma {:induction false} NoSyncs(units: seq<Unit>)
    requires AllExec(units)
    ensures Syncs(Expectations(units)) == 0
  {
    if units != [] {
      NoSyncs(units[1..]);
      assert Expectations(units)[1..] == Expectations(units[1..]);
    }
  }

  lemma {:induction false} NoReadys(t: seq<BackMsg>)
    requires forall m <- t :: !m.ReadyForQuery?
    ensures Readys(t) == 0
  {
    if t != [] {
      assert forall m <- t[1..] :: m in t;
      NoReadys(t[1..]);
    }
  }

  lemma NoneQueued()
    ensures Syncs([]) == 0 && AllExec([])
    ensures forall log: seq<Served> :: CleanFrom(log, |log|, |log|)
  {
  }

  lemma {:induction false} SyncsSnoc(queue: seq<Expectation>, e: Expectation)
    ensures Syncs(queue + [e]) == Syncs(queue) + if e.Sync? then 1 else 0
  {
    if queue == [] {
      assert queue + [e] == [e] && [e][1..] == [];
      assert Syncs([]) == 0;
    } else {
      assert (queue + [e])[1..] == queue[1..] + [e];
      SyncsSnoc(queue[1..], e);
    }
  }

  lemma SyncsTail(queue: seq<Expectation>)
    ensures Syncs(queue) == Syncs(Tail(queue)) + if StartsWithSync(queue) then 1 else 0
  {
  }

  lemma {:induction false} OneSync(units: seq<Unit>)
    requires AllExec(units)
    ensures Syncs(Expectations(units + [SyncPoint])) == 1
    decreases units
  {
    if units == [] {
      assert units + [SyncPoint] == [SyncPoint] && [SyncPoint][1..] == [];
      assert Syncs(Expectations([])) == 0 && [Sync] + [] == [Sync] && [Sync][1..] == [];
    } else {
      assert (units + [SyncPoint])[1..] == units[1..] + [SyncPoint];
      OneSync(units[1..]);
      var queue := Expectations(units + [SyncPoint]);
      assert queue[0] == Expected(units[0]) && queue[1..] == Expectations(units[1..] + [SyncPoint]);
    }
  }

  /** The next message that is not asynchronous is ReadyForQuery. */
  predicate ReadyNext(t: seq<BackMsg>) {
    DropAsync(t) != [] && DropAsync(t)[0].ReadyForQuery?
  }

  lemma ReadyNextStep(t: seq<BackMsg>)
    ensures ReadyNext(t) ==> t != [] && (t[0].Async? || t[0].ReadyForQuery?)
    ensures ReadyNext(t) && t[0].Async? ==> ReadyNext(t[1..])
    ensures t != [] ==> Readys(t) == Readys(t[1..]) + if t[0].ReadyForQuery? then 1 else 0
  {
  }

  lemma ReadyFirst(t: seq<BackMsg>, rest: seq<BackMsg>)
    requires Reply(WantReady, t) && Survives(t)
    ensures ReadyNext(t + rest)
  {
    SkipAsync(WantReady, t, rest);
    KeptAsync(t);
    assert DropAsync(t)[0] in t;
  }

  lemma {:induction false} KeptAsync(t: seq<BackMsg>)
    ensures forall m <- DropAsync(t) :: m in t
  {
    if t != [] && t[0].Async? {
      KeptAsync(t[1..]);
    }
  }

  /** Executions, and one Sync behind them. */
  predicate SkipsToSync(queue: seq<Expectation>) {
    && queue != [] && queue[|queue| - 1].Sync?
    && forall i | 0 <= i < |queue| - 1 :: queue[i].Execution?
  }

  /** The first message that is not asynchronous, and what is left of its reply
      and of the stream. */
  lemma NextOf(ph: Phase, cols: Bytes, t: seq<BackMsg>, rest: seq<BackMsg>)
    requires Reply(ph, t) && Executing(ph)
    ensures DropAsync(t) != [] && DropAsync(t + rest) == [DropAsync(t)[0]] + (DropAsync(t)[1..] + rest)
    ensures Advanced(ph, cols, t, DropAsync(t)[0], DropAsync(t)[1..])
    ensures DropAsync(t)[0].ErrorResponse? ==>
              DropAsync(t)[1..] == [] && t[|t| - 1] == DropAsync(t)[0] && Hears(cols, t) == []
    ensures Survives(t) ==>
              && Survives(DropAsync(t)[1..])
              && (DropAsync(t)[0].ErrorResponse? ==> !DropAsync(t)[0].error.IsFatal())
  {
    hide Reply, Next, Hears, Readys;
    SkipAsync(ph, t, rest);
    PastAsync(cols, t);
    var u := DropAsync(t);
    assert u == [u[0]] + u[1..];
    Advance(ph, cols, u);
    if Survives(t) {
      DropAsyncSurvives(t);
      assert u[0] in u;
    }
  }

  lemma Uncons(a: BackMsg, x: seq<BackMsg>, b: BackMsg, y: seq<BackMsg>)
    ensures [a] + x == [b] + y ==> a == b && x == y
  {
    assert ([a] + x)[0] == a && ([a] + x)[1..] == x;
    assert ([b] + y)[0] == b && ([b] + y)[1..] == y;
  }

  lemma Prefixed(log: seq<Callback>, c: Callback, rest: seq<Callback>)
    ensures log + ([c] + rest) == log + [c] + rest
    ensures log + [c] <= log + ([c] + rest)
  {
  }
}
