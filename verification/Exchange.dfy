/** One exchange up to ReadyForQuery: the replies to a run of units and the
    Sync behind them, as one stream. */
module Exchange {
  import opened Protocol
  import opened Server

  predicate SelfSyncing(u: Unit) {
    u.SyncPoint? || u.SimpleQuery?
  }

  predicate Plain(units: seq<Unit>) {
    forall u <- units :: !SelfSyncing(u)
  }

  datatype Stage = Stage(ph: Phase, todo: seq<Unit>)

  datatype Progress = Unexpected | Onward(next: Stage) | Ended | Gone

  /** The next message of an exchange: after the last message of one unit the
      server answers the next, after an error it waits for the Sync. */
  function Progresses(st: Stage, m: BackMsg): Progress {
    if m.ErrorResponse? then
      if m.error.IsFatal() then Gone
      else if st.ph.WantReady? then Unexpected
      else Onward(Stage(WantReady, []))
    else
      match Next(st.ph, m)
      case Illegal => Unexpected
      case More(ph) => Onward(Stage(ph, st.todo))
      case Last =>
        if m.ReadyForQuery? then Ended
        else if st.todo == [] then Onward(Stage(WantSync, []))
        else Onward(Stage(Start(st.todo[0]), st.todo[1..]))
  }

  /** `t` is everything that is left of the exchange. */
  predicate Rest(st: Stage, t: seq<BackMsg>): (whole: bool)
    ensures whole ==> t != []
    decreases t
  {
    && t != []
    && match Progresses(st, t[0])
       case Unexpected => false
       case Onward(st') => Rest(st', t[1..])
       case Ended | Gone => |t| == 1
  }

  function Opening(units: seq<Unit>): Stage
    requires units != []
  {
    Stage(Start(units[0]), units[1..])
  }

  /** The error an exchange ends with, if any: the last one sent. */
  function ErrorIn(t: seq<BackMsg>, before: Outcome<()>): Outcome<()> {
    if t == [] then before
    else ErrorIn(t[1..], if t[0].ErrorResponse? then Fail(ServerFailure(t[0].error)) else before)
  }

  lemma {:induction false} AfterUnit(ph: Phase, todo: seq<Unit>, t: seq<BackMsg>, rest: seq<BackMsg>)
    requires Reply(ph, t) && Executing(ph)
    requires var m := t[|t| - 1];
             if m.ErrorResponse? then
               if m.error.IsFatal() then rest == [] else Rest(Stage(WantReady, []), rest)
             else Rest(if todo == [] then Stage(WantSync, []) else Opening(todo), rest)
    ensures Rest(Stage(ph, todo), t + rest)
    ensures !t[|t| - 1].ReadyForQuery?
    decreases t
  {
    hide Reply, Executing;
    AdvanceRest(ph, t);
    assert (t + rest)[0] == t[0] && (t + rest)[1..] == t[1..] + rest;
    UnitStep(ph, t[0]);
    hide Next;
    match Next(ph, t[0])
    case Last => assert t[1..] + rest == rest;
    case More(ph') => AfterUnit(ph', todo, t[1..], rest);
  }

  lemma UnitStep(ph: Phase, m: BackMsg)
    requires Executing(ph) && !Next(ph, m).Illegal?
    ensures !m.ReadyForQuery? && (m.ErrorResponse? ==> Next(ph, m) == Last)
    ensures Next(ph, m).More? ==> Executing(Next(ph, m).next)
  {
  }

  /** A reply that ends with ReadyForQuery is an exchange of its own. */
  lemma {:induction false} SelfContained(ph: Phase, t: seq<BackMsg>)
    requires Reply(ph, t) && !Executing(ph)
    ensures Rest(Stage(ph, []), t)
    ensures t[|t| - 1].ReadyForQuery? || (t[|t| - 1].ErrorResponse? && t[|t| - 1].error.IsFatal())
    decreases t
  {
    match Next(ph, t[0])
    case Last =>
    case More(ph') => SelfContained(ph', t[1..]);
  }

  /** How the exchange ended for the server. */
  predicate Concluded(served: seq<Served>, to: Mode) {
    var t := Flatten(served);
    && t != []
    && if t[|t| - 1].ReadyForQuery? then
         var s := served[|served| - 1].trace;
         to == Normal && served != [] && s != [] && s[|s| - 1] == t[|t| - 1]
       else t[|t| - 1].ErrorResponse? && t[|t| - 1].error.IsFatal()
  }

  lemma PlainHead(units: seq<Unit>)
    requires units != [] && Plain(units)
    ensures Plain(units[1..]) && !SelfSyncing(units[0]) && Executing(Start(units[0]))
    ensures units + [SyncPoint] == [units[0]] + (units[1..] + [SyncPoint])
  {
    assert units[0] in units;
  }

  lemma ConcludedBehind(served: seq<Served>, to: Mode)
    requires served != []
    ensures Concluded(served[1..], to) ==> Concluded(served, to)
  {
    var t, rest := served[0].trace, Flatten(served[1..]);
    assert Flatten(served) == t + rest;
    assert rest != [] ==> (t + rest)[|t + rest| - 1] == rest[|rest| - 1];
  }

  /** The first of some plain units and a Sync, and its reply. */
  lemma FirstPlain(from: Mode, units: seq<Unit>, served: seq<Served>, to: Mode)
    requires units != [] && Plain(units) && Units(served) == units + [SyncPoint] && Chain(from, served, to)
    ensures served != [] && Units(served[1..]) == units[1..] + [SyncPoint] && Plain(units[1..])
    ensures var t := served[0].trace;
            && Flatten(served) == t + Flatten(served[1..])
            && Chain(NextMode(from, t), served[1..], to) && served[0].mode == from
            && (from == Normal ==> Executing(Start(units[0])) && Reply(Start(units[0]), t))
            && (from == Skipping ==> t == [])
    ensures Concluded(served[1..], to) ==> Concluded(served, to)
  {
    PlainHead(units);
    hide Reply, Next, Plain, Units, Chain, Flatten, SelfSyncing, Executing, Start, Concluded;
    FirstUnit(served, units[0], units[1..] + [SyncPoint]);
    ChainHead(from, served, to);
    ConcludedBehind(served, to);
  }

  lemma {:induction false} Skips(units: seq<Unit>, served: seq<Served>, to: Mode)
    requires Plain(units) && Units(served) == units + [SyncPoint] && Chain(Skipping, served, to)
    ensures Rest(Stage(WantReady, []), Flatten(served)) && Concluded(served, to)
    decreases units
  {
    hide *;
    if units == [] {
      assert units + [SyncPoint] == [SyncPoint];
      JustSync(Skipping, served, to);
    } else {
      FirstPlain(Skipping, units, served, to);
      assert [] + Flatten(served[1..]) == Flatten(served[1..]);
      StaysSkipping();
      Skips(units[1..], served[1..], to);
    }
  }

  lemma StaysSkipping()
    ensures NextMode(Skipping, []) == Skipping
  {
  }

  lemma JustSync(from: Mode, served: seq<Served>, to: Mode)
    requires from != Dead && Units(served) == [SyncPoint] && Chain(from, served, to)
    ensures Rest(Stage(if from == Skipping then WantReady else WantSync, []), Flatten(served))
    ensures Concluded(served, to)
  {
    hide Rest, Next;
    FirstUnit(served, SyncPoint, []);
    SelfContained(if from == Skipping then WantReady else WantSync, served[0].trace);
  }

  lemma JustQuery(text: string, served: seq<Served>, to: Mode)
    requires Units(served) == [SimpleQuery(text)] && Chain(Normal, served, to)
    ensures Rest(Stage(QueryResponse, []), Flatten(served)) && Concluded(served, to)
  {
    hide Rest, Next;
    FirstUnit(served, SimpleQuery(text), []);
    SelfContained(QueryResponse, served[0].trace);
  }

  /** Where an exchange goes on after a unit that left the server in `mode`. */
  function Resumed(mode: Mode, units: seq<Unit>): Stage {
    if mode == Skipping then Stage(WantReady, [])
    else if units == [] then Stage(WantSync, [])
    else Opening(units)
  }

  lemma {:induction false} Remainder(mode: Mode, units: seq<Unit>, served: seq<Served>, to: Mode)
    requires mode != Dead && Plain(units) && Units(served) == units + [SyncPoint] && Chain(mode, served, to)
    ensures Rest(Resumed(mode, units), Flatten(served)) && Concluded(served, to)
    decreases units, 1
  {
    hide Rest, Next, Chain, Flatten, Units, Plain, Concluded;
    if mode == Skipping {
      Skips(units, served, to);
    } else if units == [] {
      assert units + [SyncPoint] == [SyncPoint];
      JustSync(mode, served, to);
    } else {
      IsExchange(units, served, to);
    }
  }

  /** What a server that executes answers to plain units and a Sync is one
      exchange from the first unit on. */
  lemma {:induction false} IsExchange(units: seq<Unit>, served: seq<Served>, to: Mode)
    requires units != [] && Plain(units) && Units(served) == units + [SyncPoint] && Chain(Normal, served, to)
    ensures Rest(Opening(units), Flatten(served)) && Concluded(served, to)
    decreases units, 0
  {
    FirstPlain(Normal, units, served, to);
    hide Rest, Next, Reply, Plain, Chain, Flatten, Units, Executing, Start;
    var t, rest := served[0].trace, served[1..];
    var mode := NextMode(Normal, t);
    if mode == Dead {
      DeadForEver(rest, to);
      assert t + [] == t;
    } else {
      Remainder(mode, units[1..], rest, to);
    }
    AfterUnit(Start(units[0]), units[1..], t, Flatten(rest));
  }

  predicate HasError(t: seq<BackMsg>) {
    exists m <- t :: m.ErrorResponse?
  }

  predicate HasEmpty(t: seq<BackMsg>) {
    exists m <- t :: m.EmptyQueryResponse?
  }

  lemma Head(st: Stage, t: seq<BackMsg>)
    requires Rest(st, t)
    ensures match Progresses(st, t[0])
            case Unexpected => false
            case Onward(st') => Rest(st', t[1..])
            case _ => t[1..] == []
    ensures Progresses(st, t[0]).Ended? <==> t[0].ReadyForQuery?
    ensures Progresses(st, t[0]).Gone? ==> t[0].ErrorResponse? && t[0].error.IsFatal()
    ensures Survives(t) ==> !Progresses(st, t[0]).Gone? && Survives(t[1..])
    ensures HasError(t) <==> t[0].ErrorResponse? || HasError(t[1..])
    ensures HasEmpty(t) <==> t[0].EmptyQueryResponse? || HasEmpty(t[1..])
  {
    assert t == [t[0]] + t[1..];
  }

  /** Message `k` is the last error of the stream. */
  predicate LastError(t: seq<BackMsg>, k: nat) {
    k < |t| && t[k].ErrorResponse? && forall j | k < j < |t| :: !t[j].ErrorResponse?
  }

  /** The error an exchange ends with is the last one in it. */
  lemma {:induction false} ErrorIs(t: seq<BackMsg>, before: Outcome<()>)
    ensures !HasError(t) ==> ErrorIn(t, before) == before
    ensures HasError(t) ==>
              exists k: nat :: LastError(t, k) && ErrorIn(t, before) == Fail(ServerFailure(t[k].error))
    decreases t
  {
    if t != [] {
      assert t == [t[0]] + t[1..];
      ErrorAhead(t);
      var before' := if t[0].ErrorResponse? then Fail(ServerFailure(t[0].error)) else before;
      ErrorIs(t[1..], before');
      if HasError(t[1..]) {
        var k: nat :| LastError(t[1..], k) && ErrorIn(t[1..], before') == Fail(ServerFailure(t[1..][k].error));
        assert LastError(t, k + 1) by {
          assert forall j | k + 1 < j < |t| :: t[j] == t[1..][j - 1];
        }
      } else if t[0].ErrorResponse? {
        assert LastError(t, 0) by {
          forall j | 0 < j < |t| ensures !t[j].ErrorResponse? {
            assert t[j] == t[1..][j - 1] && t[1..][j - 1] in t[1..];
          }
        }
      }
    }
  }

  lemma {:induction false} ErrorIff(t: seq<BackMsg>, before: Outcome<()>)
    requires before.Fail? ==> before.error.ServerFailure?
    ensures ErrorIn(t, before).Done? <==> before.Done? && !HasError(t)
    ensures ErrorIn(t, before).Fail? ==> ErrorIn(t, before).error.ServerFailure?
    ensures Survives(t) && (before.Fail? ==> !before.error.IsConnectionBroken()) && ErrorIn(t, before).Fail? ==>
              !ErrorIn(t, before).error.IsConnectionBroken()
    decreases t
  {
    if t != [] {
      assert t == [t[0]] + t[1..];
      ErrorIff(t[1..], if t[0].ErrorResponse? then Fail(ServerFailure(t[0].error)) else before);
    }
  }

  lemma {:induction false} NeverDropped(t: seq<BackMsg>, before: Outcome<()>)
    requires !before.Dropped?
    ensures !ErrorIn(t, before).Dropped?
    decreases t
  {
    if t != [] {
      NeverDropped(t[1..], if t[0].ErrorResponse? then Fail(ServerFailure(t[0].error)) else before);
    }
  }

  lemma UnfoldError(t: seq<BackMsg>, before: Outcome<()>)
    requires t != []
    ensures ErrorIn(t, before) ==
            ErrorIn(t[1..], if t[0].ErrorResponse? then Fail(ServerFailure(t[0].error)) else before)
    ensures ErrorIn([], before) == before
  {
  }

  lemma NoErrorIn(t: seq<BackMsg>, rest: seq<BackMsg>)
    requires !HasError(t + rest)
    ensures !HasError(t) && !HasError(rest)
    ensures t != [] ==> !t[|t| - 1].ErrorResponse?
    ensures NextMode(Normal, t) == Normal
  {
    assert forall m <- t :: m in t + rest;
    assert forall m <- rest :: m in t + rest;
    if t != [] {
      assert t[|t| - 1] in t + rest;
    }
  }

  /** What may answer a Sync. */
  lemma SyncStep(st: Stage, m: BackMsg)
    requires (st.ph.WantSync? || st.ph.WantReady?) && st.todo == [] && !Progresses(st, m).Unexpected?
    ensures m.Async? || m.ReadyForQuery? || m.ErrorResponse?
    ensures m.Async? ==> Progresses(st, m) == Onward(st)
    ensures m.ErrorResponse? ==> Progresses(st, m) == if m.error.IsFatal() then Gone else Onward(Stage(WantReady, []))
  {
  }

  /** The reply to a single unit that no Sync follows. */
  lemma JustOne(u: Unit, served: seq<Served>, to: Mode)
    requires Units(served) == [u] && Chain(Normal, served, to)
    ensures |served| == 1 && Reply(Start(u), Flatten(served)) && to == NextMode(Normal, Flatten(served))
  {
    FirstUnit(served, u, []);
  }

  lemma ErrorInEither(t: seq<BackMsg>, rest: seq<BackMsg>)
    ensures HasError(t + rest) <==> HasError(t) || HasError(rest)
  {
    assert forall m <- t + rest :: m in t || m in rest;
    assert forall m <- t :: m in t + rest;
    assert forall m <- rest :: m in t + rest;
  }

  lemma ErrorAhead(t: seq<BackMsg>)
    requires t != []
    ensures HasError(t) <==> t[0].ErrorResponse? || HasError(t[1..])
    ensures HasEmpty(t) <==> t[0].EmptyQueryResponse? || HasEmpty(t[1..])
    ensures !HasError([])
  {
    assert t == [t[0]] + t[1..];
  }

  /** What may answer a Close. */
  lemma CloseStep(m: BackMsg)
    requires !Next(WantClose, m).Illegal?
    ensures m.Async? || m.CloseComplete? || m.ErrorResponse?
    ensures Next(WantClose, m) == if m.Async? then More(WantClose) else Last
  {
  }

  /** Nothing in the stream stands in the way of a portal. */
  predicate Smooth(t: seq<BackMsg>) {
    !HasError(t) && !HasEmpty(t)
  }

  lemma SmoothSurvives(t: seq<BackMsg>)
    ensures Smooth(t) ==> Survives(t)
  {
  }

  lemma SmoothInBoth(t: seq<BackMsg>, rest: seq<BackMsg>)
    ensures Smooth(t + rest) <==> Smooth(t) && Smooth(rest)
  {
    ErrorInEither(t, rest);
    assert forall m <- t + rest :: m in t || m in rest;
    assert forall m <- t :: m in t + rest;
    assert forall m <- rest :: m in t + rest;
  }
}
