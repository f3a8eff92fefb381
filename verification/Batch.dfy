/** Executing a statement with many parameter sets: the machine for one chunk,
    and what a chunk leaves behind in the database. */
module Batches {
  import opened Protocol
  import opened Server
  import opened Exchange
  import opened Machines

  datatype State = Initial | WaitingParse | Processing | Finished

  function Applies(source: Source, params: seq<nat>): (units: seq<Unit>)
    ensures |units| == |params| && forall i | 0 <= i < |params| :: units[i] == Apply(source, params[i])
  {
    seq(|params|, i requires 0 <= i < |params| => Apply(source, params[i]))
  }

  /** One chunk as it is written, without its Sync. */
  function Chunk(source: Source, params: seq<nat>): seq<Unit> {
    (if source.Sql? then [ParseOnly(source.text)] else []) + Applies(source, params)
  }

  /** Everything a batch sends, chunk by chunk: each has this text, if the
      statement is raw, its own parameter sets, and a Sync. */
  function Batched(source: Source, params: seq<nat>, c: nat): (units: seq<Unit>)
    requires c > 0
    ensures forall u <- units ::
              || u == SyncPoint || (source.Sql? && u == ParseOnly(source.text))
              || (u.Apply? && u.source == source && u.params in params)
    decreases params
  {
    if params == [] then []
    else
      var n := if c < |params| then c else |params|;
      ChunkUnits(source, params[..n]);
      Chunk(source, params[..n]) + [SyncPoint] + Batched(source, params[n..], c)
  }

  lemma ChunkUnits(source: Source, params: seq<nat>)
    ensures forall u <- Chunk(source, params) ::
              (source.Sql? && u == ParseOnly(source.text)) || (u.Apply? && u.source == source && u.params in params)
  {
    forall u <- Applies(source, params) ensures u.Apply? && u.source == source && u.params in params {
      var i :| 0 <= i < |params| && u == Applies(source, params)[i];
      assert u.params == params[i];
    }
  }

  /** The server got the whole chunks up to parameter set `done`, no more. */
  predicate SentUpTo(source: Source, params: seq<nat>, c: nat, done: nat, served: seq<Served>)
    requires c > 0
  {
    done <= |params| && Batched(source, params, c) == Units(served) + Batched(source, params[done..], c)
  }

  lemma NothingSent(source: Source, params: seq<nat>, c: nat)
    requires c > 0
    ensures SentUpTo(source, params, c, 0, [])
  {
    assert params[0..] == params && [] + Batched(source, params, c) == Batched(source, params, c);
  }

  lemma AllSent(source: Source, params: seq<nat>, c: nat, served: seq<Served>)
    requires c > 0 && SentUpTo(source, params, c, |params|, served)
    ensures Units(served) == Batched(source, params, c)
  {
    assert params[|params|..] == [] && Units(served) + [] == Units(served);
  }

  lemma BatchedStep(source: Source, params: seq<nat>, c: nat, lo: nat, hi: nat)
    requires c > 0 && lo < |params| && hi == (if lo + c < |params| then lo + c else |params|)
    ensures Batched(source, params[lo..], c) ==
            Chunk(source, params[lo..hi]) + [SyncPoint] + Batched(source, params[hi..], c)
  {
    assert params[lo..][..hi - lo] == params[lo..hi] && params[lo..][hi - lo..] == params[hi..];
  }

  predicate AllApply(units: seq<Unit>) {
    forall i | 0 <= i < |units| :: units[i].Apply?
  }

  /** The machine for one chunk. */
  class Batch {
    const needsParse: bool
    var state: State
    var transactionStatus: TransactionStatus
    var pendingError: Option<ServerError>

    constructor (needsParse: bool)
      ensures this.needsParse == needsParse && state == Initial && pendingError == None
    {
      this.needsParse := needsParse;
      state, transactionStatus, pendingError := Initial, Idle, None;
    }

    /** The machine is where the server is. */
    predicate Follows(st: Stage)
      reads this
    {
      && (pendingError.Some? <==> st.ph.WantReady?)
      && AllApply(st.todo)
      && match st.ph
         case WantParse(then_) => state == WaitingParse && then_ == ThenEnd
         case WantBind(after) => state == Processing && after == ThenRows
         case Rows(_, limited) => state == Processing && !limited
         case WantSync => state == Processing && st.todo == []
         case WantReady => state == Processing
         case _ => false
    }

    /** One step: nothing but errors and the end of the exchange matters. */
    method Step(m: BackMsg, ghost st: Stage) returns (r: Outcome<Action>)
      modifies this
      ensures old(state == Initial && pendingError == None) ==>
                && r == Done(WriteAndReadMessage) && state == (if needsParse then WaitingParse else Processing)
                && pendingError == old(pendingError)
      ensures old(state != Initial && Follows(st)) && !Progresses(st, m).Unexpected? ==>
                match Progresses(st, m)
                case Onward(st') =>
                  && r == Done(ReadMessage) && Follows(st') && state != Initial
                  && pendingError == (if m.ErrorResponse? then Some(m.error) else old(pendingError))
                case Ended =>
                  && m.ReadyForQuery? && transactionStatus == StatusOf(m.status)
                  && r == Done(match old(pendingError) case Some(e) => Report(e) case None => Finish)
                case _ => r == Done(ReadMessage)
    {
      hide Reply, Rest, StatusOf;
      if state == Initial {
        state := if needsParse then WaitingParse else Processing;
        return Done(WriteAndReadMessage);
      }
      if m.Async? {
        return Done(ReadMessage);
      }
      if m.ErrorResponse? {
        pendingError := Some(m.error);
        state := Processing;
        return Done(ReadMessage);
      }
      match state {
        case WaitingParse =>
          if !m.ParseComplete? {
            return Fail(LibraryBug("expected ParseComplete"));
          }
          state := Processing;
        case Processing =>
          match m {
            case BindComplete | NoData | RowDescription(_) | DataRow(_) | CommandComplete(_) | EmptyQueryResponse =>
            case ReadyForQuery(status) =>
              transactionStatus := StatusOf(status);
              state := Finished;
              if pendingError.Some? {
                var e := pendingError.value;
                pendingError := None;
                return Done(Report(e));
              }
              return Done(Finish);
            case _ => return Fail(LibraryBug("unexpected message in batch"));
          }
        case _ => return Fail(LibraryBug("unexpected state"));
      }
      return Done(ReadMessage);
    }

    /** In the middle of the exchange `t`, of which `u` is left. */
    ghost predicate Runs(st: Stage, u: seq<BackMsg>, t: seq<BackMsg>)
      reads this
    {
      && Rest(st, u) && Follows(st) && state != Initial
      && ErrorIn(u, Raised(pendingError)) == ErrorIn(t, Done(()))
      && t != [] && u[|u| - 1] == t[|t| - 1]
    }

    /** One step inside an exchange. */
    method Advance(m: BackMsg, ghost st: Stage, ghost u: seq<BackMsg>, ghost t: seq<BackMsg>)
      returns (r: Outcome<Action>, ghost st': Stage)
      requires Runs(st, u, t) && m == u[0]
      modifies this
      ensures r.Done? && (r.value.Report? || r.value == Finish || r.value == ReadMessage)
      ensures r.value.Reads() && u[1..] != [] ==> Runs(st', u[1..], t)
      ensures r.value.Reads() && Survives(u) ==> u[1..] != [] && Survives(u[1..])
      ensures Stopped(r) ==>
                && u == [m] && m.ReadyForQuery? && m == t[|t| - 1] && transactionStatus == StatusOf(m.status)
                && ErrorIn(t, Done(())) == (if r.value.Report? then Fail(ServerFailure(r.value.error)) else Done(()))
    {
      hide ErrorIn, Rest, StatusOf, Progresses, Follows, Survives;
      Head(st, u);
      UnfoldError(u, Raised(pendingError));
      st' := if Progresses(st, m).Onward? then Progresses(st, m).next else st;
      r := Step(m, st);
    }
  }

  // -- What a server makes durable outside an explicit transaction

  /** Everything between two Syncs is one implicit transaction: the parameter
      sets applied since the last Sync take effect at the next one, unless the
      server reported an error on the way. */
  datatype Effects = Effects(durable: seq<nat>, pending: seq<nat>, failed: bool)

  function Effect1(e: Effects, s: Served): Effects {
    var failed := e.failed || HasError(s.trace);
    if s.unit.SyncPoint? then
      Effects(if failed || s.trace == [] then e.durable else e.durable + e.pending, [], failed && s.trace == [])
    else if s.unit.Apply? && s.trace != [] then e.(pending := e.pending + [s.unit.params], failed := failed)
    else e.(failed := failed)
  }

  function Effect(e: Effects, served: seq<Served>): Effects
    decreases served
  {
    if served == [] then e else Effect(Effect1(e, served[0]), served[1..])
  }

  const NOTHING := Effects([], [], false)

  /** The parameter sets that took effect, in order. */
  function Durable(served: seq<Served>): seq<nat> {
    Effect(NOTHING, served).durable
  }

  lemma {:induction false} EffectConcat(e: Effects, a: seq<Served>, b: seq<Served>)
    ensures Effect(e, a + b) == Effect(Effect(e, a), b)
    decreases a
  {
    if a == [] {
      assert a + b == b;
    } else {
      assert (a + b)[1..] == a[1..] + b;
      EffectConcat(Effect1(e, a[0]), a[1..], b);
    }
  }

  /** Before a Sync nothing takes effect. */
  lemma {:induction false} NotYet(e: Effects, served: seq<Served>)
    requires forall i | 0 <= i < |served| :: !served[i].unit.SyncPoint?
    ensures Effect(e, served).durable == e.durable
    decreases served
  {
    if served != [] {
      NotYet(Effect1(e, served[0]), served[1..]);
    }
  }

  /** No Sync among the units. */
  predicate Unsynced(units: seq<Unit>) {
    forall i | 0 <= i < |units| :: !units[i].SyncPoint?
  }

  function ParamsOf(units: seq<Unit>): seq<nat> {
    if units == [] then [] else (if units[0].Apply? then [units[0].params] else []) + ParamsOf(units[1..])
  }

  lemma {:induction false} ParamsOfApplies(source: Source, params: seq<nat>)
    ensures ParamsOf(Applies(source, params)) == params
  {
    if params != [] {
      assert Applies(source, params)[1..] == Applies(source, params[1..]);
      ParamsOfApplies(source, params[1..]);
    }
  }

  /** A chunk without an error takes effect as a whole, at its Sync. */
  lemma {:induction false} ChunkSucceeds(e: Effects, units: seq<Unit>, served: seq<Served>, to: Mode)
    requires Unsynced(units) && Units(served) == units + [SyncPoint] && Chain(Normal, served, to)
    requires !e.failed && !HasError(Flatten(served))
    ensures Effect(e, served) == Effects(e.durable + e.pending + ParamsOf(units), [], false)
    decreases units
  {
    hide Reply, HasError, Flatten;
    if units == [] {
      assert units + [SyncPoint] == [SyncPoint];
      FirstUnit(served, SyncPoint, []);
      assert Effect(e, served) == Effect1(e, served[0]);
      assert e.durable + e.pending + [] == e.durable + e.pending;
    } else {
      assert units + [SyncPoint] == [units[0]] + (units[1..] + [SyncPoint]);
      FirstUnit(served, units[0], units[1..] + [SyncPoint]);
      Split(served);
      NoErrorIn(served[0].trace, Flatten(served[1..]));
      var e' := Effect1(e, served[0]);
      UnitEffect(e, served[0]);
      ChunkSucceeds(e', units[1..], served[1..], to);
      assert e.durable + (e.pending + ParamsOf(units[..1])) + ParamsOf(units[1..])
          == e.durable + e.pending + ParamsOf(units);
    }
  }

  lemma Split(served: seq<Served>)
    requires served != []
    ensures Flatten(served) == served[0].trace + Flatten(served[1..])
  {
  }

  lemma UnitEffect(e: Effects, s: Served)
    requires !e.failed && !HasError(s.trace) && !s.unit.SyncPoint? && s.mode == Normal && s.Ok()
    ensures Effect1(e, s) == Effects(e.durable, e.pending + ParamsOf([s.unit]), false)
  {
    hide HasError;
    assert [s.unit][1..] == [] && e.pending + [] == e.pending;
  }

  /** A chunk with an error has no effect at all. */
  lemma {:induction false} ChunkFails(e: Effects, units: seq<Unit>, served: seq<Served>)
    requires Unsynced(units) && Units(served) == units + [SyncPoint]
    requires e.failed || HasError(Flatten(served))
    ensures Effect(e, served).durable == e.durable
    decreases units
  {
    if units == [] {
      assert units + [SyncPoint] == [SyncPoint];
      FirstUnit(served, SyncPoint, []);
    } else {
      assert units + [SyncPoint] == [units[0]] + (units[1..] + [SyncPoint]);
      FirstUnit(served, units[0], units[1..] + [SyncPoint]);
      ErrorInEither(served[0].trace, Flatten(served[1..]));
      ChunkFails(Effect1(e, served[0]), units[1..], served[1..]);
    }
  }

  /** How many of `n` parameter sets the first `k` chunks of size `c` hold. */
  function Covered(k: nat, c: nat, n: nat): (m: nat)
    ensures m <= n && (m < n ==> m == k * c)
  {
    if k * c < n then k * c else n
  }

  lemma NextChunk(k: nat, c: nat, n: nat)
    requires c > 0
    ensures var m := Covered(k, c, n); Covered(k + 1, c, n) == NextBound(k, c, n) == if m + c < n then m + c else n
  {
    assert (k + 1) * c == k * c + c;
  }

  /** What a chunk leaves behind however it ends: all of it or nothing, and
      all of it exactly if it was delivered whole and met no error. */
  lemma ChunkOutcome(done: seq<nat>, source: Source, chunk: seq<nat>, served: seq<Served>, to: Mode)
    requires Units(served) <= Chunk(source, chunk) + [SyncPoint] && Chain(Normal, served, to)
    ensures var whole := Units(served) == Chunk(source, chunk) + [SyncPoint];
            var e := Effect(Effects(done, [], false), served);
            && (whole && !HasError(Flatten(served)) ==> e == Effects(done + chunk, [], false))
            && (!(whole && !HasError(Flatten(served))) ==> e.durable == done)
  {
    hide HasError, Effect, Flatten, Chain, Units, Chunk, ParamsOf, Unsynced;
    var units := Chunk(source, chunk);
    ParamsOfChunk(source, chunk);
    var e := Effects(done, [], false);
    if Units(served) == units + [SyncPoint] {
      if HasError(Flatten(served)) {
        ChunkFails(e, units, served);
      } else {
        ChunkSucceeds(e, units, served, to);
        assert done + [] + chunk == done + chunk;
      }
    } else {
      NoSync(source, chunk, served);
      NotYet(e, served);
    }
  }

  lemma NoSync(source: Source, chunk: seq<nat>, served: seq<Served>)
    requires Units(served) < Chunk(source, chunk) + [SyncPoint]
    ensures forall s <- served :: !s.unit.SyncPoint?
  {
    hide Units;
    var units := Chunk(source, chunk);
    UnitsAt(served);
    forall i | 0 <= i < |served| ensures !served[i].unit.SyncPoint? {
      assert Units(served)[i] == (units + [SyncPoint])[i] == units[i];
    }
  }

  /** With `served` the batch came to parameter set `lo`; `s` is what it sent of
      the next chunk. */
  lemma BatchedOn(source: Source, params: seq<nat>, c: nat, lo: nat, hi: nat, served: seq<Served>, s: seq<Served>)
    requires c > 0 && lo < |params| && hi == (if lo + c < |params| then lo + c else |params|)
    requires SentUpTo(source, params, c, lo, served)
    requires Units(s) <= Chunk(source, params[lo..hi]) + [SyncPoint]
    ensures Units(served + s) <= Batched(source, params, c)
    ensures Units(s) == Chunk(source, params[lo..hi]) + [SyncPoint] ==>
              SentUpTo(source, params, c, hi, served + s)
  {
    hide Batched, Chunk, Units;
    BatchedStep(source, params, c, lo, hi);
    UnitsConcat(served, s);
    var chunk := Chunk(source, params[lo..hi]) + [SyncPoint];
    assert chunk == Units(s) + chunk[|Units(s)|..];
    assert Batched(source, params, c)
        == Units(served + s) + (chunk[|Units(s)|..] + Batched(source, params[hi..], c));
    if Units(s) == chunk {
      assert chunk[|Units(s)|..] + Batched(source, params[hi..], c) == Batched(source, params[hi..], c);
    }
  }

  lemma ParamsOfChunk(source: Source, chunk: seq<nat>)
    ensures ParamsOf(Chunk(source, chunk)) == chunk && Unsynced(Chunk(source, chunk))
  {
    ParamsOfApplies(source, chunk);
    if source.Sql? {
      assert Chunk(source, chunk)[1..] == Applies(source, chunk);
    } else {
      assert Chunk(source, chunk) == Applies(source, chunk);
    }
  }

  lemma {:induction false} UnitsAt(served: seq<Served>)
    ensures |Units(served)| == |served| && forall i | 0 <= i < |served| :: Units(served)[i] == served[i].unit
  {
    if served != [] {
      UnitsAt(served[1..]);
    }
  }

  lemma PlainChunk(source: Source, chunk: seq<nat>)
    requires chunk != []
    ensures Plain(Chunk(source, chunk)) && Chunk(source, chunk) != [] && AllApply(Chunk(source, chunk)[1..])
    ensures Start(Chunk(source, chunk)[0]) == if source.Sql? then WantParse(ThenEnd) else WantBind(ThenRows)
  {
  }

  /** The k-th chunk. */
  function ChunkAt(params: seq<nat>, c: nat, k: nat): seq<nat> {
    params[Covered(k, c, |params|)..NextBound(k, c, |params|)]
  }

  function NextBound(k: nat, c: nat, n: nat): (m: nat)
    ensures Covered(k, c, n) <= m <= n
  {
    var m := Covered(k, c, n);
    if m + c < n then m + c else n
  }

  predicate AllEncode(encodes: nat -> bool, params: seq<nat>) {
    forall i | 0 <= i < |params| :: encodes(params[i])
  }

  lemma AllEncodeConcat(encodes: nat -> bool, a: seq<nat>, b: seq<nat>)
    requires AllEncode(encodes, a) && AllEncode(encodes, b)
    ensures AllEncode(encodes, a + b)
  {
  }

  lemma AllEncodePart(encodes: nat -> bool, params: seq<nat>, lo: nat, hi: nat)
    requires lo <= hi <= |params|
    ensures AllEncode(encodes, params) ==> AllEncode(encodes, params[lo..hi])
  {
  }

  lemma BatchBegins(encodes: nat -> bool, params: seq<nat>, c: nat, log: seq<Served>)
    ensures !HasError(Flatten([])) && log + [] == log && params[..0] == [] && Effect(NOTHING, []) == NOTHING
    ensures AllEncode(encodes, params[..0]) && Covered(0, c, |params|) == 0
  {
  }

  /** The chunk from `done` to `next` is the one behind the first `k`. */
  lemma ChunkCaused(encodes: nat -> bool, params: seq<nat>, c: nat, k: nat, done: nat, next: nat)
    requires done == Covered(k, c, |params|) < |params| && next == NextBound(k, c, |params|)
    requires AllEncode(encodes, params[..done])
    ensures CausedBy(encodes, params, c, k, AllEncode(encodes, params[done..next]))
  {
  }

  /** An encoding or server error was caused by the chunk behind the first
      `k`, and parameters that do not encode are told from those that fail. */
  predicate CausedBy(encodes: nat -> bool, params: seq<nat>, c: nat, k: nat, server: bool) {
    && Covered(k, c, |params|) < |params| && AllEncode(encodes, params[..Covered(k, c, |params|)])
    && (AllEncode(encodes, ChunkAt(params, c, k)) <==> server)
  }
}
