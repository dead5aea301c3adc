/**
 Cost accounting of LLM calls.

 Recording a completion is four round trips to two stores, none of them atomic with another:
 insert a ledger row, bump the run's total, mirror the delta into Redis, publish an event.
 Money is in micro-RMB: a ledger row holds the delta rounded to six decimals, the Redis
 total adds the unrounded delta. The run's total is a NUMERIC column whose scale is a
 parameter here: the schema declares four decimals for it, where the ledger has six.
 */
module CostLedger {
  import opened Wrappers

  /******* Rounding *******/

  // The six-decimal text of a delta, whichever way ties are broken.
  predicate Nearest(micro: int, delta: real) {
    -0.5 <= micro as real - delta <= 0.5
  }

  // Decimals kept by the run's total: NUMERIC(10,4) as declared, or six like the ledger's.
  datatype Scale = FourDecimals | SixDecimals

  /** PostgreSQL rounds a NUMERIC to its column's scale half away from zero. */
  function Rounded(scale: Scale, x: int): int {
    if scale == SixDecimals then x
    else
      var r := x % 100;
      if r > 50 || (r == 50 && x >= 0) then x - r + 100 else x - r
  }

  predicate Representable(scale: Scale, x: int) {
    scale == SixDecimals || x % 100 == 0
  }

  /******* The machine *******/

  datatype Phase = Begun | Inserted | Updated | Mirrored | Recorded | NotInserted | NotUpdated | NotPublished

  datatype Call = Call(delta: real, micro: int, phase: Phase, inRedis: bool)

  datatype State = State(ledger: int, runs: int, redis: real, calls: seq<Call>)

  datatype Step =
    | Begin(delta: real, micro: int)
    | Insert(c: nat, ok: bool)
    | Update(c: nat, ok: bool)
    | Mirror(c: nat, ok: bool)
    | Publish(c: nat, ok: bool)

  /** A run's stores before its first call. */
  predicate Fresh(s: State) {
    s.ledger == 0 && s.runs == 0 && s.redis == 0.0 && s.calls == []
  }

  predicate At(s: State, c: nat, p: Phase) {
    c < |s.calls| && s.calls[c].phase == p
  }

  predicate Enabled(s: State, st: Step) {
    match st
    case Begin(delta, micro) => Nearest(micro, delta)
    case Insert(c, _) => At(s, c, Begun)
    case Update(c, _) => At(s, c, Inserted)
    case Mirror(c, _) => At(s, c, Updated)
    case Publish(c, _) => At(s, c, Mirrored)
  }

  function SetPhase(s: State, c: nat, p: Phase): State
    requires c < |s.calls|
  {
    s.(calls := s.calls[c := s.calls[c].(phase := p)])
  }

  function Do(scale: Scale, s: State, st: Step): State
    requires Enabled(s, st)
  {
    match st
    case Begin(delta, micro) => s.(calls := s.calls + [Call(delta, micro, Begun, false)])
    case Insert(c, ok) =>
      if ok then SetPhase(s, c, Inserted).(ledger := s.ledger + s.calls[c].micro) else SetPhase(s, c, NotInserted)
    case Update(c, ok) =>
      if ok then SetPhase(s, c, Updated).(runs := Rounded(scale, s.runs + s.calls[c].micro))
      else SetPhase(s, c, NotUpdated)
    // The result of the mirror is discarded: a failure does not stop the call.
    case Mirror(c, ok) =>
      s.(calls := s.calls[c := s.calls[c].(phase := Mirrored, inRedis := ok)],
         redis := if ok then s.redis + s.calls[c].delta else s.redis)
    case Publish(c, ok) => SetPhase(s, c, if ok then Recorded else NotPublished)
  }

  function Exec(scale: Scale, s: State, steps: seq<Step>): Option<State>
    decreases |steps|
  {
    if steps == [] then Some(s)
    else if Enabled(s, steps[0]) then Exec(scale, Do(scale, s, steps[0]), steps[1..]) else None
  }

  /******* What the stores should hold, computed from the calls *******/

  // Stranded: inserted, but stopped before it reached the run's total.
  datatype Account = Ledger | Runs | Stranded

  predicate InTotal(c: Call) {
    c.phase in {Updated, Mirrored, Recorded, NotPublished}
  }

  function Part(a: Account, c: Call): int {
    var counts := match a
      case Ledger => c.phase !in {Begun, NotInserted}
      case Runs => InTotal(c)
      case Stranded => c.phase in {Inserted, NotUpdated};
    if counts then c.micro else 0
  }

  function Sum(a: Account, calls: seq<Call>): int {
    if calls == [] then 0 else Part(a, calls[|calls| - 1]) + Sum(a, calls[..|calls| - 1])
  }

  function RedisPart(c: Call): real {
    if c.inRedis then c.delta else 0.0
  }

  function RedisSum(calls: seq<Call>): real {
    if calls == [] then 0.0 else RedisPart(calls[|calls| - 1]) + RedisSum(calls[..|calls| - 1])
  }

  lemma {:induction false} SumUpdate(a: Account, calls: seq<Call>, c: nat, call: Call)
    requires c < |calls|
    ensures Sum(a, calls[c := call]) == Sum(a, calls) + Part(a, call) - Part(a, calls[c])
  {
    var n := |calls| - 1;
    var after := calls[c := call];
    if c == n {
      assert after[..n] == calls[..n];
    } else {
      assert after[..n] == calls[..n][c := call];
      SumUpdate(a, calls[..n], c, call);
    }
  }

  lemma {:induction false} RedisSumUpdate(calls: seq<Call>, c: nat, call: Call)
    requires c < |calls|
    ensures RedisSum(calls[c := call]) == RedisSum(calls) + RedisPart(call) - RedisPart(calls[c])
  {
    var n := |calls| - 1;
    var after := calls[c := call];
    if c == n {
      assert after[..n] == calls[..n];
    } else {
      assert after[..n] == calls[..n][c := call];
      RedisSumUpdate(calls[..n], c, call);
    }
  }

  lemma PartSplits(c: Call)
    ensures Part(Ledger, c) == Part(Runs, c) + Part(Stranded, c)
  {
    match c.phase {
      case Begun => case Inserted => case Updated => case Mirrored =>
      case Recorded => case NotInserted => case NotUpdated => case NotPublished =>
    }
  }

  lemma {:induction false} LedgerSplits(calls: seq<Call>)
    ensures Sum(Ledger, calls) == Sum(Runs, calls) + Sum(Stranded, calls)
  {
    if calls != [] {
      LedgerSplits(calls[..|calls| - 1]);
      PartSplits(calls[|calls| - 1]);
    }
  }

  /******* Invariant *******/

  predicate IsCallStep(st: Step) {
    !st.Begin?
  }

  // A call step changes one call, and never its cost.
  lemma OneCallMoves(scale: Scale, s: State, st: Step)
    requires IsCallStep(st) && Enabled(s, st)
    ensures st.c < |s.calls| && Do(scale, s, st).calls == s.calls[st.c := Do(scale, s, st).calls[st.c]]
    ensures var before, after := s.calls[st.c], Do(scale, s, st).calls[st.c];
      after.delta == before.delta && after.micro == before.micro
  {
  }

  /** What rounding in the column has added to the run's total. */
  function Drift(s: State): int {
    s.runs - Sum(Runs, s.calls)
  }

  ghost predicate Inv(s: State) {
    && s.ledger == Sum(Ledger, s.calls)
    && s.redis == RedisSum(s.calls)
    && forall i :: 0 <= i < |s.calls| ==>
         Nearest(s.calls[i].micro, s.calls[i].delta)
         && (s.calls[i].inRedis ==> s.calls[i].phase in {Mirrored, Recorded, NotPublished})
  }

  lemma InvKept(scale: Scale, s: State, st: Step)
    requires Inv(s) && Enabled(s, st)
    ensures Inv(Do(scale, s, st))
  {
    var s' := Do(scale, s, st);
    if IsCallStep(st) {
      OneCallMoves(scale, s, st);
      SumUpdate(Ledger, s.calls, st.c, s'.calls[st.c]);
      RedisSumUpdate(s.calls, st.c, s'.calls[st.c]);
    } else {
      assert s'.calls[..|s.calls|] == s.calls;
    }
  }

  lemma {:induction false} InvAlways(scale: Scale, s: State, steps: seq<Step>)
    requires Inv(s) && Exec(scale, s, steps).Some?
    ensures Inv(Exec(scale, s, steps).value)
    decreases |steps|
  {
    if steps != [] {
      InvKept(scale, s, steps[0]);
      InvAlways(scale, Do(scale, s, steps[0]), steps[1..]);
    }
  }

  // The gap between ledger and total, with the drift still unexplained.
  lemma GapSplits(scale: Scale, start: State, steps: seq<Step>)
    requires Fresh(start) && Exec(scale, start, steps).Some?
    ensures var s := Exec(scale, start, steps).value;
      s.ledger - s.runs == Sum(Stranded, s.calls) - Drift(s)
  {
    InvAlways(scale, start, steps);
    LedgerSplits(Exec(scale, start, steps).value.calls);
  }

  /******* Drift *******/

  predicate Bumps(st: Step) {
    st.Update? && st.ok
  }

  lemma RoundedIsNear(scale: Scale, x: int)
    ensures Representable(scale, Rounded(scale, x))
    ensures -50 <= Rounded(scale, x) - x <= 50
    ensures Rounded(scale, x) == x <==> Representable(scale, x)
  {
  }

  lemma HundredsRemain(q: int, r: int)
    requires 0 <= r < 100
    ensures (100 * q + r) % 100 == r
  {
  }

  /** Halves go away from zero, as PostgreSQL rounds them. */
  lemma TiesGoAwayFromZero(q: nat)
    ensures Rounded(FourDecimals, 100 * q + 50) == 100 * q + 100
    ensures Rounded(FourDecimals, -(100 * q + 50)) == -(100 * q + 100)
  {
    HundredsRemain(q, 50);
    var n: int := q;
    HundredsRemain(-n - 1, 50);
  }

  // A step that is no bump moves neither the total nor any call's part of it.
  lemma NoBumpNoMove(scale: Scale, s: State, st: Step)
    requires Enabled(s, st) && !Bumps(st)
    ensures Do(scale, s, st).runs == s.runs && Sum(Runs, Do(scale, s, st).calls) == Sum(Runs, s.calls)
  {
    var s' := Do(scale, s, st);
    if IsCallStep(st) {
      OneCallMoves(scale, s, st);
      SumUpdate(Runs, s.calls, st.c, s'.calls[st.c]);
    } else {
      assert s'.calls[..|s.calls|] == s.calls;
    }
  }

  lemma BumpMoves(scale: Scale, s: State, st: Step)
    requires Enabled(s, st) && Bumps(st)
    ensures Do(scale, s, st).runs == Rounded(scale, s.runs + s.calls[st.c].micro)
    ensures Sum(Runs, Do(scale, s, st).calls) == Sum(Runs, s.calls) + s.calls[st.c].micro
  {
    OneCallMoves(scale, s, st);
    SumUpdate(Runs, s.calls, st.c, Do(scale, s, st).calls[st.c]);
  }

  lemma DriftOfStep(scale: Scale, s: State, st: Step)
    requires Enabled(s, st) && Representable(scale, s.runs)
    ensures var s' := Do(scale, s, st);
      && Representable(scale, s'.runs)
      && -50 <= Drift(s') - Drift(s) <= 50
      && (!Bumps(st) ==> Drift(s') == Drift(s))
      && (Bumps(st) ==> (Drift(s') == Drift(s) <==> Representable(scale, s.calls[st.c].micro)))
  {
    if Bumps(st) {
      BumpMoves(scale, s, st);
      RoundedIsNear(scale, s.runs + s.calls[st.c].micro);
    } else {
      NoBumpNoMove(scale, s, st);
    }
  }

  /** Every bump of the run's total adds an amount the column can hold. */
  predicate BumpsRepresentable(scale: Scale, s: State, steps: seq<Step>)
    decreases |steps|
  {
    steps == [] ||
    (Enabled(s, steps[0]) ==>
      && (Bumps(steps[0]) ==> Representable(scale, s.calls[steps[0].c].micro))
      && BumpsRepresentable(scale, Do(scale, s, steps[0]), steps[1..]))
  }

  /** The drift stays what it was, from here to the end of the run. */
  predicate DriftConstant(scale: Scale, s: State, steps: seq<Step>)
    decreases |steps|
  {
    steps == [] ||
    (Enabled(s, steps[0]) ==>
      && Drift(Do(scale, s, steps[0])) == Drift(s)
      && DriftConstant(scale, Do(scale, s, steps[0]), steps[1..]))
  }

  /** The run's total follows the ledger throughout a run exactly when every rounded delta
      added to it is one the column can hold: always at six decimals, and at the declared four
      only for multiples of a hundred micro-RMB. */
  lemma {:induction false} NoDriftIffRepresentable(scale: Scale, s: State, steps: seq<Step>)
    requires Representable(scale, s.runs)
    ensures DriftConstant(scale, s, steps) <==> BumpsRepresentable(scale, s, steps)
    decreases |steps|
  {
    if steps != [] && Enabled(s, steps[0]) {
      DriftOfStep(scale, s, steps[0]);
      NoDriftIffRepresentable(scale, Do(scale, s, steps[0]), steps[1..]);
    }
  }

  function BumpCount(steps: seq<Step>): nat {
    if steps == [] then 0 else (if Bumps(steps[0]) then 1 else 0) + BumpCount(steps[1..])
  }

  /** Each bump drifts by at most half a unit of the column. */
  lemma {:induction false} DriftBound(scale: Scale, s: State, steps: seq<Step>)
    requires Representable(scale, s.runs) && Exec(scale, s, steps).Some?
    ensures var d := Drift(Exec(scale, s, steps).value) - Drift(s);
      -50 * BumpCount(steps) <= d <= 50 * BumpCount(steps)
    decreases |steps|
  {
    if steps != [] {
      DriftOfStep(scale, s, steps[0]);
      DriftBound(scale, Do(scale, s, steps[0]), steps[1..]);
    }
  }

  lemma {:induction false} NoDriftAtSix(scale: Scale, s: State, steps: seq<Step>)
    requires scale == SixDecimals && Exec(scale, s, steps).Some?
    ensures Drift(Exec(scale, s, steps).value) == Drift(s)
    decreases |steps|
  {
    if steps != [] {
      DriftOfStep(scale, s, steps[0]);
      NoDriftAtSix(scale, Do(scale, s, steps[0]), steps[1..]);
    }
  }

  /** With six decimals, ledger minus total is exactly what was stopped between the writes. */
  lemma SixDecimalsConserve(scale: Scale, start: State, steps: seq<Step>)
    requires Fresh(start) && scale == SixDecimals && Exec(scale, start, steps).Some?
    ensures var s := Exec(scale, start, steps).value;
      s.ledger - s.runs == Sum(Stranded, s.calls)
  {
    GapSplits(scale, start, steps);
    NoDriftAtSix(scale, start, steps);
  }

  /** With the declared four decimals a small completed call vanishes from the run's total. */
  lemma FourDecimalsLoseSmallCalls()
    ensures var steps := [Begin(40.0, 40), Insert(0, true), Update(0, true), Mirror(0, true), Publish(0, true)];
      Exec(FourDecimals, State(0, 0, 0.0, []), steps) == Some(State(40, 0, 40.0, [Call(40.0, 40, Recorded, true)]))
  {
    var c := Call(40.0, 40, Begun, false);
    var s1 := State(0, 0, 0.0, [c]);
    var s2 := State(40, 0, 0.0, [c.(phase := Inserted)]);
    var s3 := State(40, 0, 0.0, [c.(phase := Updated)]);
    var s4 := State(40, 0, 40.0, [c.(phase := Mirrored, inRedis := true)]);
    var s5 := State(40, 0, 40.0, [c.(phase := Recorded, inRedis := true)]);
    assert Do(FourDecimals, State(0, 0, 0.0, []), Begin(40.0, 40)) == s1;
    assert Do(FourDecimals, s1, Insert(0, true)) == s2;
    assert Do(FourDecimals, s2, Update(0, true)) == s3;
    assert Do(FourDecimals, s3, Mirror(0, true)) == s4;
    assert Do(FourDecimals, s4, Publish(0, true)) == s5;
    assert Exec(FourDecimals, s5, []) == Some(s5);
    assert Exec(FourDecimals, s4, [Publish(0, true)]) == Some(s5);
    assert Exec(FourDecimals, s3, [Mirror(0, true), Publish(0, true)]) == Some(s5);
    assert Exec(FourDecimals, s2, [Update(0, true), Mirror(0, true), Publish(0, true)]) == Some(s5);
    assert Exec(FourDecimals, s1, [Insert(0, true), Update(0, true), Mirror(0, true), Publish(0, true)]) == Some(s5);
  }

  predicate Clean(c: Call) {
    c.phase == Recorded && c.inRedis
  }

  // How many calls have reached the run's total.
  function Reached(calls: seq<Call>): nat {
    if calls == [] then 0
    else Reached(calls[..|calls| - 1]) + (if InTotal(calls[|calls| - 1]) then 1 else 0)
  }

  lemma {:induction false} ReachedUpdate(calls: seq<Call>, c: nat, call: Call)
    requires c < |calls|
    ensures Reached(calls[c := call]) + Reached([calls[c]]) == Reached(calls) + Reached([call])
  {
    var n := |calls| - 1;
    var after := calls[c := call];
    assert [call][..0] == [] && [calls[c]][..0] == [];
    if c == n {
      assert after[..n] == calls[..n];
    } else {
      assert after[..n] == calls[..n][c := call];
      ReachedUpdate(calls[..n], c, call);
    }
  }

  lemma StepReaches(scale: Scale, s: State, st: Step)
    requires Enabled(s, st)
    ensures Reached(Do(scale, s, st).calls) == Reached(s.calls) + (if Bumps(st) then 1 else 0)
  {
    var s' := Do(scale, s, st);
    if IsCallStep(st) {
      OneCallMoves(scale, s, st);
      ReachedUpdate(s.calls, st.c, s'.calls[st.c]);
      assert [s.calls[st.c]][..0] == [] && [s'.calls[st.c]][..0] == [];
    } else {
      assert s'.calls[..|s.calls|] == s.calls;
    }
  }

  lemma {:induction false} BumpsReach(scale: Scale, s: State, steps: seq<Step>)
    requires Exec(scale, s, steps).Some?
    ensures Reached(Exec(scale, s, steps).value.calls) == Reached(s.calls) + BumpCount(steps)
    decreases |steps|
  {
    if steps != [] {
      StepReaches(scale, s, steps[0]);
      BumpsReach(scale, Do(scale, s, steps[0]), steps[1..]);
    }
  }

  lemma {:induction false} CleanAllReach(calls: seq<Call>)
    requires forall i :: 0 <= i < |calls| ==> Clean(calls[i])
    ensures Reached(calls) == |calls|
  {
    if calls != [] { CleanAllReach(calls[..|calls| - 1]); }
  }

  /** After any run, the ledger exceeds the run's total by the rounded deltas of the calls stopped between the two
      writes, give or take half a unit of the column for each call that reached the total. */
  lemma LedgerAgainstTotal(scale: Scale, start: State, steps: seq<Step>)
    requires Fresh(start) && Exec(scale, start, steps).Some?
    ensures var s := Exec(scale, start, steps).value;
      -50 * Reached(s.calls) <= s.ledger - s.runs - Sum(Stranded, s.calls) <= 50 * Reached(s.calls)
  {
    GapSplits(scale, start, steps);
    DriftBound(scale, start, steps);
    BumpsReach(scale, start, steps);
  }

  /******* The Redis total *******/

  lemma {:induction false} RedisNearLedger(calls: seq<Call>)
    requires forall i :: 0 <= i < |calls| ==> Clean(calls[i]) && Nearest(calls[i].micro, calls[i].delta)
    ensures Sum(Stranded, calls) == 0
    ensures var gap := RedisSum(calls) - Sum(Ledger, calls) as real;
      -0.5 * |calls| as real <= gap <= 0.5 * |calls| as real
  {
    if calls != [] {
      RedisNearLedger(calls[..|calls| - 1]);
    }
  }

  /** When all n calls completed without failure, the Redis total is within n half-micros of the ledger, the run's
      total within n half units of its column, and at six decimals the run's total equals the ledger. */
  lemma CleanRunAgrees(scale: Scale, start: State, steps: seq<Step>)
    requires Fresh(start) && Exec(scale, start, steps).Some?
    requires var s := Exec(scale, start, steps).value; forall i :: 0 <= i < |s.calls| ==> Clean(s.calls[i])
    ensures var s := Exec(scale, start, steps).value;
      && -0.5 * |s.calls| as real <= s.redis - s.ledger as real <= 0.5 * |s.calls| as real
      && -50 * |s.calls| <= s.ledger - s.runs <= 50 * |s.calls|
      && (scale == SixDecimals ==> s.ledger == s.runs)
  {
    InvAlways(scale, start, steps);
    RedisNearLedger(Exec(scale, start, steps).value.calls);
    LedgerAgainstTotal(scale, start, steps);
    CleanAllReach(Exec(scale, start, steps).value.calls);
    if scale == SixDecimals { SixDecimalsConserve(scale, start, steps); }
  }

  /******* The worker's cost tracker *******/

  // The answer to GET: the call raised, no such key, text that is no number, or a number.
  datatype Reply = Raised | Missing | Garbled | Number(total: real)

  function TotalOf(reply: Reply): real {
    if reply.Number? then reply.total else 0.0
  }

  class RunCostTracker {
    var baseline: real

    constructor ()
      ensures baseline == 0.0
    {
      baseline := 0.0;
    }

    method GetTotal(reply: Reply) returns (total: real)
      ensures total == TotalOf(reply)
    {
      match reply
      case Raised => total := 0.0;
      case Missing => total := 0.0;
      case Garbled => total := 0.0;
      case Number(v) => total := v;
    }

    method SnapshotBaseline(reply: Reply)
      modifies this
      ensures baseline == TotalOf(reply)
    {
      var total := GetTotal(reply);
      baseline := total;
    }

    method DeltaSinceBaseline(reply: Reply) returns (delta: real)
      ensures delta == TotalOf(reply) - baseline
    {
      var total := GetTotal(reply);
      delta := total - baseline;
    }
  }

  /** A read that raises, finds nothing or finds no number counts as nothing spent. */
  lemma FailedReadsGiveNothing(total: real)
    ensures TotalOf(Raised) == TotalOf(Missing) == TotalOf(Garbled) == 0.0 && TotalOf(Number(total)) == total
  {
  }

  /** What a successful GET answers in a state: the key exists from the first mirrored call on. */
  function GoodReply(s: State): Reply {
    if exists i :: 0 <= i < |s.calls| && s.calls[i].inRedis then Number(s.redis) else Missing
  }

  function MirroredBy(s: State, st: Step): real
    requires Enabled(s, st)
  {
    if st.Mirror? && st.ok then s.calls[st.c].delta else 0.0
  }

  /** The deltas mirrored by the steps of a run, in a run that starts at s. */
  function MirroredDuring(scale: Scale, s: State, steps: seq<Step>): real
    decreases |steps|
  {
    if steps == [] || !Enabled(s, steps[0]) then 0.0
    else MirroredBy(s, steps[0]) + MirroredDuring(scale, Do(scale, s, steps[0]), steps[1..])
  }

  lemma {:induction false} NothingMirrored(calls: seq<Call>)
    requires forall i :: 0 <= i < |calls| ==> !calls[i].inRedis
    ensures RedisSum(calls) == 0.0
  {
    if calls != [] { NothingMirrored(calls[..|calls| - 1]); }
  }

  lemma GoodReplyIsTheTotal(s: State)
    requires Inv(s)
    ensures TotalOf(GoodReply(s)) == s.redis
  {
    if GoodReply(s).Missing? { NothingMirrored(s.calls); }
  }

  lemma {:induction false} RedisGrowsByMirrored(scale: Scale, s: State, steps: seq<Step>)
    requires Exec(scale, s, steps).Some?
    ensures Exec(scale, s, steps).value.redis == s.redis + MirroredDuring(scale, s, steps)
    decreases |steps|
  {
    if steps != [] {
      RedisGrowsByMirrored(scale, Do(scale, s, steps[0]), steps[1..]);
    }
  }

  /** With successful reads, the tracker's delta is what was mirrored since its snapshot. */
  lemma DeltaIsSpendSinceSnapshot(scale: Scale, start: State, before: seq<Step>, after: seq<Step>)
    requires Fresh(start) && Exec(scale, start, before).Some?
    requires Exec(scale, Exec(scale, start, before).value, after).Some?
    ensures var s0 := Exec(scale, start, before).value;
      var s1 := Exec(scale, s0, after).value;
      TotalOf(GoodReply(s1)) - TotalOf(GoodReply(s0)) == MirroredDuring(scale, s0, after)
  {
    var s0 := Exec(scale, start, before).value;
    InvAlways(scale, start, before);
    InvAlways(scale, s0, after);
    GoodReplyIsTheTotal(s0);
    GoodReplyIsTheTotal(Exec(scale, s0, after).value);
    RedisGrowsByMirrored(scale, s0, after);
  }
}
