/** The exit rule. The source has two live copies: one in the polling exit runner and one
    in the websocket monitor. Both are written out here as the source writes them. */
module ExitRule {
  import opened Common
  import opened MarkHistory

  /** A fired rule with the numbers the source puts into its reason text. */
  datatype Verdict =
    | TrailingStop(mark: real, stop: real)
    | StopLoss(mark: real, stop: real)
    | TakeProfit(mark: real, take: real)
    | EarlyExit(held: int, gainPct: real)
    | StagnantExit(held: int, gainPct: real)
    | TimeLimit(held: int, limit: int)

  /** The position as its hash gives it. The per-signal percentages are `None` when absent
      or unreadable. `openedTs` is in milliseconds above 1e12, else in seconds. */
  datatype Holding = Holding(avg: real, openedTs: int, stopPct: Option<real>, takePct: Option<real>)

  /** The optional arguments of the rule. */
  datatype Settings = Settings(
    stop: Option<real>, take: Option<real>, trail: Option<real>,
    timeLimit: Option<int>, timeLimitMax: Option<int>,
    earlySec: Option<int>, earlyPct: Option<real>,
    tightPct: Option<real>, tightTrigger: Option<real>,
    trailOnly: Option<real>, stagnant: bool)

  /** The value of an optional argument, with what the source falls back to. */
  function Pick<T>(first: Option<T>, second: Option<T>, default: T): T {
    if first.Some? then first.value else if second.Some? then second.value else default
  }

  const MS_EPOCH := 1_000_000_000_000

  /** Floor division, as in Python. */
  function HeldSec(openedTs: int, nowMs: int): int {
    if openedTs > MS_EPOCH then (nowMs - openedTs) / 1000 else nowMs / 1000 - openedTs
  }

  function GainPct(avg: real, mark: real): real
    requires avg > 0.0
  {
    (mark - avg) / avg * 100.0
  }

  /** A price lowered, or raised, by a fraction of itself. */
  function Less(price: real, pct: real): real { price * (1.0 - pct) }

  function More(price: real, pct: real): real { price * (1.0 + pct) }

  // ----- Stop level -----------------------------------------------------------

  /** The trailing stop, once the high-water mark is above the average: the tight
      percentage applies from the trigger on, when both tight settings are given. */
  function TrailStop(avg: real, hwm: real, trail: real, tightPct: Option<real>, tightTrigger: Option<real>): real {
    if tightPct.Some? && tightTrigger.Some? && hwm >= More(avg, tightTrigger.value)
    then Less(hwm, tightPct.value)
    else Less(hwm, trail)
  }

  function StopPrice(
      avg: real, hwm: Option<real>, stop: real, trail: real, tightPct: Option<real>, tightTrigger: Option<real>): real
  {
    var floor := Less(avg, stop);
    if hwm.Some? && hwm.value > avg then Max(floor, TrailStop(avg, hwm.value, trail, tightPct, tightTrigger)) else floor
  }

  // ----- The polling runner's copy --------------------------------------------

  const POLL_STOP := 0.015
  const POLL_TAKE := 0.030
  const POLL_TRAIL := 0.015
  const POLL_TIME_LIMIT := 900
  const POLL_TIME_LIMIT_MAX := 1800

  predicate InTrailOnly(h: Holding, mark: real, s: Settings)
    requires h.avg > 0.0
  {
    s.trailOnly.Some? && (mark - h.avg) / h.avg >= s.trailOnly.value
  }

  predicate EarlyLoss(h: Holding, mark: real, s: Settings, held: int) {
    s.earlySec.Some? && s.earlyPct.Some? && held >= s.earlySec.value && mark < Less(h.avg, s.earlyPct.value)
  }

  predicate Stagnates(h: Holding, mark: real, hwm: Option<real>, held: int) {
    && held >= 1200
    && mark - h.avg < h.avg * 0.005 && h.avg - mark < h.avg * 0.005
    && (hwm.None? || hwm.value < h.avg * 1.01)
  }

  /** `position_exit_runner._check_exit`. */
  function PollExit(h: Holding, mark: real, hwm: Option<real>, s: Settings, nowMs: int): Option<Verdict> {
    if h.avg <= 0.0 || mark <= 0.0 then None
    else
      var stop := Pick(s.stop, h.stopPct, POLL_STOP);
      var take := More(h.avg, Pick(s.take, h.takePct, POLL_TAKE));
      var trail := Pick(s.trail, None, POLL_TRAIL);
      var stopPrice := StopPrice(h.avg, hwm, stop, trail, s.tightPct, s.tightTrigger);
      var held := HeldSec(h.openedTs, nowMs);
      var limit := Pick(s.timeLimit, None, POLL_TIME_LIMIT);
      var limitMax := Pick(s.timeLimitMax, None, POLL_TIME_LIMIT_MAX);
      var inProfit := hwm.Some? && hwm.value > h.avg;
      if mark <= stopPrice then
        if stopPrice > Less(h.avg, stop) then Some(TrailingStop(mark, stopPrice)) else Some(StopLoss(mark, stopPrice))
      else if !InTrailOnly(h, mark, s) && mark >= take then Some(TakeProfit(mark, take))
      else if EarlyLoss(h, mark, s, held) then Some(EarlyExit(held, GainPct(h.avg, mark)))
      else if s.stagnant && Stagnates(h, mark, hwm, held) then Some(StagnantExit(held, GainPct(h.avg, mark)))
      else if held >= limit && !(inProfit && (InTrailOnly(h, mark, s) || held < limitMax))
          then Some(TimeLimit(held, limit))
      else None
  }

  // ----- The websocket monitor's copy -----------------------------------------

  const COIN_STOP := 0.030
  const COIN_TAKE := 0.150
  const COIN_TRAIL := 0.040
  const COIN_TIME_LIMIT := 3600
  const COIN_TIME_LIMIT_MAX := 14400
  const COIN_EARLY_SEC := 600
  const COIN_EARLY_PCT := 0.010
  const COIN_TIGHT := 0.030
  const COIN_TIGHT_TRIGGER := 0.050

  /** The trailing stop and the stop price as the second copy computes them. */
  function WsStops(h: Holding, hwm: Option<real>, s: Settings): (Option<real>, real) {
    var stop, trail := Pick(s.stop, h.stopPct, COIN_STOP), Pick(s.trail, None, COIN_TRAIL);
    var staticStop := Less(h.avg, stop);
    if hwm.Some? && hwm.value > h.avg then
      var tight := s.tightPct.Some? && s.tightTrigger.Some? && hwm.value >= More(h.avg, s.tightTrigger.value);
      var effective := if tight then s.tightPct.value else trail;
      var trailStop := Less(hwm.value, effective);
      (Some(trailStop), if trailStop > staticStop then trailStop else staticStop)
    else (None, staticStop)
  }

  /** `upbit_ws_exit_monitor._check_exit`. It knows no trail-only mode and always applies
      the stagnation rule. */
  function WsExit(h: Holding, mark: real, hwm: Option<real>, s: Settings, nowMs: int): Option<Verdict> {
    if h.avg <= 0.0 || mark <= 0.0 then None
    else
      var stop, takePct := Pick(s.stop, h.stopPct, COIN_STOP), Pick(s.take, h.takePct, COIN_TAKE);
      var staticStop := Less(h.avg, stop);
      var (trailStop, stopPrice) := WsStops(h, hwm, s);
      var take := More(h.avg, takePct);
      var held := HeldSec(h.openedTs, nowMs);
      if mark <= stopPrice then
        if trailStop.Some? && trailStop.value > staticStop then Some(TrailingStop(mark, stopPrice))
        else Some(StopLoss(mark, stopPrice))
      else if mark >= take then Some(TakeProfit(mark, take))
      else if s.earlySec.Some? && s.earlyPct.Some? && held >= s.earlySec.value
          && mark < Less(h.avg, s.earlyPct.value) then
        Some(EarlyExit(held, GainPct(h.avg, mark)))
      else if held >= 1200 && (if mark >= h.avg then mark - h.avg else h.avg - mark) < h.avg * 0.005
              && (hwm.None? || hwm.value < h.avg * 1.01) then
        Some(StagnantExit(held, GainPct(h.avg, mark)))
      else
        var limit := Pick(s.timeLimit, None, COIN_TIME_LIMIT);
        var limitMax := Pick(s.timeLimitMax, None, COIN_TIME_LIMIT_MAX);
        if held >= limit then
          if hwm.Some? && hwm.value > h.avg && held < limitMax then None else Some(TimeLimit(held, limit))
        else None
  }

  /** What both live callers pass for a coin: explicit limits, no trail-only mode, and the
      stagnation rule on. */
  predicate CoinArguments(h: Holding, s: Settings) {
    && (s.stop.Some? || h.stopPct.Some?) && (s.take.Some? || h.takePct.Some?) && s.trail.Some?
    && s.timeLimit.Some? && s.timeLimitMax.Some? && s.trailOnly.None? && s.stagnant
  }

  /** On coin arguments the two copies are the same function, reason text included. */
  lemma {:induction false} CopiesAgree(h: Holding, mark: real, hwm: Option<real>, s: Settings, nowMs: int)
    requires CoinArguments(h, s)
    ensures PollExit(h, mark, hwm, s, nowMs) == WsExit(h, mark, hwm, s, nowMs)
  {
    hide Less, More, HeldSec, GainPct;
    StopsAgree(h, hwm, s);
  }

  lemma {:induction false} StopsAgree(h: Holding, hwm: Option<real>, s: Settings)
    requires CoinArguments(h, s)
    ensures var stop := Pick(s.stop, h.stopPct, POLL_STOP);
      var (trailStop, stopPrice) := WsStops(h, hwm, s);
      && stopPrice == StopPrice(h.avg, hwm, stop, Pick(s.trail, None, POLL_TRAIL), s.tightPct, s.tightTrigger)
      && (trailStop.Some? && trailStop.value > Less(h.avg, stop) <==> stopPrice > Less(h.avg, stop))
  {
    hide Less, More;
  }

  // ----- The stop only moves up -----------------------------------------------

  /** A rising high-water mark never lowers the stop. */
  ghost predicate Ratchets(avg: real, stop: real, trail: real, tightPct: Option<real>, tightTrigger: Option<real>) {
    forall lo, hi :: lo <= hi ==>
      StopPrice(avg, Some(lo), stop, trail, tightPct, tightTrigger)
          <= StopPrice(avg, Some(hi), stop, trail, tightPct, tightTrigger)
  }

  /** At `from` times the average a trail of `pct` is not above the floor. */
  predicate BelowFloor(from: real, pct: real, stop: real) { from * (1.0 - pct) <= 1.0 - stop }

  /** From `from` times the average on, a trail of `pct` never falls while above the floor. */
  predicate LegHolds(from: real, pct: real, stop: real) { pct <= 1.0 || BelowFloor(from, pct, stop) }

  /** Where the tight trail takes over it is no looser, or the base trail is not above the
      floor by then. */
  predicate CrossingHolds(from: real, trail: real, tight: real, stop: real) {
    tight <= trail || BelowFloor(from, trail, stop)
  }

  predicate RatchetCondition(stop: real, trail: real, tightPct: Option<real>, tightTrigger: Option<real>) {
    if tightPct.None? || tightTrigger.None? then LegHolds(1.0, trail, stop)
    else
      var tight, from := tightPct.value, 1.0 + tightTrigger.value;
      if from <= 1.0 then LegHolds(1.0, tight, stop)
      else
        LegHolds(1.0, trail, stop) && LegHolds(from, tight, stop) && CrossingHolds(from, trail, tight, stop)
  }

  lemma {:induction false} ProductSign(a: real, b: real, product: real)
    requires a >= 0.0 && b >= 0.0 && product == a * b
    ensures product >= 0.0
    ensures a > 0.0 && b > 0.0 ==> product > 0.0
  {}

  lemma {:induction false} LessDifference(lo: real, hi: real, loose: real, close: real)
    ensures Less(hi, loose) - Less(lo, loose) == (hi - lo) * (1.0 - loose)
    ensures Less(hi, close) - Less(hi, loose) == hi * (loose - close)
  {}

  /** Below 100 % a trail rises with the mark, above it falls. */
  lemma {:induction false} LessRises(lo: real, hi: real, pct: real)
    requires lo <= hi
    ensures pct <= 1.0 ==> Less(lo, pct) <= Less(hi, pct)
    ensures pct >= 1.0 ==> Less(lo, pct) >= Less(hi, pct)
    ensures lo < hi && pct < 1.0 ==> Less(lo, pct) < Less(hi, pct)
    ensures lo < hi && pct > 1.0 ==> Less(lo, pct) > Less(hi, pct)
  {
    LessDifference(lo, hi, pct, pct);
    hide Less;
    if pct <= 1.0 {
      ProductSign(hi - lo, 1.0 - pct, Less(hi, pct) - Less(lo, pct));
    } else {
      assert (hi - lo) * (1.0 - pct) == -((hi - lo) * (pct - 1.0));
      ProductSign(hi - lo, pct - 1.0, Less(lo, pct) - Less(hi, pct));
    }
  }

  lemma {:induction false} LessTightens(price: real, loose: real, close: real)
    requires price >= 0.0 && close <= loose
    ensures Less(price, loose) <= Less(price, close)
    ensures price > 0.0 && close < loose ==> Less(price, loose) < Less(price, close)
  {
    LessDifference(price, price, loose, close);
    hide Less;
    ProductSign(price, loose - close, Less(price, close) - Less(price, loose));
  }

  lemma {:induction false} LessSign(price: real, pct: real)
    requires price >= 0.0
    ensures pct <= 1.0 ==> Less(price, pct) >= 0.0
    ensures pct >= 1.0 ==> Less(price, pct) <= 0.0
  {}

  lemma {:induction false} MoreSign(price: real, pct: real)
    requires price > 0.0
    ensures More(price, pct) > price <==> pct > 0.0
    ensures More(price, pct) == price * (1.0 + pct)
  {}

  /** A trail against the floor, with the average divided out. */
  lemma {:induction false} AgainstFloor(avg: real, from: real, pct: real, stop: real)
    requires avg > 0.0
    ensures Less(avg * from, pct) <= Less(avg, stop) <==> BelowFloor(from, pct, stop)
  {
    var a, b := from * (1.0 - pct), 1.0 - stop;
    assert Less(avg * from, pct) == avg * a;
    SameSign(avg, b - a);
    assert avg * (b - a) == avg * b - avg * a;
  }

  lemma {:induction false} SameSign(a: real, d: real)
    requires a > 0.0
    ensures a * d >= 0.0 <==> d >= 0.0
  {}

  /** On a stretch where the leg holds the stop rises, or stays on the floor. */
  lemma {:induction false} LegRises(avg: real, from: real, pct: real, stop: real, lo: real, hi: real)
    requires avg > 0.0 && LegHolds(from, pct, stop) && avg * from <= lo <= hi
    ensures Max(Less(avg, stop), Less(lo, pct)) <= Max(Less(avg, stop), Less(hi, pct))
    ensures pct > 1.0 ==> Less(lo, pct) <= Less(avg, stop)
  {
    AgainstFloor(avg, from, pct, stop);
    LessRises(lo, hi, pct);
    LessRises(avg * from, lo, pct);
    hide Less;
  }

  lemma {:induction false} KneeAgainstFloor(avg: real, trigger: real, pct: real, stop: real)
    requires avg > 0.0
    ensures Less(More(avg, trigger), pct) <= Less(avg, stop) <==> BelowFloor(1.0 + trigger, pct, stop)
  {
    AgainstFloor(avg, 1.0 + trigger, pct, stop);
    hide Less, BelowFloor;
  }

  /** Crossing the trigger, from just below it to the trigger itself. */
  lemma {:induction false} CrossingRises(avg: real, stop: real, trail: real, tight: real, trigger: real, lo: real)
    requires avg > 0.0 && trigger > 0.0 && RatchetCondition(stop, trail, Some(tight), Some(trigger))
    requires avg < lo < More(avg, trigger)
    ensures Max(Less(avg, stop), Less(lo, trail)) <= Max(Less(avg, stop), Less(More(avg, trigger), tight))
  {
    hide Less, More, BelowFloor;
    var knee := More(avg, trigger);
    MoreSign(avg, trigger);
    LegRises(avg, 1.0, trail, stop, lo, knee);
    KneeAgainstFloor(avg, trigger, trail, stop);
    LessRises(lo, knee, trail);
    if tight <= trail {
      LessTightens(knee, trail, tight);
    }
  }

  lemma {:induction false} StopRises(
      avg: real, lo: real, hi: real, stop: real, trail: real, tightPct: Option<real>, tightTrigger: Option<real>)
    requires avg > 0.0 && RatchetCondition(stop, trail, tightPct, tightTrigger) && avg < lo <= hi
    ensures StopPrice(avg, Some(lo), stop, trail, tightPct, tightTrigger)
        <= StopPrice(avg, Some(hi), stop, trail, tightPct, tightTrigger)
  {
    if tightPct.None? || tightTrigger.None? {
      LegRises(avg, 1.0, trail, stop, lo, hi);
    } else {
      var tight, trigger := tightPct.value, tightTrigger.value;
      var knee := More(avg, trigger);
      MoreSign(avg, trigger);
      if trigger <= 0.0 {
        LegRises(avg, 1.0, tight, stop, lo, hi);
      } else if hi < knee {
        LegRises(avg, 1.0, trail, stop, lo, hi);
      } else {
        if lo < knee {
          CrossingRises(avg, stop, trail, tight, trigger, lo);
        }
        LegRises(avg, 1.0 + trigger, tight, stop, if lo < knee then knee else lo, hi);
      }
    }
    hide Less, More, LegHolds;
  }

  lemma {:induction false} RatchetSuffices(avg: real, stop: real, trail: real, tightPct: Option<real>,
      tightTrigger: Option<real>)
    requires avg > 0.0 && RatchetCondition(stop, trail, tightPct, tightTrigger)
    ensures Ratchets(avg, stop, trail, tightPct, tightTrigger)
  {
    hide RatchetCondition, Less, More, TrailStop;
    forall lo, hi | lo <= hi
      ensures StopPrice(avg, Some(lo), stop, trail, tightPct, tightTrigger)
          <= StopPrice(avg, Some(hi), stop, trail, tightPct, tightTrigger)
    {
      if lo > avg {
        StopRises(avg, lo, hi, stop, trail, tightPct, tightTrigger);
      }
    }
  }

  /** Where a leg does not hold, two marks right behind its start have a falling stop. */
  lemma {:induction false} LegFalls(avg: real, from: real, pct: real, stop: real, bound: real)
      returns (lo: real, hi: real)
    requires avg > 0.0 && !LegHolds(from, pct, stop) && avg * from < bound
    ensures avg * from < lo < hi < bound
    ensures Max(Less(avg, stop), Less(lo, pct)) > Max(Less(avg, stop), Less(hi, pct))
  {
    var start, floor := avg * from, Less(avg, stop);
    AgainstFloor(avg, from, pct, stop);
    var edge := floor / (1.0 - pct);
    assert Less(edge, pct) == floor;
    if edge <= start {
      LessRises(edge, start, pct);
      assert false;
    }
    var end := Min(edge, bound);
    lo, hi := start + (end - start) / 3.0, start + (end - start) * 2.0 / 3.0;
    LessRises(lo, hi, pct);
    LessRises(lo, edge, pct);
    hide Less;
  }

  /** Where the crossing fails, the loose trail stands higher just below the trigger than
      the tight trail and the floor do at it. */
  lemma {:induction false} CrossingFalls(avg: real, stop: real, trail: real, tight: real, trigger: real)
      returns (lo: real)
    requires avg > 0.0 && trigger > 0.0 && LegHolds(1.0, trail, stop)
    requires !CrossingHolds(1.0 + trigger, trail, tight, stop)
    ensures avg < lo < More(avg, trigger)
    ensures Max(Less(avg, stop), Less(lo, trail)) > Max(Less(avg, stop), Less(More(avg, trigger), tight))
  {
    var knee := More(avg, trigger);
    MoreSign(avg, trigger);
    AgainstFloor(avg, 1.0 + trigger, trail, stop);
    LessTightens(knee, tight, trail);
    LegRises(avg, 1.0, trail, stop, knee, knee);
    var level := Max(Less(avg, stop), Less(knee, tight));
    assert Less(knee, trail) > level;
    lo := JustBelow(avg, knee, trail, level);
    hide Less, More;
  }

  /** A mark between `low` and `knee` whose trail still exceeds `level`. */
  lemma {:induction false} JustBelow(low: real, knee: real, trail: real, level: real) returns (lo: real)
    requires low < knee && trail <= 1.0 && Less(knee, trail) > level
    ensures low < lo < knee && Less(lo, trail) > level
  {
    if trail == 1.0 {
      lo := (low + knee) / 2.0;
      LessRises(lo, knee, trail);
      return;
    }
    var edge := level / (1.0 - trail);
    assert Less(edge, trail) == level;
    if edge >= knee {
      LessRises(knee, edge, trail);
      assert false;
    }
    lo := (Max(low, edge) + knee) / 2.0;
    LessRises(edge, lo, trail);
  }

  /** When the condition fails, some rise of the mark lowers the stop. */
  lemma {:induction false} RatchetNeeded(avg: real, stop: real, trail: real, tightPct: Option<real>,
      tightTrigger: Option<real>)
    requires avg > 0.0 && !RatchetCondition(stop, trail, tightPct, tightTrigger)
    ensures !Ratchets(avg, stop, trail, tightPct, tightTrigger)
  {
    hide Less, More, LegHolds, CrossingHolds;
    var lo, hi;
    if tightPct.None? || tightTrigger.None? {
      lo, hi := LegFalls(avg, 1.0, trail, stop, avg + 1.0);
    } else {
      var tight, trigger := tightPct.value, tightTrigger.value;
      MoreSign(avg, trigger);
      if trigger <= 0.0 {
        lo, hi := LegFalls(avg, 1.0, tight, stop, avg + 1.0);
      } else if !LegHolds(1.0, trail, stop) {
        lo, hi := LegFalls(avg, 1.0, trail, stop, More(avg, trigger));
      } else if !LegHolds(1.0 + trigger, tight, stop) {
        lo, hi := LegFalls(avg, 1.0 + trigger, tight, stop, More(avg, trigger) + 1.0);
      } else {
        lo := CrossingFalls(avg, stop, trail, tight, trigger);
        hi := More(avg, trigger);
      }
    }
    hide RatchetCondition;
    assert StopPrice(avg, Some(lo), stop, trail, tightPct, tightTrigger)
        > StopPrice(avg, Some(hi), stop, trail, tightPct, tightTrigger);
  }

  /** For all percentages, with or without tight settings: the stop never falls along any
      price path exactly when no trail of more than 100 % ever stands above the floor and,
      where a tight trail takes over, it is no looser than the base trail or the base trail
      is below the floor by then. */
  lemma {:induction false} StopRatchetsIff(avg: real, stop: real, trail: real, tightPct: Option<real>,
      tightTrigger: Option<real>)
    requires avg > 0.0
    ensures Ratchets(avg, stop, trail, tightPct, tightTrigger) <==>
        RatchetCondition(stop, trail, tightPct, tightTrigger)
  {
    if RatchetCondition(stop, trail, tightPct, tightTrigger) {
      RatchetSuffices(avg, stop, trail, tightPct, tightTrigger);
    } else {
      RatchetNeeded(avg, stop, trail, tightPct, tightTrigger);
    }
  }

  // ----- Nothing is held forever ----------------------------------------------

  /** Past both time limits the polling copy keeps a position only in trail-only mode, with
      a high-water mark above the average and the price above the stop; the websocket copy
      keeps none. */
  lemma {:induction false} ExitByDeadline(h: Holding, mark: real, hwm: Option<real>, s: Settings, nowMs: int)
    requires h.avg > 0.0 && mark > 0.0
    ensures var held := HeldSec(h.openedTs, nowMs);
      held >= Pick(s.timeLimit, None, POLL_TIME_LIMIT) && held >= Pick(s.timeLimitMax, None, POLL_TIME_LIMIT_MAX) ==>
        (PollExit(h, mark, hwm, s, nowMs) == None <==>
          && InTrailOnly(h, mark, s) && hwm.Some? && hwm.value > h.avg
          && mark > StopPrice(h.avg, hwm, Pick(s.stop, h.stopPct, POLL_STOP), Pick(s.trail, None, POLL_TRAIL),
              s.tightPct, s.tightTrigger)
          && !EarlyLoss(h, mark, s, held) && !(s.stagnant && Stagnates(h, mark, hwm, held)))
    ensures var held := HeldSec(h.openedTs, nowMs);
      held >= Pick(s.timeLimit, None, COIN_TIME_LIMIT) && held >= Pick(s.timeLimitMax, None, COIN_TIME_LIMIT_MAX) ==>
        WsExit(h, mark, hwm, s, nowMs).Some?
  {}

  // ----- Along a price path ---------------------------------------------------

  /** The first tick that exits, with the high-water mark raised tick by tick. */
  datatype Hit = Hit(index: nat, tick: Tick, verdict: Verdict)

  function FirstExit(h: Holding, s: Settings, ticks: seq<Tick>, hwm: real, i: nat): (r: Option<Hit>)
    ensures r.Some? ==> i <= r.value.index < |ticks| && r.value.tick == ticks[r.value.index]
    decreases |ticks| - i
  {
    if i >= |ticks| then None
    else
      var mark, high := ticks[i].price, Max(hwm, ticks[i].price);
      match PollExit(h, mark, Some(high), s, ticks[i].ts)
      case Some(v) => Some(Hit(i, ticks[i], v))
      case None => FirstExit(h, s, ticks, high, i + 1)
  }

  /** An exit found on a path is found on every extension of it. */
  lemma {:induction false} FirstExitStable(h: Holding, s: Settings, ticks: seq<Tick>, more: seq<Tick>, hwm: real,
      i: nat)
    requires FirstExit(h, s, ticks, hwm, i).Some?
    ensures FirstExit(h, s, ticks + more, hwm, i) == FirstExit(h, s, ticks, hwm, i)
    decreases |ticks| - i
  {
    var high := Max(hwm, ticks[i].price);
    if PollExit(h, ticks[i].price, Some(high), s, ticks[i].ts) == None {
      FirstExitStable(h, s, ticks, more, high, i + 1);
    }
  }

  function HwmAfter(ticks: seq<Tick>, hwm: real, n: nat): real
    requires n <= |ticks|
  {
    if n == 0 then hwm else Max(HwmAfter(ticks, hwm, n - 1), ticks[n - 1].price)
  }

  /** Along every path the effective stop never falls, under the condition above. */
  lemma {:induction false} StopNeverFalls(
      ticks: seq<Tick>, avg: real, stop: real, trail: real, tightPct: Option<real>, tightTrigger: Option<real>,
      hwm: real, n: nat, m: nat)
    requires avg > 0.0 && RatchetCondition(stop, trail, tightPct, tightTrigger)
    requires n <= m <= |ticks|
    ensures HwmAfter(ticks, hwm, n) <= HwmAfter(ticks, hwm, m)
    ensures StopPrice(avg, Some(HwmAfter(ticks, hwm, n)), stop, trail, tightPct, tightTrigger)
         <= StopPrice(avg, Some(HwmAfter(ticks, hwm, m)), stop, trail, tightPct, tightTrigger)
    decreases m
  {
    if n == m {
    } else {
      StopNeverFalls(ticks, avg, stop, trail, tightPct, tightTrigger, hwm, n, m - 1);
      RatchetSuffices(avg, stop, trail, tightPct, tightTrigger);
      hide StopPrice, RatchetCondition;
    }
  }
}
