/** The parameter-sweep backtester: its own re-implementation of the exit rule on recorded
    prices, compared here with the live rule it stands for. */
module Backtest {
  import opened Common
  import opened MarkHistory
  import opened ExitRule

  const TIME_LIMIT_TICKS := 600
  const TIME_LIMIT_MAX_TICKS := 1200

  datatype Params = Params(stop: real, take: real, trail: real)

  datatype Reason = StopOut | TrailOut | TakeOut | TimeOut | EndOfData

  datatype SimResult = SimResult(entry: real, exit: real, reason: Reason, pnlPct: real, holdTicks: nat)

  /** The simulator's decision at one tick, `hwm` already raised to include it. */
  function Decide(entry: real, mark: real, hwm: real, p: Params, tick: nat): Option<Reason> {
    var floor, trailStop := Less(entry, p.stop), Less(hwm, p.trail);
    if mark <= Max(floor, trailStop) then Some(if trailStop > floor then TrailOut else StopOut)
    else if mark >= More(entry, p.take) then Some(TakeOut)
    else if tick >= TIME_LIMIT_TICKS && (mark <= entry || tick >= TIME_LIMIT_MAX_TICKS) then Some(TimeOut)
    else None
  }

  function Result(entry: real, exit: real, reason: Reason, tick: nat): SimResult
    requires entry > 0.0
  {
    SimResult(entry, exit, reason, (exit - entry) / entry, tick)
  }

  function SimulateFrom(prices: seq<Tick>, p: Params, hwm: real, i: nat): (r: SimResult)
    requires 0 < i <= |prices| && prices[0].price > 0.0
    decreases |prices| - i
  {
    var entry := prices[0].price;
    if i == |prices| then Result(entry, prices[i - 1].price, EndOfData, i - 1)
    else
      var high := Max(hwm, prices[i].price);
      match Decide(entry, prices[i].price, high, p, i)
      case Some(reason) => Result(entry, prices[i].price, reason, i)
      case None => SimulateFrom(prices, p, high, i + 1)
  }

  function Simulate(prices: seq<Tick>, p: Params): Option<SimResult> {
    if |prices| < 10 || prices[0].price <= 0.0 then None
    else Some(SimulateFrom(prices, p, prices[0].price, 1))
  }

  /** `simulate_one`, loop and all. */
  method SimulateOne(prices: seq<Tick>, p: Params) returns (r: Option<SimResult>)
    ensures r == Simulate(prices, p)
  {
    if |prices| < 10 {
      return None;
    }
    var entry := prices[0].price;
    if entry <= 0.0 {
      return None;
    }
    var stopFloor, takePrice := Less(entry, p.stop), More(entry, p.take);
    var hwm := entry;
    var tick := 1;
    hide Less, More;
    while tick < |prices|
      invariant 1 <= tick <= |prices|
      invariant SimulateFrom(prices, p, hwm, tick) == SimulateFrom(prices, p, entry, 1)
    {
      var mark := prices[tick].price;
      if mark > hwm {
        hwm := mark;
      }
      var trailStop := Less(hwm, p.trail);
      if mark <= Max(stopFloor, trailStop) {
        return Some(Result(entry, mark, if trailStop > stopFloor then TrailOut else StopOut, tick));
      }
      if mark >= takePrice {
        return Some(Result(entry, mark, TakeOut, tick));
      }
      if tick >= TIME_LIMIT_TICKS {
        if mark <= entry || tick >= TIME_LIMIT_MAX_TICKS {
          return Some(Result(entry, mark, TimeOut, tick));
        }
      }
      tick := tick + 1;
    }
    return Some(Result(entry, prices[|prices| - 1].price, EndOfData, |prices| - 1));
  }

  // ----- The live rule on the same path ---------------------------------------

  /** The live rule with the parameters under test: no tight trail, no early exit, no
      stagnation exit and no trail-only mode. */
  function LiveSettings(p: Params, limit: int): Settings {
    Settings(Some(p.stop), Some(p.take), Some(p.trail), Some(limit), Some(limit), None, None, None, None, None, false)
  }

  function Kind(v: Verdict): Reason {
    match v
    case TrailingStop(_, _) => TrailOut
    case StopLoss(_, _) => StopOut
    case TakeProfit(_, _) => TakeOut
    case _ => TimeOut
  }

  /** A run of the live rule over recorded prices, entered at the first one. */
  datatype Scenario = Scenario(prices: seq<Tick>, openedTs: int, limit: int)

  /** Positive prices, a path the simulator's tick limit does not reach, and a live time
      limit the path's clock does not reach. */
  ghost predicate Comparable(c: Scenario) {
    && 10 <= |c.prices| <= TIME_LIMIT_TICKS
    && (forall n :: 0 <= n < |c.prices| ==> c.prices[n].price > 0.0 && HeldSec(c.openedTs, c.prices[n].ts) < c.limit)
  }

  function Live(c: Scenario, p: Params, hwm: real, i: nat): Option<Hit>
    requires c.prices != []
  {
    FirstExit(Holding(c.prices[0].price, c.openedTs, None, None), LiveSettings(p, c.limit), c.prices, hwm, i)
  }

  /** Same first tick, same price, same reason; end of data just when the live rule is silent. */
  ghost predicate Matches(r: SimResult, live: Option<Hit>) {
    match live
    case None => r.reason == EndOfData
    case Some(hit) => r.holdTicks == hit.index && r.exit == hit.tick.price && r.reason == Kind(hit.verdict)
  }

  ghost predicate AgreesOn(c: Scenario, p: Params)
    requires Comparable(c)
  {
    Matches(SimulateFrom(c.prices, p, c.prices[0].price, 1), Live(c, p, c.prices[0].price, 1))
  }

  ghost predicate RefinesLive(p: Params) {
    forall c :: Comparable(c) ==> AgreesOn(c, p)
  }

  predicate TrailCondition(p: Params) { p.trail >= p.stop || p.trail >= 1.0 }

  lemma {:induction false} SameDecision(entry: real, mark: real, hwm: real, p: Params, openedTs: int, limit: int,
      ts: int, tick: nat)
    requires TrailCondition(p) && entry > 0.0 && mark > 0.0 && hwm >= entry
    requires tick < TIME_LIMIT_TICKS && HeldSec(openedTs, ts) < limit
    ensures var live := PollExit(Holding(entry, openedTs, None, None), mark, Some(hwm), LiveSettings(p, limit), ts);
      var sim := Decide(entry, mark, hwm, p, tick);
      if live.None? then sim.None? else sim == Some(Kind(live.value))
  {
    if p.trail >= p.stop {
      LessTightens(entry, p.trail, p.stop);
    } else {
      LessSign(entry, p.stop);
      LessSign(hwm, p.trail);
      LessSign(entry, p.trail);
    }
    hide Less, More, HeldSec;
  }

  lemma {:induction false} SimulatorFollowsLive(c: Scenario, p: Params, hwm: real, i: nat)
    requires Comparable(c) && TrailCondition(p) && 0 < i <= |c.prices| && hwm >= c.prices[0].price
    ensures Matches(SimulateFrom(c.prices, p, hwm, i), Live(c, p, hwm, i))
    decreases |c.prices| - i
  {
    if i < |c.prices| {
      var entry, mark := c.prices[0].price, c.prices[i].price;
      var high := Max(hwm, mark);
      SameDecision(entry, mark, high, p, c.openedTs, c.limit, c.prices[i].ts, i);
      hide Decide, PollExit, HeldSec;
      if Decide(entry, mark, high, p, i).None? {
        SimulatorFollowsLive(c, p, high, i + 1);
      }
    }
  }

  /** A flat path that opens the gap between the two rules. */
  function GapPath(p: Params): Scenario {
    var mark := if p.trail >= 0.0 then Less(1.0, p.trail) else 1.0;
    Scenario([Tick(0, 1.0)] + seq(9, n => Tick(0, mark)), 0, 1)
  }

  /** With a trail tighter than the stop the simulator trails from the entry price itself,
      where the live rule does not trail yet. */
  lemma {:induction false} SimulatorDiverges(p: Params)
    requires !TrailCondition(p)
    ensures Comparable(GapPath(p)) && !AgreesOn(GapPath(p), p)
  {
    var c := GapPath(p);
    var mark := c.prices[1].price;
    LessTightens(1.0, p.stop, p.trail);
    assert 0.0 < mark <= 1.0 && mark <= Less(1.0, p.trail);
    assert Max(1.0, mark) == 1.0;
    assert Decide(1.0, mark, 1.0, p, 1) == Some(TrailOut);
    var live := PollExit(Holding(1.0, 0, None, None), mark, Some(1.0), LiveSettings(p, 1), 0);
    assert live.Some? ==> Kind(live.value) != TrailOut;
    assert SimulateFrom(c.prices, p, 1.0, 1) == Result(1.0, mark, TrailOut, 1);
  }

  /** The backtest refines the live rule on every comparable path exactly when the trailing
      percentage is at least the stop percentage, or so large that neither can ever fire. */
  lemma {:induction false} RefinesLiveIff(p: Params)
    ensures RefinesLive(p) <==> TrailCondition(p)
  {
    if TrailCondition(p) {
      forall c | Comparable(c) ensures AgreesOn(c, p) {
        SimulatorFollowsLive(c, p, c.prices[0].price, 1);
      }
    } else {
      SimulatorDiverges(p);
    }
  }

  // ----- Loss bounds ----------------------------------------------------------

  /** No tick falls by more than the fraction `g` from the one before. */
  ghost predicate NoGap(prices: seq<Tick>, g: real) {
    forall n :: 0 < n < |prices| ==> prices[n].price >= Less(prices[n - 1].price, g)
  }

  /** The mark carried by the loop before tick `i`: the highest price so far. */
  function HighBefore(prices: seq<Tick>, i: nat): (high: real)
    requires 0 < i <= |prices|
    ensures i == 1 ==> high == prices[0].price
  {
    assert HwmAfter(prices, prices[0].price, 0) == prices[0].price;
    HwmAfter(prices, prices[0].price, i)
  }

  /** What is known when the simulation reaches tick `i`: the tick before stayed above both
      stops, or is the entry itself. */
  ghost predicate Survived(prices: seq<Tick>, p: Params, i: nat)
    requires 0 < i <= |prices|
  {
    i == 1 || (prices[i - 1].price > Less(prices[0].price, p.stop)
               && prices[i - 1].price > Less(HighBefore(prices, i), p.trail))
  }

  ghost predicate Bounded(prices: seq<Tick>, p: Params, g: real, r: SimResult)
    requires prices != []
  {
    && 0 < r.holdTicks < |prices| && r.holdTicks <= TIME_LIMIT_MAX_TICKS
    && r.exit == prices[r.holdTicks].price
    && (p.stop >= 0.0 || r.holdTicks > 1 ==> r.exit >= Less(Less(prices[0].price, p.stop), g))
    && (p.trail >= 0.0 || r.holdTicks > 1 ==> r.exit >= Less(Less(HighBefore(prices, r.holdTicks), p.trail), g))
    && (r.reason != StopOut && r.reason != TrailOut ==> r.exit > Less(prices[0].price, p.stop))
  }

  /** The tick after a surviving one is at worst one gap below both stops. */
  lemma {:induction false} OneGapBelow(prices: seq<Tick>, p: Params, g: real, i: nat)
    requires 0 < i < |prices| && prices[0].price > 0.0 && NoGap(prices, g) && g <= 1.0
    requires Survived(prices, p, i)
    ensures p.stop >= 0.0 || i > 1 ==> prices[i].price >= Less(Less(prices[0].price, p.stop), g)
    ensures p.trail >= 0.0 || i > 1 ==> prices[i].price >= Less(Less(HighBefore(prices, i), p.trail), g)
  {
    var entry, prev := prices[0].price, prices[i - 1].price;
    if i == 1 {
      if p.stop >= 0.0 {
        LessTightens(entry, p.stop, 0.0);
        LessRises(Less(entry, p.stop), entry, g);
      }
      if p.trail >= 0.0 {
        LessTightens(entry, p.trail, 0.0);
        LessRises(Less(entry, p.trail), entry, g);
      }
    } else {
      LessRises(Less(entry, p.stop), prev, g);
      LessRises(Less(HighBefore(prices, i), p.trail), prev, g);
    }
  }

  lemma {:induction false} SimulationBounded(prices: seq<Tick>, p: Params, g: real, i: nat)
    requires 0 < i <= |prices| && i <= TIME_LIMIT_MAX_TICKS
    requires prices[0].price > 0.0 && NoGap(prices, g) && g <= 1.0 && Survived(prices, p, i)
    requires i == |prices| ==>
      i > 1 && Bounded(prices, p, g, Result(prices[0].price, prices[i - 1].price, EndOfData, i - 1))
    ensures Bounded(prices, p, g, SimulateFrom(prices, p, HighBefore(prices, i), i))
    decreases |prices| - i
  {
    if i < |prices| {
      var entry, mark := prices[0].price, prices[i].price;
      var high := Max(HighBefore(prices, i), mark);
      OneGapBelow(prices, p, g, i);
      hide Less, More;
      if Decide(entry, mark, high, p, i).None? {
        assert HighBefore(prices, i + 1) == high;
        SimulationBounded(prices, p, g, i + 1);
      }
    }
  }

  /** How much a simulated trade can lose when prices do not gap by more than `g` at once. */
  lemma {:induction false} LossBound(prices: seq<Tick>, p: Params, g: real)
    requires Simulate(prices, p).Some? && NoGap(prices, g) && g <= 1.0
    ensures Bounded(prices, p, g, Simulate(prices, p).value)
  {
    SimulationBounded(prices, p, g, 1);
  }

  // ----- What a result says ---------------------------------------------------

  /** A result in money: it enters at the first price, leaves at the price of the tick it names,
      and its percentage leads from one to the other. */
  ghost predicate Consistent(prices: seq<Tick>, p: Params, r: SimResult)
    requires prices != []
  {
    && r.entry == prices[0].price > 0.0 && r.holdTicks < |prices| && r.exit == prices[r.holdTicks].price
    && r.entry * (1.0 + r.pnlPct) == r.exit
    && (r.reason == TakeOut ==> r.pnlPct >= p.take)
    && (r.reason == StopOut ==> r.pnlPct <= -p.stop)
    && (r.reason == EndOfData ==> r.holdTicks == |prices| - 1)
    && (r.reason == TimeOut ==> r.holdTicks >= 600 && (r.pnlPct <= 0.0 || r.holdTicks >= 1200))
    && r.holdTicks <= 1200 && (forall n :: 600 <= n < r.holdTicks ==> prices[n].price > r.entry)
  }

  lemma {:induction false} PctTells(entry: real, exit: real, pct: real)
    requires entry > 0.0
    ensures var gain := (exit - entry) / entry;
      && entry * (1.0 + gain) == exit
      && (exit >= More(entry, pct) <==> gain >= pct) && (exit <= Less(entry, pct) <==> gain <= -pct)
      && (exit <= entry <==> gain <= 0.0)
  {
    var gain := (exit - entry) / entry;
    assert gain * entry == exit - entry;
    SameSign(entry, gain - pct);
    assert entry * (gain - pct) == exit - entry - entry * pct;
    SameSign(entry, -gain);
    SameSign(entry, -pct - gain);
    assert entry * (-pct - gain) == -(entry * pct) - (exit - entry);
    assert More(entry, pct) == entry + entry * pct && Less(entry, pct) == entry - entry * pct;
  }

  lemma {:induction false} SimulationConsistent(prices: seq<Tick>, p: Params, hwm: real, i: nat)
    requires 0 < i <= |prices| && prices[0].price > 0.0
    requires i <= 1200 && forall n :: 600 <= n < i ==> prices[n].price > prices[0].price
    ensures Consistent(prices, p, SimulateFrom(prices, p, hwm, i))
    decreases |prices| - i
  {
    hide More, Less;
    var entry := prices[0].price;
    if i == |prices| {
      PctTells(entry, prices[i - 1].price, p.take);
    } else {
      var mark, high := prices[i].price, Max(hwm, prices[i].price);
      PctTells(entry, mark, p.take);
      PctTells(entry, mark, p.stop);
      if Decide(entry, mark, high, p, i).None? {
        SimulationConsistent(prices, p, high, i + 1);
      }
    }
  }

  /** Ten prices from a positive one on have a result, and every result is consistent: take profits
      bring at least the take percentage, plain stops lose at least the stop percentage, and nothing
      is held past 600 ticks at a loss or past 1200 at all. */
  lemma {:induction false} ResultTells(prices: seq<Tick>, p: Params)
    ensures match Simulate(prices, p)
      case Some(r) => |prices| >= 10 && Consistent(prices, p, r)
      case None => |prices| < 10 || prices[0].price <= 0.0
  {
    if |prices| >= 10 && prices[0].price > 0.0 {
      SimulationConsistent(prices, p, prices[0].price, 1);
    }
  }

  lemma {:induction false} KeepTells(entry: real, exit: real, pct: real, stop: real, g: real)
    requires entry > 0.0 && entry * (1.0 + pct) == exit && exit >= Less(Less(entry, stop), g)
    ensures pct >= (1.0 - stop) * (1.0 - g) - 1.0
  {
    var keep := (1.0 - stop) * (1.0 - g);
    assert Less(Less(entry, stop), g) == entry * keep;
    SameSign(entry, 1.0 + pct - keep);
    assert entry * (1.0 + pct - keep) == exit - entry * keep;
  }

  /** Without a price gap wider than `g` no trade loses more than stop and gap together. */
  lemma {:induction false} LossBoundPct(prices: seq<Tick>, p: Params, g: real)
    requires Simulate(prices, p).Some? && NoGap(prices, g) && g <= 1.0
    requires p.stop >= 0.0 || Simulate(prices, p).value.holdTicks > 1
    ensures Simulate(prices, p).value.pnlPct >= (1.0 - p.stop) * (1.0 - g) - 1.0
  {
    hide SimulateFrom, NoGap, HighBefore, Less;
    var r := Simulate(prices, p).value;
    LossBound(prices, p, g);
    ResultTells(prices, p);
    KeepTells(r.entry, r.exit, r.pnlPct, p.stop, g);
  }
}
