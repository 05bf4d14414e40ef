/** The exit rule in clock time: when, on the wall clock, each of its two copies lets go of a
    position, said of the opening time as stored and the current time in milliseconds. */
module ExitClock {
  import opened Common
  import opened ExitRule

  /** When the position was opened, in milliseconds: stored values above 1e12 are milliseconds,
      others seconds. */
  function OpenedMs(h: Holding): int { if h.openedTs > 1000000000000 then h.openedTs else h.openedTs * 1000 }

  /** The price is above the stop and does not take profit. */
  predicate PriceHolds(h: Holding, mark: real, hwm: Option<real>, s: Settings)
    requires h.avg > 0.0
  {
    && mark > StopPrice(h.avg, hwm, Pick(s.stop, h.stopPct, 0.015), Pick(s.trail, None, 0.015), s.tightPct,
        s.tightTrigger)
    && (mark < h.avg * (1.0 + Pick(s.take, h.takePct, 0.03)) || TrailOnly(h, mark, s))
  }

  predicate TrailOnly(h: Holding, mark: real, s: Settings) {
    s.trailOnly.Some? && mark - h.avg >= s.trailOnly.value * h.avg
  }

  /** The mark has been above the average. */
  predicate BeenUp(h: Holding, hwm: Option<real>) { hwm.Some? && hwm.value > h.avg }

  predicate LosesEarly(h: Holding, mark: real, s: Settings) {
    s.earlySec.Some? && s.earlyPct.Some? && mark < h.avg * (1.0 - s.earlyPct.value)
  }

  /** Within half a percent of the average, and never one percent above it. */
  predicate Stands(h: Holding, mark: real, hwm: Option<real>) {
    mark > h.avg * 0.995 && mark < h.avg * 1.005 && (hwm.None? || hwm.value < h.avg * 1.01)
  }

  lemma {:induction false} HeldByClock(h: Holding, nowMs: int, sec: int)
    ensures HeldSec(h.openedTs, nowMs) >= sec <==> nowMs >= OpenedMs(h) + 1000 * sec
  {}

  lemma {:induction false} TrailOnlyIff(h: Holding, mark: real, s: Settings)
    requires h.avg > 0.0
    ensures InTrailOnly(h, mark, s) <==> TrailOnly(h, mark, s)
  {
    if s.trailOnly.Some? {
      var x := (mark - h.avg) / h.avg;
      assert x * h.avg == mark - h.avg;
      SameSign(h.avg, x - s.trailOnly.value);
      assert h.avg * (x - s.trailOnly.value) == mark - h.avg - s.trailOnly.value * h.avg;
    }
  }

  /** The whole time part of the polling copy: while the price holds, the position is kept
      exactly as long as none of the three clocks has run out. */
  lemma {:induction false} PollKeepsIff(h: Holding, mark: real, hwm: Option<real>, s: Settings, nowMs: int)
    requires h.avg > 0.0 && mark > 0.0 && PriceHolds(h, mark, hwm, s)
    ensures var age := nowMs - OpenedMs(h);
      PollExit(h, mark, hwm, s, nowMs) == None <==>
        && (LosesEarly(h, mark, s) ==> age < 1000 * s.earlySec.value)
        && (s.stagnant && Stands(h, mark, hwm) ==> age < 1200000)
        && (age < 1000 * Pick(s.timeLimit, None, 900)
            || (BeenUp(h, hwm) && (TrailOnly(h, mark, s) || age < 1000 * Pick(s.timeLimitMax, None, 1800))))
  {
    hide HeldSec, StopPrice;
    ClocksOfPoll(h, nowMs, s);
    TrailOnlyIff(h, mark, s);
    hide InTrailOnly, TrailOnly;
  }

  lemma {:induction false} ClocksOfPoll(h: Holding, nowMs: int, s: Settings)
    ensures var held, age := HeldSec(h.openedTs, nowMs), nowMs - OpenedMs(h);
      && (s.earlySec.Some? ==> (held >= s.earlySec.value <==> age >= 1000 * s.earlySec.value))
      && (held >= 1200 <==> age >= 1200000)
      && (forall limit :: held >= limit <==> age >= 1000 * limit)
  {
    forall limit ensures HeldSec(h.openedTs, nowMs) >= limit <==> nowMs - OpenedMs(h) >= 1000 * limit {
      HeldByClock(h, nowMs, limit);
    }
    hide HeldSec, OpenedMs;
  }

  /** The three timed exits of the polling copy, one by one: each fires from its instant on and
      not before. */
  lemma {:induction false} PollFiresAt(h: Holding, mark: real, hwm: Option<real>, s: Settings, nowMs: int)
    requires h.avg > 0.0 && mark > 0.0 && PriceHolds(h, mark, hwm, s)
    ensures var v, since := PollExit(h, mark, hwm, s, nowMs), OpenedMs(h);
      var limit, limitMax := Pick(s.timeLimit, None, 900), Pick(s.timeLimitMax, None, 1800);
      if LosesEarly(h, mark, s) && nowMs >= since + 1000 * s.earlySec.value then v.Some? && v.value.EarlyExit?
      else if s.stagnant && Stands(h, mark, hwm) && nowMs >= since + 1200000 then v.Some? && v.value.StagnantExit?
      else if !BeenUp(h, hwm) then
        if nowMs < since + 1000 * limit then v == None else v.Some? && v.value.TimeLimit?
      else if !TrailOnly(h, mark, s) then
        if nowMs < since + 1000 * (if limit > limitMax then limit else limitMax) then v == None
        else v.Some? && v.value.TimeLimit?
      else v == None
  {
    hide HeldSec, StopPrice;
    ClocksOfPoll(h, nowMs, s);
    TrailOnlyIff(h, mark, s);
    hide InTrailOnly, TrailOnly;
  }

  predicate WsPriceHolds(h: Holding, mark: real, hwm: Option<real>, s: Settings) {
    mark > WsStops(h, hwm, s).1 && mark < h.avg * (1.0 + Pick(s.take, h.takePct, 0.15))
  }

  /** The same for the websocket copy, which knows no trail-only mode and always applies the
      stagnation rule. */
  lemma {:induction false} WsFiresAt(h: Holding, mark: real, hwm: Option<real>, s: Settings, nowMs: int)
    requires h.avg > 0.0 && mark > 0.0 && WsPriceHolds(h, mark, hwm, s)
    ensures var v, since := WsExit(h, mark, hwm, s, nowMs), OpenedMs(h);
      var limit, limitMax := Pick(s.timeLimit, None, 3600), Pick(s.timeLimitMax, None, 14400);
      if LosesEarly(h, mark, s) && nowMs >= since + 1000 * s.earlySec.value then v.Some? && v.value.EarlyExit?
      else if Stands(h, mark, hwm) && nowMs >= since + 1200000 then v.Some? && v.value.StagnantExit?
      else if !BeenUp(h, hwm) then
        if nowMs < since + 1000 * limit then v == None else v.Some? && v.value.TimeLimit?
      else
        if nowMs < since + 1000 * (if limit > limitMax then limit else limitMax) then v == None
        else v.Some? && v.value.TimeLimit?
  {
    hide HeldSec, WsStops;
    ClocksOfPoll(h, nowMs, s);
  }

  /** What a reason says is so: whole seconds held, gain in percent, the level crossed. */
  ghost predicate Tells(v: Verdict, h: Holding, mark: real, nowMs: int, take: real, limit: int) {
    var age := nowMs - OpenedMs(h);
    match v
    case TrailingStop(m, stop) => m == mark <= stop
    case StopLoss(m, stop) => m == mark <= stop
    case TakeProfit(m, level) => m == mark >= level && level == h.avg * (1.0 + take)
    case EarlyExit(held, gain) => IsWholeSec(held, age) && h.avg * (1.0 + gain / 100.0) == mark
    case StagnantExit(held, gain) => IsWholeSec(held, age) && h.avg * (1.0 + gain / 100.0) == mark
    case TimeLimit(held, l) => IsWholeSec(held, age) && l == limit
  }

  predicate IsWholeSec(held: int, ageMs: int) { 1000 * held <= ageMs < 1000 * (held + 1) }

  lemma {:induction false} WholeSec(h: Holding, nowMs: int)
    ensures IsWholeSec(HeldSec(h.openedTs, nowMs), nowMs - OpenedMs(h))
  {}

  lemma {:induction false} GainTells(avg: real, mark: real)
    requires avg > 0.0
    ensures avg * (1.0 + GainPct(avg, mark) / 100.0) == mark
  {
    var x := (mark - avg) / avg;
    assert x * avg == mark - avg;
    assert GainPct(avg, mark) / 100.0 == x;
  }

  lemma {:induction false} MoreTells(avg: real, pct: real)
    ensures More(avg, pct) == avg * (1.0 + pct)
  {}

  lemma {:induction false} PollReasonsTell(h: Holding, mark: real, hwm: Option<real>, s: Settings, nowMs: int)
    requires PollExit(h, mark, hwm, s, nowMs).Some?
    ensures Tells(PollExit(h, mark, hwm, s, nowMs).value, h, mark, nowMs,
                  Pick(s.take, h.takePct, 0.030), Pick(s.timeLimit, None, 900))
  {
    hide HeldSec, GainPct, StopPrice, IsWholeSec, OpenedMs, Less, More, Stagnates, EarlyLoss, InTrailOnly;
    WholeSec(h, nowMs);
    GainTells(h.avg, mark);
    MoreTells(h.avg, Pick(s.take, h.takePct, 0.030));
  }

  lemma {:induction false} WsReasonsTell(h: Holding, mark: real, hwm: Option<real>, s: Settings, nowMs: int)
    requires WsExit(h, mark, hwm, s, nowMs).Some?
    ensures Tells(WsExit(h, mark, hwm, s, nowMs).value, h, mark, nowMs,
                  Pick(s.take, h.takePct, 0.150), Pick(s.timeLimit, None, 3600))
  {
    hide HeldSec, GainPct, WsStops, IsWholeSec, OpenedMs, Less, More;
    WholeSec(h, nowMs);
    GainTells(h.avg, mark);
    MoreTells(h.avg, Pick(s.take, h.takePct, 0.150));
  }
}
