/** The strategy gate: duplicate window, per-symbol cooldown and daily cap, in that order. */
module Strategy {
  import opened Domain

  /** The KST calendar day of an instant. */
  function DayOf(now: int): int { (now + KST_OFFSET_MS) / DAY_MS }

  datatype SignalKey = SignalKey(market: Market, id: string)

  datatype SymbolKey = SymbolKey(market: Market, symbol: string)

  datatype DayKey = DayKey(market: Market, day: int)

  /** Redis accepts positive expiry times only. */
  datatype MarketConfig = MarketConfig(cooldownSec: int, dailyCap: int, dedupeTtlSec: int) {
    predicate Valid() { cooldownSec > 0 && dedupeTtlSec > 0 }
  }

  datatype Config = Config(kr: MarketConfig, us: MarketConfig, coin: MarketConfig) {
    function For(m: Market): MarketConfig {
      match m
      case KR => kr
      case US => us
      case COIN => coin
    }

    predicate Valid() { kr.Valid() && us.Valid() && coin.Valid() }
  }

  /** A stored timestamp and the instant its key expires. */
  datatype Stamp = Stamp(last: int, expiry: int)

  datatype Gate = Gate(dedupe: map<SignalKey, int>, cooldown: map<SymbolKey, Stamp>, counts: map<DayKey, int>)

  datatype Decision = Ok | DupSignal | Cooldown | DailyCap

  /** A key with an expiry time is there until that time. */
  predicate Alive<K>(m: map<K, int>, k: K, now: int) { k in m && now < m[k] }

  function CountAt(g: Gate, k: DayKey): int { if k in g.counts then g.counts[k] else 0 }

  predicate Cooling(g: Gate, k: SymbolKey, cfg: MarketConfig, now: int) {
    k in g.cooldown && now < g.cooldown[k].expiry && now - g.cooldown[k].last < cfg.cooldownSec * 1000
  }

  /** `check`: the rules read the clock at `now`; a passing signal stamps the cooldown at `setAt`. */
  function GateCheck(
      g: Gate, id: SignalKey, symbol: string, cfg: MarketConfig, now: int, setAt: int): (Gate, Decision)
  {
    var sym, day := SymbolKey(id.market, symbol), DayKey(id.market, DayOf(now));
    if Alive(g.dedupe, id, now) then (g, DupSignal)
    else
      var seen := g.(dedupe := g.dedupe[id := now + cfg.dedupeTtlSec * 1000]);
      if Cooling(g, sym, cfg, now) then (seen, Cooldown)
      else if CountAt(g, day) + 1 > cfg.dailyCap then (seen.(counts := g.counts[day := CountAt(g, day)]), DailyCap)
      else
        (seen.(counts := g.counts[day := CountAt(g, day) + 1],
               cooldown := g.cooldown[sym := Stamp(setAt, setAt + cfg.cooldownSec * 1000)]), Ok)
  }

  class StrategyEngine {
    var dedupe: map<SignalKey, int>
    var cooldown: map<SymbolKey, Stamp>
    var counts: map<DayKey, int>

    function View(): Gate
      reads this
    {
      Gate(dedupe, cooldown, counts)
    }

    /** SET NX: true when the signal id is new or its window has passed. */
    method RuleDedupe(id: SignalKey, cfg: MarketConfig, now: int) returns (pass: bool)
      modifies this`dedupe
      ensures pass <==> !Alive(old(dedupe), id, now)
      ensures dedupe == if pass then old(dedupe)[id := now + cfg.dedupeTtlSec * 1000] else old(dedupe)
    {
      pass := !(id in dedupe && now < dedupe[id]);
      if pass {
        dedupe := dedupe[id := now + cfg.dedupeTtlSec * 1000];
      }
    }

    method RuleCooldown(sym: SymbolKey, cfg: MarketConfig, now: int) returns (pass: bool)
      ensures pass <==> !Cooling(View(), sym, cfg, now)
    {
      if sym !in cooldown || now >= cooldown[sym].expiry {
        return true;
      }
      var elapsed := now - cooldown[sym].last;
      return elapsed >= cfg.cooldownSec * 1000;
    }

    /** The Lua script: increment, and take the increment back when it passes the cap. */
    method RuleDailyCap(day: DayKey, cfg: MarketConfig) returns (pass: bool)
      modifies this`counts
      ensures pass <==> CountAt(old(View()), day) + 1 <= cfg.dailyCap
      ensures counts == old(counts)[day := CountAt(old(View()), day) + (if pass then 1 else 0)]
    {
      var v := (if day in counts then counts[day] else 0) + 1;
      counts := counts[day := v];
      if v > cfg.dailyCap {
        counts := counts[day := v - 1];
        return false;
      }
      return true;
    }

    method Check(id: SignalKey, symbol: string, cfg: MarketConfig, now: int, setAt: int) returns (d: Decision)
      modifies this
      ensures (View(), d) == GateCheck(old(View()), id, symbol, cfg, now, setAt)
    {
      var sym, day := SymbolKey(id.market, symbol), DayKey(id.market, DayOf(now));
      var pass := RuleDedupe(id, cfg, now);
      if !pass {
        return DupSignal;
      }
      pass := RuleCooldown(sym, cfg, now);
      if !pass {
        return Cooldown;
      }
      pass := RuleDailyCap(day, cfg);
      if !pass {
        return DailyCap;
      }
      cooldown := cooldown[sym := Stamp(setAt, setAt + cfg.cooldownSec * 1000)];
      return Ok;
    }
  }
}
