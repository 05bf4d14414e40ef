/** The limit on concurrent positions over whole runs: what the risk engine counts, what is
    really bought, and exactly when the two drift apart far enough to break the limit. */
module OrderLimits {
  import opened Common
  import opened Domain
  import opened Strategy
  import opened Pipeline
  import opened PipelineSafety

  /** Bought and neither a position yet nor called off. */
  function Outstanding(orders: seq<Order>, m: Market): nat {
    if orders == [] then 0
    else
      var o := orders[|orders| - 1];
      Outstanding(orders[..|orders| - 1], m) + (if o.market == m && IsOutstanding(o) then 1 else 0)
  }

  /** Positions plus buys on their way. */
  function Exposure(st: State, m: Market): nat { OpenIn(st.index, m) + Outstanding(st.orders, m) }

  /** What the risk engine takes for that number. */
  function Counted(st: State, m: Market, nowSec: int): nat {
    OpenIn(st.index, m) + |PendingNotionals(Scan(st.orders, m), nowSec)|
  }

  predicate IsFinal(status: string) { status in {"CANCELED", "REJECTED", "ERROR"} }

  /** How many buys in a market a reply puts on their way. */
  function Taken(s: SignalFields, r: Reply, m: Market): nat {
    if s.market != m || !s.direction.Long? then 0
    else
      match r
      case Raises(n) => AtMost(n, Attempts(m))
      case Replied(status, _, hidden) => AtMost(hidden, Attempts(m) - 1) + (if IsFinal(status) then 0 else 1)
  }

  /** How many buys in a market the event puts on their way. */
  function Bought(st: State, e: Event, u: Setup, m: Market): (n: nat)
    ensures n > 0 ==> e.Receive?
  {
    if Orders(st, e, u) then Taken(e.s, e.env.reply, m) else 0
  }

  lemma {:induction false} BoughtAtMost(st: State, e: Event, u: Setup, m: Market)
    ensures Bought(st, e, u, m) <= Attempts(m)
    ensures Bought(st, e, u, m) > 0 ==> Orders(st, e, u) && e.s.market == m && e.s.direction.Long?
  {
    hide Orders;
  }

  // ----- How the exposure moves -----------------------------------------------

  lemma {:induction false} OutstandingAppend(orders: seq<Order>, o: Order, m: Market)
    ensures Outstanding(orders + [o], m)
        == Outstanding(orders, m) + (if o.market == m && IsOutstanding(o) then 1 else 0)
  {
    assert (orders + [o])[..|orders|] == orders;
  }

  lemma {:induction false} OutstandingReplace(orders: seq<Order>, n: nat, o: Order, m: Market)
    requires n < |orders|
    ensures Outstanding(orders[n := o], m)
         == Outstanding(orders, m) - (if orders[n].market == m && IsOutstanding(orders[n]) then 1 else 0)
                                   + (if o.market == m && IsOutstanding(o) then 1 else 0)
  {
    var front := orders[..|orders| - 1];
    if n == |orders| - 1 {
      assert orders[n := o][..n] == front;
    } else {
      assert orders[n := o][..|orders| - 1] == front[n := o];
      OutstandingReplace(front, n, o, m);
    }
  }

  lemma {:induction false} OpenInAdd(index: set<SymbolKey>, k: SymbolKey, m: Market)
    ensures OpenIn(index + {k}, m) == OpenIn(index, m) + (if k.market == m && k !in index then 1 else 0)
  {
    var open := set x: SymbolKey | x in index && x.market == m;
    var more := set x: SymbolKey | x in index + {k} && x.market == m;
    if k.market == m && k !in index {
      assert more == open + {k};
    } else {
      assert index + {k} == index || k.market != m;
      assert more == open;
    }
  }

  lemma {:induction false} OpenInRemove(index: set<SymbolKey>, k: SymbolKey, m: Market)
    ensures OpenIn(index - {k}, m) <= OpenIn(index, m)
  {
    var open := set x: SymbolKey | x in index && x.market == m;
    var less := set x: SymbolKey | x in index - {k} && x.market == m;
    assert less == open - {k} && open == less + open * {k};
  }

  /** A turn leaves the index alone and adds at most the order it placed. */
  lemma {:induction false} TurnOrders(st: State, e: Event, u: Setup)
    requires e.Receive?
    ensures Step(st, e, u).index == st.index
    ensures Step(st, e, u).orders == if Orders(st, e, u) then OrdersAfter(st.orders, e.s, e.env.reply) else st.orders
  {
    hide GateCheck, RiskRules, RunnerPaused, CanBuild, OrdersAfter, IsSignal;
  }

  lemma {:induction false} CopiesOutstanding(orders: seq<Order>, o: Order, n: nat, m: Market)
    ensures Outstanding(orders + Copies(o, n), m)
         == Outstanding(orders, m) + (if o.market == m && IsOutstanding(o) then n else 0)
  {
    hide Outstanding, IsOutstanding;
    if n == 0 {
      assert orders + [] == orders;
    } else {
      CopiesOutstanding(orders, o, n - 1, m);
      OutstandingAppend(orders + Copies(o, n - 1), o, m);
      assert orders + Copies(o, n) == orders + Copies(o, n - 1) + [o];
    }
  }

  lemma {:induction false} ReplyOutstanding(orders: seq<Order>, s: Signal, r: Reply, m: Market)
    ensures Outstanding(OrdersAfter(orders, s, r), m) == Outstanding(orders, m) + Taken(s, r, m)
  {
    hide Outstanding, OrderQty, AtMost, Attempts;
    var unknown := OrderOf(s, "SUBMITTED", false);
    match r
    case Raises(n) => CopiesOutstanding(orders, unknown, AtMost(n, Attempts(s.market)), m);
    case Replied(status, written, hidden) =>
      var copies := AtMost(hidden, Attempts(s.market) - 1);
      CopiesOutstanding(orders, unknown, copies, m);
      OutstandingAppend(orders + Copies(unknown, copies), OrderOf(s, status, written), m);
  }

  lemma {:induction false} TurnExposure(st: State, e: Event, u: Setup, m: Market)
    requires e.Receive?
    ensures Exposure(Step(st, e, u), m) == Exposure(st, m) + Bought(st, e, u, m)
  {
    hide Step, OpenIn, Outstanding, OrdersAfter, Taken;
    TurnOrders(st, e, u);
    if Orders(st, e, u) {
      ReplyOutstanding(st.orders, e.s, e.env.reply, m);
    }
  }

  /** A turn raises the exposure by the buys it puts on their way. Nothing else raises it but a
      position that was not bought by the pipeline: stamping and settling orders do not, and a
      fill that becomes a position only moves it. */
  lemma {:induction false} ExposureMoves(st: State, e: Event, u: Setup, m: Market)
    ensures Bought(st, e, u, m) > 0 ==> Exposure(Step(st, e, u), m) == Exposure(st, m) + Bought(st, e, u, m)
    ensures Exposure(Step(st, e, u), m) <= Exposure(st, m) + Bought(st, e, u, m) || (e.Adopt? && e.position.market == m)
  {
    hide Orders, Outstanding, OpenIn, Taken;
    match e
    case Receive(_, _) =>
      TurnExposure(st, e, u, m);
      hide Step, Bought;
    case Sighted(n, sec) => SightExposure(st, n, sec, m);
    case Settle(n, status) => SettleExposure(st, n, status, m);
    case Book(n) => BookExposure(st, n, m);
    case Adopt(k, _) => OpenInAdd(st.index, k, m);
    case Close(k) => OpenInRemove(st.index, k, m);
    case _ =>
  }

  lemma {:induction false} SightExposure(st: State, n: nat, sec: int, m: Market)
    ensures n < |st.orders| ==> Outstanding(st.orders[n := Stamped(st.orders[n], sec)], m) == Outstanding(st.orders, m)
  {
    if n < |st.orders| {
      OutstandingReplace(st.orders, n, Stamped(st.orders[n], sec), m);
    }
  }

  lemma {:induction false} SettleExposure(st: State, n: nat, status: string, m: Market)
    ensures n < |st.orders| ==>
      Outstanding(st.orders[n := Settled(st.orders[n], status)], m) <= Outstanding(st.orders, m)
  {
    if n < |st.orders| {
      OutstandingReplace(st.orders, n, Settled(st.orders[n], status), m);
    }
  }

  lemma {:induction false} BookExposure(st: State, n: nat, m: Market)
    ensures n < |st.orders| && IsOutstanding(st.orders[n]) ==>
      var o := st.orders[n];
      OpenIn(st.index + {SymbolKey(o.market, o.meta.symbol)}, m) + Outstanding(st.orders[n := o.(booked := true)], m)
          <= Exposure(st, m)
  {
    if n < |st.orders| && IsOutstanding(st.orders[n]) {
      var o := st.orders[n];
      OutstandingReplace(st.orders, n, o.(booked := true), m);
      OpenInAdd(st.index, SymbolKey(o.market, o.meta.symbol), m);
    }
  }

  // ----- What the risk check sees ---------------------------------------------

  lemma {:induction false} ScanAppend(orders: seq<Order>, o: Order, m: Market)
    ensures Scan(orders + [o], m) == Scan(orders, m) + (if o.market == m && o.known then [o.meta] else [])
  {
    assert (orders + [o])[..|orders|] == orders;
  }

  lemma {:induction false} PendingAppend(metas: seq<OrderMeta>, o: OrderMeta, nowSec: int)
    ensures PendingNotionals(metas + [o], nowSec)
         == PendingNotionals(metas, nowSec) + (if CountsAsPending(o, nowSec) then [Notional(o)] else [])
  {
    assert (metas + [o])[..|metas|] == metas;
    hide Notional;
  }

  /** The executor stamps no order. Until the watcher does, its own orders reserve neither a
      slot nor cash: whatever a turn orders, every later reading of the pending buys, at any
      time, is what it was before. */
  lemma {:induction false} OwnOrdersAreInvisible(st: State, e: Event, u: Setup, m: Market, nowSec: int)
    requires e.Receive?
    ensures PendingNotionals(Scan(Step(st, e, u).orders, m), nowSec) == PendingNotionals(Scan(st.orders, m), nowSec)
  {
    hide Step, OrdersAfter, Scan, PendingNotionals;
    TurnOrders(st, e, u);
    if Orders(st, e, u) {
      ReplyInvisible(st.orders, e.s, e.env.reply, m, nowSec);
    }
  }

  lemma {:induction false} UnseenCopies(orders: seq<Order>, o: Order, n: nat, m: Market)
    requires !o.known
    ensures Scan(orders + Copies(o, n), m) == Scan(orders, m)
  {
    hide Scan;
    if n == 0 {
      assert orders + [] == orders;
    } else {
      UnseenCopies(orders, o, n - 1, m);
      ScanAppend(orders + Copies(o, n - 1), o, m);
      assert orders + Copies(o, n) == orders + Copies(o, n - 1) + [o];
      assert Scan(orders, m) + [] == Scan(orders, m);
    }
  }

  lemma {:induction false} ReplyInvisible(orders: seq<Order>, s: Signal, r: Reply, m: Market, nowSec: int)
    ensures PendingNotionals(Scan(OrdersAfter(orders, s, r), m), nowSec) == PendingNotionals(Scan(orders, m), nowSec)
  {
    hide Scan, PendingNotionals, OrderQty, AtMost, Attempts;
    var unknown := OrderOf(s, "SUBMITTED", false);
    match r
    case Raises(n) => UnseenCopies(orders, unknown, AtMost(n, Attempts(s.market)), m);
    case Replied(status, written, hidden) =>
      var copies, o := AtMost(hidden, Attempts(s.market) - 1), OrderOf(s, status, written);
      UnseenCopies(orders, unknown, copies, m);
      ScanAppend(orders + Copies(unknown, copies), o, m);
      PendingAppend(Scan(orders, m), o.meta, nowSec);
      assert Scan(orders, m) + [] == Scan(orders, m);
      assert PendingNotionals(Scan(orders, m), nowSec) + [] == PendingNotionals(Scan(orders, m), nowSec);
  }

  lemma {:induction false} BuyWasCounted(st: State, e: Event, u: Setup, m: Market)
    requires Bought(st, e, u, m) > 0
    ensures Counted(st, m, e.env.risk.nowSec) < u.lim.For(m).maxConcurrent
  {
    hide Orders, Allowed, PendingNotionals, Scan, OpenIn, RiskPaused;
    OrdersIff(st, e, u);
  }

  /** The order counts as pending at that second. */
  predicate IsSeen(o: Order, nowSec: int) { o.known && CountsAsPending(o.meta, nowSec) }

  ghost predicate CaughtUp(orders: seq<Order>, m: Market, nowSec: int) {
    forall o :: o in orders && o.market == m && IsOutstanding(o) ==> IsSeen(o, nowSec)
  }

  lemma {:induction false} CaughtUpCountsAll(orders: seq<Order>, m: Market, nowSec: int)
    requires CaughtUp(orders, m, nowSec)
    ensures |PendingNotionals(Scan(orders, m), nowSec)| >= Outstanding(orders, m)
  {
    if orders == [] {
    } else {
      var front, o := orders[..|orders| - 1], orders[|orders| - 1];
      assert o in orders && orders == front + [o];
      CaughtUpCountsAll(front, m, nowSec);
      ScanAppend(front, o, m);
      PendingAppend(Scan(front, m), o.meta, nowSec);
      hide Scan, PendingNotionals, IsOutstanding;
      assert Scan(front, m) + [] == Scan(front, m);
    }
  }

  /** Once every buy on its way has been written, stamped and not forgotten, a buy that
      passes the risk check has room. */
  lemma {:induction false} CaughtUpHasRoom(st: State, e: Event, u: Setup, m: Market)
    requires Bought(st, e, u, m) > 0 && CaughtUp(st.orders, m, e.env.risk.nowSec)
    ensures Exposure(st, m) < u.lim.For(m).maxConcurrent
  {
    hide Bought, CaughtUp, Scan, PendingNotionals, Outstanding, OpenIn;
    CaughtUpCountsAll(st.orders, m, e.env.risk.nowSec);
    BuyWasCounted(st, e, u, m);
  }

  // ----- The limit over whole runs --------------------------------------------

  predicate Within(st: State, u: Setup, m: Market) { Exposure(st, m) <= u.lim.For(m).maxConcurrent }

  ghost predicate AlwaysWithin(st: State, es: seq<Event>, u: Setup, m: Market) {
    Within(Run(st, es, u), u, m) && (es != [] ==> AlwaysWithin(st, es[..|es| - 1], u, m))
  }

  /** Positions come from fills of the pipeline's own orders. */
  predicate OwnPositions(es: seq<Event>, m: Market) { forall e :: e in es && e.Adopt? ==> e.position.market != m }

  /** The event buys nothing, or buys one position while every earlier buy is seen. */
  ghost predicate BuysSeeing(st: State, e: Event, u: Setup, m: Market) {
    e.Receive? && Bought(st, e, u, m) > 0 ==> Bought(st, e, u, m) == 1 && CaughtUp(st.orders, m, e.env.risk.nowSec)
  }

  ghost predicate AlwaysSeeing(st: State, es: seq<Event>, u: Setup, m: Market) {
    es != [] ==>
      var front := es[..|es| - 1]; AlwaysSeeing(st, front, u, m) && BuysSeeing(Run(st, front, u), es[|es| - 1], u, m)
  }

  /** Every run in which each buy is a single one and is placed with all earlier ones written
      and recently stamped stays within the limit throughout. */
  lemma {:induction false} SeeingRunsStayWithin(st: State, es: seq<Event>, u: Setup, m: Market)
    requires Within(st, u, m) && OwnPositions(es, m) && AlwaysSeeing(st, es, u, m)
    ensures AlwaysWithin(st, es, u, m)
  {
    if es == [] {
    } else {
      hide Bought, Step, Exposure, CaughtUp;
      var front, e := es[..|es| - 1], es[|es| - 1];
      assert e in es;
      SeeingRunsStayWithin(st, front, u, m);
      WithinNow(st, front, u, m);
      var mid := Run(st, front, u);
      ExposureMoves(mid, e, u, m);
      if Bought(mid, e, u, m) > 0 {
        CaughtUpHasRoom(mid, e, u, m);
      }
    }
  }

  lemma {:induction false} WithinNow(st: State, es: seq<Event>, u: Setup, m: Market)
    ensures AlwaysWithin(st, es, u, m) ==> Within(Run(st, es, u), u, m)
  {}

  // ----- When the market can buy ----------------------------------------------

  /** A free symbol that is not held either. */
  predicate BuySymbol(st: State, u: Setup, m: Market, symbol: string, now: int) {
    FreeSymbol(st, u, m, symbol, now) && NotHeld(st.facts, SymbolKey(m, symbol))
  }

  /** A signal family whose entries the market takes. */
  predicate Enters(f: Facts, m: Market, family: string) {
    && (family == "" || ModeOf(f, m, family).Live?)
    && (RiskPaused(Lookup(f.marketPause, m)) ==> CanaryOptedIn(f, m, family))
  }

  /** What has to be so for anything to be bought, besides a symbol: keys and settings only. */
  ghost predicate BuysOpen(st: State, u: Setup, m: Market, now: int) {
    && !RiskPaused(st.pause) && !RiskPaused(st.facts.compatPause) && u.HasBroker(m) && LossOk(st.facts, m, u.lim.For(m))
    && CountAt(st.gate, DayKey(m, DayOf(now))) < u.cfg.For(m).dailyCap
    && Counted(st, m, now / 1000) < u.lim.For(m).maxConcurrent && u.lim.For(m).allocationPct > 0.0
    && exists family :: Enters(st.facts, m, family)
  }

  /** A signal checked, and its orders counted, at one instant. */
  predicate Instant(e: Event, now: int) {
    e.Receive? && e.env.now == now && e.env.risk.nowSec == now / 1000 && e.env.setAt >= now
  }

  lemma {:induction false} NoShare(size: real, cash: real, pct: real)
    requires size > 0.0 && cash >= 0.0 && size <= cash * pct
    ensures pct > 0.0
  {
    if pct <= 0.0 {
      assert false;
    }
  }

  lemma {:induction false} BuyTells(st: State, e: Event, u: Setup, m: Market, now: int)
    requires Instant(e, now) && Bought(st, e, u, m) > 0
    ensures BuysOpen(st, u, m, now) && BuySymbol(st, u, m, e.s.symbol, now)
    ensures e.s.market == m && Allowed(st, e, u)
  {
    hide Orders, RiskPaused, PendingNotionals, Scan, OpenIn, ModeOf, RunnerPaused, Cooling;
    BoughtAtMost(st, e, u, m);
    OrdersIff(st, e, u);
    assert Enters(st.facts, m, e.s.family);
    NoShare(e.s.sizeCash,
            Max(0.0, e.env.risk.availableCash.value - Sum(PendingNotionals(Scan(st.orders, m), now / 1000))),
            u.lim.For(m).allocationPct);
  }

  /** The most one signal can buy: a reply that hides what was accepted before it. */
  function FullReply(m: Market): Reply { Replied("SUBMITTED", true, Attempts(m) - 1) }

  /** Where the keys allow it, any admissible symbol can be bought, as often over as the
      broker's client sends an order. */
  lemma {:induction false} OpenCanBuy(st: State, u: Setup, m: Market, symbol: string, now: int) returns (e: Event)
    requires BuysOpen(st, u, m, now) && BuySymbol(st, u, m, symbol, now)
    ensures Instant(e, now) && e.env.setAt == now && e.s.symbol == symbol && e.s.market == m
    ensures Bought(st, e, u, m) == Attempts(m)
  {
    hide RiskPaused, RunnerPaused, Orders, PendingNotionals, Scan, OpenIn, Sum, GateCheck, ModeOf, Cooling, ValidSymbol;
    var id := NewIdPasses(st, u, m, symbol, now);
    var family :| Enters(st.facts, m, family);
    var reserved := Sum(PendingNotionals(Scan(st.orders, m), now / 1000));
    var cash := EnoughCash(reserved, u.lim.For(m).allocationPct);
    e := Signalled(m, id, symbol, family, Long, now, cash, FullReply(m));
    if RunnerPaused(st.pause) {
      RunnerPauseIsRiskPause(st.pause);
    }
    OrdersIff(st, e, u);
  }

  lemma {:induction false} EnoughCash(reserved: real, pct: real) returns (cash: real)
    requires pct > 0.0
    ensures cash > 0.0 && 1.0 <= Max(0.0, cash - reserved) * pct
  {
    var need := 1.0 / pct;
    assert need * pct == 1.0 && need > 0.0;
    cash := Max(0.0, reserved) + need;
    var left := Max(0.0, cash - reserved);
    assert (left - need) * pct >= 0.0;
  }

  /** Some signal, handled at that instant, is bought beyond the limit. */
  ghost predicate Breakable(st: State, u: Setup, m: Market, now: int) {
    exists e: Event :: Instant(e, now) && Bought(st, e, u, m) > 0 && !Within(Step(st, e, u), u, m)
  }

  /** One signal can break the limit exactly when the market can buy and what it may buy does
      not fit: the limit is reached, or in Korea nearly, and the risk engine's count, short of
      unstamped, overdue and unwritten orders, does not show it. */
  lemma {:induction false} BreakableIff(st: State, u: Setup, m: Market, now: int)
    ensures Breakable(st, u, m, now) <==>
      && BuysOpen(st, u, m, now) && (exists symbol :: BuySymbol(st, u, m, symbol, now))
      && Exposure(st, m) + Attempts(m) > u.lim.For(m).maxConcurrent
  {
    hide Bought, Step, Exposure, BuysOpen, BuySymbol, Attempts, Instant;
    if BuysOpen(st, u, m, now) && (exists symbol :: BuySymbol(st, u, m, symbol, now))
       && Exposure(st, m) + Attempts(m) > u.lim.For(m).maxConcurrent {
      var symbol :| BuySymbol(st, u, m, symbol, now);
      var e := OpenCanBuy(st, u, m, symbol, now);
      SendsAtLeastOnce(m);
      ExposureMoves(st, e, u, m);
    }
    forall e: Event | Instant(e, now) && Bought(st, e, u, m) > 0 && !Within(Step(st, e, u), u, m)
      ensures BuysOpen(st, u, m, now) && (exists symbol :: BuySymbol(st, u, m, symbol, now))
      ensures Exposure(st, m) + Attempts(m) > u.lim.For(m).maxConcurrent
    {
      BuyTells(st, e, u, m, now);
      BoughtAtMost(st, e, u, m);
      ExposureMoves(st, e, u, m);
    }
  }

  lemma {:induction false} SendsAtLeastOnce(m: Market)
    ensures Attempts(m) >= 1
  {}

  // ----- A burst of signals ---------------------------------------------------

  ghost predicate Burst(es: seq<Event>, now: int) { forall e :: e in es ==> Instant(e, now) }

  /** Some burst of signals at that instant ends beyond the limit. */
  ghost predicate BurstBreaks(st: State, u: Setup, m: Market, now: int) {
    exists es: seq<Event> :: Burst(es, now) && !Within(Run(st, es, u), u, m)
  }

  ghost predicate BuySymbols(st: State, u: Setup, m: Market, symbols: seq<string>, now: int) {
    && (forall i :: 0 <= i < |symbols| ==> BuySymbol(st, u, m, symbols[i], now))
    && (forall i, j :: 0 <= i < j < |symbols| ==> symbols[i] != symbols[j])
  }

  /** The symbols bought along a run. */
  function SymbolsBought(st: State, es: seq<Event>, u: Setup, m: Market): seq<string> {
    if es == [] then []
    else
      var front, e := es[..|es| - 1], es[|es| - 1];
      SymbolsBought(st, front, u, m) + (if Bought(Run(st, front, u), e, u, m) > 0 then [e.s.symbol] else [])
  }

  /** A later state of a burst: what the buys depend on is as before, the count has grown by
      at least the buys, and symbols bought are cooling. */
  ghost predicate AfterBurst(st: State, end: State, u: Setup, m: Market, bought: seq<string>, now: int) {
    var day := DayKey(m, DayOf(now));
    && end.facts == st.facts && (!RiskPaused(end.pause) ==> !RiskPaused(st.pause))
    && Counted(end, m, now / 1000) == Counted(st, m, now / 1000)
    && CountAt(end.gate, day) >= CountAt(st.gate, day) + |bought|
    && (bought != [] ==> CountAt(end.gate, day) <= u.cfg.For(m).dailyCap)
    && (forall s :: Cooling(st.gate, SymbolKey(m, s), u.cfg.For(m), now) ==>
        Cooling(end.gate, SymbolKey(m, s), u.cfg.For(m), now))
    && (forall s :: s in bought ==> Cooling(end.gate, SymbolKey(m, s), u.cfg.For(m), now))
    && Exposure(end, m) <= Exposure(st, m) + |bought| * Attempts(m)
  }

  /** What a turn at one instant does to the gate's count and cooldowns in a market. */
  lemma {:induction false} InstantGate(st: State, e: Event, u: Setup, m: Market, now: int)
    requires Instant(e, now) && u.cfg.Valid()
    ensures var g, g', day, cfg := st.gate, Step(st, e, u).gate, DayKey(m, DayOf(now)), u.cfg.For(m);
      && CountAt(g', day) >= CountAt(g, day) && (CountAt(g, day) <= cfg.dailyCap ==> CountAt(g', day) <= cfg.dailyCap)
      && (forall s :: Cooling(g, SymbolKey(m, s), cfg, now) ==> Cooling(g', SymbolKey(m, s), cfg, now))
      && (Allowed(st, e, u) && e.s.market == m ==>
            && CountAt(g', day) == CountAt(g, day) + 1 <= cfg.dailyCap
            && Cooling(g', SymbolKey(m, e.s.symbol), cfg, now))
  {
    hide Step, RunnerPaused, IsSignal;
    GateAfter(st, e, u);
  }

  /** A turn touches no key but its own; the pause key it can only set. */
  lemma {:induction false} TurnKeeps(st: State, e: Event, u: Setup)
    requires e.Receive?
    ensures var st' := Step(st, e, u);
      st'.facts == st.facts && st'.index == st.index && (st'.pause == st.pause || st'.pause == Some("true"))
  {
    hide GateCheck, RiskRules, RunnerPaused, CanBuild, OrdersAfter, IsSignal;
  }

  lemma {:induction false} InstantEffects(st: State, e: Event, u: Setup, m: Market, now: int)
    requires u.cfg.Valid() && Instant(e, now)
    ensures var st' := Step(st, e, u);
      && st'.facts == st.facts && (!RiskPaused(st'.pause) ==> !RiskPaused(st.pause))
      && Counted(st', m, now / 1000) == Counted(st, m, now / 1000)
      && Exposure(st', m) == Exposure(st, m) + Bought(st, e, u, m)
  {
    hide Step, Bought, Exposure, RiskPaused, PendingNotionals, Scan, OpenIn;
    TurnKeeps(st, e, u);
    TrueIsPaused();
    OwnOrdersAreInvisible(st, e, u, m, now / 1000);
    TurnExposure(st, e, u, m);
  }

  lemma {:induction false} BurstBuys(st: State, mid: State, e: Event, u: Setup, m: Market, bought: seq<string>,
      now: int)
    requires u.cfg.Valid() && Instant(e, now) && AfterBurst(st, mid, u, m, bought, now) && Bought(mid, e, u, m) > 0
    ensures AfterBurst(st, Step(mid, e, u), u, m, bought + [e.s.symbol], now)
    ensures BuysOpen(st, u, m, now) && BuySymbol(st, u, m, e.s.symbol, now) && e.s.symbol !in bought
  {
    hide Step, Bought, Exposure, Counted, Cooling, RiskPaused, Attempts, Allowed, CountAt, DayOf, LossOk, Enters,
        ValidSymbol, NotHeld;
    InstantEffects(mid, e, u, m, now);
    InstantGate(mid, e, u, m, now);
    BoughtAtMost(mid, e, u, m);
    BuyTells(mid, e, u, m, now);
    assert |bought + [e.s.symbol]| * Attempts(m) == |bought| * Attempts(m) + Attempts(m);
  }

  lemma {:induction false} BurstPasses(st: State, mid: State, e: Event, u: Setup, m: Market, bought: seq<string>,
      now: int)
    requires u.cfg.Valid() && Instant(e, now) && AfterBurst(st, mid, u, m, bought, now) && Bought(mid, e, u, m) == 0
    ensures AfterBurst(st, Step(mid, e, u), u, m, bought, now)
  {
    hide Step, Bought, Exposure, Counted, Cooling, RiskPaused, Attempts, Allowed;
    InstantEffects(mid, e, u, m, now);
    InstantGate(mid, e, u, m, now);
  }

  lemma {:induction false} BurstStarts(st: State, u: Setup, m: Market, now: int)
    ensures AfterBurst(st, st, u, m, [], now) && BuySymbols(st, u, m, [], now)
  {
    hide Exposure, Counted, Cooling, RiskPaused, Attempts, BuySymbol;
    var none: seq<string> := [];
    assert |none| * Attempts(m) == 0;
  }

  lemma {:induction false} OneSymbolMore(st: State, u: Setup, m: Market, symbols: seq<string>, symbol: string, now: int)
    requires BuySymbols(st, u, m, symbols, now) && BuySymbol(st, u, m, symbol, now) && symbol !in symbols
    ensures BuySymbols(st, u, m, symbols + [symbol], now)
  {
    hide BuySymbol;
  }

  lemma {:induction false} BurstRuns(st: State, es: seq<Event>, u: Setup, m: Market, now: int)
    requires u.cfg.Valid() && Burst(es, now)
    ensures var bought := SymbolsBought(st, es, u, m);
      && AfterBurst(st, Run(st, es, u), u, m, bought, now)
      && BuySymbols(st, u, m, bought, now) && (bought != [] ==> BuysOpen(st, u, m, now))
  {
    hide Step, Bought, BuysOpen, BuySymbol, BuySymbols, AfterBurst, Instant;
    if es == [] {
      BurstStarts(st, u, m, now);
    } else {
      var front, e := es[..|es| - 1], es[|es| - 1];
      var mid, bought := Run(st, front, u), SymbolsBought(st, front, u, m);
      assert e in es && Burst(front, now);
      BurstRuns(st, front, u, m, now);
      if Bought(mid, e, u, m) > 0 {
        BurstBuys(st, mid, e, u, m, bought, now);
        OneSymbolMore(st, u, m, bought, e.s.symbol, now);
      } else {
        BurstPasses(st, mid, e, u, m, bought, now);
        assert bought + [] == bought;
      }
    }
  }

  /** From any state a burst of signals can take a market beyond its limit exactly when the
      market can buy and enough symbols can be bought with what the day's count has left. The
      risk engine's count stops no burst: it stays as it is throughout. */
  lemma {:induction false} BurstBreaksIff(st: State, u: Setup, m: Market, now: int)
    requires u.cfg.Valid() && Within(st, u, m)
    ensures BurstBreaks(st, u, m, now) <==>
      && BuysOpen(st, u, m, now)
      && exists symbols: seq<string> :: Enough(st, u, m, symbols, now)
  {
    hide BuysOpen, Burst, Run;
    forall es: seq<Event> | Burst(es, now) && !Within(Run(st, es, u), u, m)
      ensures BuysOpen(st, u, m, now) && exists symbols: seq<string> :: Enough(st, u, m, symbols, now)
    {
      hide BuySymbols, Exposure, Attempts;
      BurstRuns(st, es, u, m, now);
      var bought := SymbolsBought(st, es, u, m);
      assert Enough(st, u, m, bought, now);
    }
    if BuysOpen(st, u, m, now) && exists symbols: seq<string> :: Enough(st, u, m, symbols, now) {
      var symbols: seq<string> :| Enough(st, u, m, symbols, now);
      var es := OnlyDailyCapStops(st, u, m, symbols, now);
    }
  }

  /** Different symbols that can be bought, no more than the day's count still allows, and
      more than fit within the limit. */
  ghost predicate Enough(st: State, u: Setup, m: Market, symbols: seq<string>, now: int) {
    && BuySymbols(st, u, m, symbols, now)
    && |symbols| <= u.cfg.For(m).dailyCap - CountAt(st.gate, DayKey(m, DayOf(now)))
    && Exposure(st, m) + |symbols| * Attempts(m) > u.lim.For(m).maxConcurrent
  }

  // ----- How far a burst can go -----------------------------------------------

  lemma {:induction false} OneMore(st: State, mid: State, u: Setup, m: Market, symbols: seq<string>, symbol: string,
      now: int)
    returns (e: Event)
    requires u.cfg.Valid() && BuysOpen(st, u, m, now) && BuySymbols(st, u, m, symbols + [symbol], now)
    requires CountAt(st.gate, DayKey(m, DayOf(now))) + |symbols| < u.cfg.For(m).dailyCap
    requires Reached(st, mid, u, m, symbols, now)
    ensures Instant(e, now) && Reached(st, Step(mid, e, u), u, m, symbols + [symbol], now)
  {
    hide Step, Bought, Exposure, Cooling, RiskPaused, PendingNotionals, Scan, OpenIn, Attempts, Orders, ValidSymbol,
        ModeOf;
    assert (symbols + [symbol])[|symbols|] == symbol;
    assert symbol !in symbols by {
      assert forall i :: 0 <= i < |symbols| ==> (symbols + [symbol])[i] == symbols[i];
    }
    assert BuySymbol(st, u, m, symbol, now);
    e := OpenCanBuy(mid, u, m, symbol, now);
    BuyKeepsOthers(mid, e, u, m, now);
    OwnOrdersAreInvisible(mid, e, u, m, now / 1000);
    ExposureMoves(mid, e, u, m);
    assert |symbols + [symbol]| * Attempts(m) == |symbols| * Attempts(m) + Attempts(m);
  }

  /** A burst that has bought just these symbols, each as often as it may. */
  ghost predicate Reached(st: State, mid: State, u: Setup, m: Market, symbols: seq<string>, now: int) {
    var day := DayKey(m, DayOf(now));
    && mid.facts == st.facts && mid.pause == st.pause
    && Counted(mid, m, now / 1000) == Counted(st, m, now / 1000)
    && CountAt(mid.gate, day) == CountAt(st.gate, day) + |symbols|
    && (forall s :: s !in symbols ==>
          (Cooling(mid.gate, SymbolKey(m, s), u.cfg.For(m), now) <==>
              Cooling(st.gate, SymbolKey(m, s), u.cfg.For(m), now)))
    && Exposure(mid, m) == Exposure(st, m) + |symbols| * Attempts(m)
  }

  lemma {:induction false} BuyKeepsOthers(st: State, e: Event, u: Setup, m: Market, now: int)
    requires Instant(e, now) && Bought(st, e, u, m) > 0
    ensures var st', day, cfg := Step(st, e, u), DayKey(m, DayOf(now)), u.cfg.For(m);
      && st'.facts == st.facts && st'.index == st.index && st'.pause == st.pause
      && CountAt(st'.gate, day) == CountAt(st.gate, day) + 1
      && (forall s :: s != e.s.symbol ==>
            (Cooling(st'.gate, SymbolKey(m, s), cfg, now) <==> Cooling(st.gate, SymbolKey(m, s), cfg, now)))
  {
    hide Step, Orders, RunnerPaused, IsSignal, OrdersAfter, WithinLimits;
    BoughtAtMost(st, e, u, m);
    OrdersIff(st, e, u);
    GateAfter(st, e, u);
    TurnKeeps(st, e, u);
    OrderKeepsPause(st, e, u);
  }

  lemma {:induction false} OrderKeepsPause(st: State, e: Event, u: Setup)
    requires Orders(st, e, u)
    ensures Step(st, e, u).pause == st.pause
  {
    hide GateCheck, RiskRules, RunnerPaused, IsSignal, OrdersAfter;
  }

  /** Where the market can buy, any number of different admissible symbols can be bought one
      after the other before the watcher looks, as long as the day's count allows: the daily
      cap, not the limit on positions, is what ends a burst. */
  lemma {:induction false} OnlyDailyCapStops(st: State, u: Setup, m: Market, symbols: seq<string>, now: int)
    returns (es: seq<Event>)
    requires u.cfg.Valid() && BuysOpen(st, u, m, now) && BuySymbols(st, u, m, symbols, now)
    requires |symbols| <= u.cfg.For(m).dailyCap - CountAt(st.gate, DayKey(m, DayOf(now)))
    ensures Burst(es, now) && Reached(st, Run(st, es, u), u, m, symbols, now)
  {
    hide BuysOpen, BuySymbol, Step, Instant;
    if symbols == [] {
      es := [];
      hide Exposure, Counted, Cooling;
    } else {
      var front, last := symbols[..|symbols| - 1], symbols[|symbols| - 1];
      assert symbols == front + [last];
      var before := OnlyDailyCapStops(st, u, m, front, now);
      var e := OneMore(st, Run(st, before, u), u, m, front, last, now);
      es := before + [e];
      assert es[..|es| - 1] == before;
      hide Reached;
    }
  }

  // The coin market with its default settings, and fifteen coins.
  const COIN_DEFAULTS := MarketConfig(300, 30, 604800)
  const DEFAULTS := Setup(Config(PLAIN, PLAIN, COIN_DEFAULTS), RiskConfig(LIMITS, LIMITS, LIMITS), {COIN})
  const COINS := [
    "KRW-ADA", "KRW-BTC", "KRW-CHZ", "KRW-DOGE", "KRW-ETH", "KRW-FLOW", "KRW-GAS", "KRW-HBAR", "KRW-ICX", "KRW-JST",
    "KRW-KAVA", "KRW-LINK", "KRW-MANA", "KRW-NEAR", "KRW-QTUM"]

  lemma {:induction false} CoinsAreValid()
    ensures |COINS| == 15 && forall i :: 0 <= i < 15 ==> ValidSymbol(COINS[i])
  {
    assert forall c :: c in COINS ==> ValidSymbol(c);
  }

  /** Their initials differ. */
  lemma {:induction false} CoinsDiffer()
    ensures forall i, j :: 0 <= i < j < 15 ==> COINS[i] != COINS[j]
  {
    var initials := "ABCDEFGHIJKLMNQ";
    assert forall i :: 0 <= i < 15 ==> |COINS[i]| > 4 && COINS[i][4] == initials[i];
    InitialsDiffer();
    hide COINS;
  }

  lemma {:induction false} InitialsDiffer()
    ensures forall i, j :: 0 <= i < j < 15 ==> "ABCDEFGHIJKLMNQ"[i] != "ABCDEFGHIJKLMNQ"[j]
  {}

  /** With the default limit of three positions and nothing held, fifteen coins are bought. */
  lemma {:induction false} FifteenBuysInThreeSlots(now: int) returns (es: seq<Event>)
    ensures Burst(es, now) && DEFAULTS.lim.For(COIN).maxConcurrent == 3
    ensures Exposure(FRESH, COIN) == 0 && Exposure(Run(FRESH, es, DEFAULTS), COIN) == 15
  {
    FalseIsNotPaused();
    NothingOpen(COIN);
    CoinsAreValid();
    CoinsDiffer();
    assert Enters(NO_FACTS, COIN, "");
    hide RiskPaused, OpenIn, ValidSymbol;
    es := OnlyDailyCapStops(FRESH, DEFAULTS, COIN, COINS, now);
  }
}
