/** What goes to the broker: the orders of a turn told by the signal alone, the lock they leave,
    and the cash they reserve once the watcher has seen them. */
module OrderContents {
  import opened Common
  import opened Domain
  import opened Strategy
  import opened Pipeline
  import opened PipelineSafety
  import opened OrderLimits
  import ExitRule

  /** A quantity at a price uses up the cash: all of it, or in Korea as many whole shares as it
      buys, at least one. */
  ghost predicate Spends(m: Market, qty: real, price: real, cash: real) {
    && 0.0 < qty && qty * price <= cash
    && (m.KR? ==> qty.Floor as real == qty && cash < qty * price + price)
    && (!m.KR? ==> qty * price == cash)
  }

  /** The order asks for what the signal says. */
  ghost predicate Asks(o: Order, s: SignalFields) {
    && o.market == s.market && o.meta.symbol == s.symbol && o.meta.price == Some(s.price)
    && o.meta.side == (match s.direction case Long => "BUY" case Exit => "SELL")
    && o.meta.qty.Some? && Spends(s.market, o.meta.qty.value, s.price, s.sizeCash)
    && o.meta.firstSeen.None? && !o.booked
  }

  lemma {:induction false} MoreCostsMore(price: real, a: real, b: real)
    requires price > 0.0
    ensures a < b <==> a * price < b * price
    ensures (a + 1.0) * price == a * price + price
  {
    ExitRule.SameSign(price, a - b);
    assert price * (a - b) == a * price - b * price;
  }

  lemma {:induction false} WholeSharesSpend(price: real, cash: real)
    requires price > 0.0 && cash > 0.0
    ensures (cash / price).Floor > 0 ==> Spends(KR, (cash / price).Floor as real, price, cash)
    ensures (cash / price).Floor > 0 <==> cash >= price
  {
    var ratio := cash / price;
    assert ratio * price == cash;
    WholePartSpends(ratio, price, cash);
  }

  lemma {:induction false} WholePartSpends(ratio: real, price: real, cash: real)
    requires price > 0.0 && ratio * price == cash
    ensures ratio.Floor > 0 ==> Spends(KR, ratio.Floor as real, price, cash)
    ensures ratio.Floor > 0 <==> cash >= price
  {
    var qty := ratio.Floor as real;
    MoreCostsMore(price, ratio, qty);
    var next := qty + 1.0;
    MoreCostsMore(price, ratio, next);
    MoreCostsMore(price, qty, next);
    MoreCostsMore(price, ratio, 1.0);
    assert qty <= ratio < next;
    assert cash < next * price;
  }

  lemma {:induction false} OrderAsks(s: Signal, status: string, known: bool)
    requires CanBuild(s)
    ensures Asks(OrderOf(s, status, known), s)
  {
    hide Spends;
    if s.market.KR? {
      WholeSharesSpend(s.price, s.sizeCash);
    } else {
      AllCashSpends(s.market, s.price, s.sizeCash);
    }
  }

  lemma {:induction false} AllCashSpends(m: Market, price: real, cash: real)
    requires price > 0.0 && cash > 0.0 && !m.KR?
    ensures Spends(m, cash / price, price, cash)
  {}

  /** Cash and price leave one quantity. */
  lemma {:induction false} SpendsOneQty(m: Market, a: real, b: real, price: real, cash: real)
    requires price > 0.0 && Spends(m, a, price, cash) && Spends(m, b, price, cash)
    ensures a == b
  {
    MoreCostsMore(price, a, b);
    MoreCostsMore(price, b, a);
    if m.KR? {
      FewerThanOneMore(price, cash, a, b);
      FewerThanOneMore(price, cash, b, a);
      assert a.Floor == b.Floor;
    }
  }

  lemma {:induction false} FewerThanOneMore(price: real, cash: real, a: real, b: real)
    requires price > 0.0 && a * price <= cash && cash < b * price + price
    ensures a < b + 1.0
  {
    ExitRule.SameSign(price, a - b - 1.0);
    assert price * (a - b - 1.0) == a * price - b * price - price;
  }

  lemma {:induction false} CopiesAre(o: Order, n: nat)
    ensures |Copies(o, n)| == n && forall i :: 0 <= i < n ==> Copies(o, n)[i] == o
  {
    if n > 0 {
      CopiesAre(o, n - 1);
    }
  }

  /** A turn calls the broker with one order: it asks for what the signal says. The orders on
      record before stay, and what is added are the order and its unanswered repetitions, of
      which Korea's client makes at most two. */
  lemma {:induction false} OrderedTells(st: State, f: SignalFields, env: Env, u: Setup)
    requires Turn(st, f, env, u).1.Ordered?
    ensures var st' := Turn(st, f, env, u).0;
      && |st.orders| <= |st'.orders| <= |st.orders| + (if f.market.KR? then 3 else 1)
      && st'.orders[..|st.orders|] == st.orders
      && (forall i :: |st.orders| <= i < |st'.orders| ==> Asks(st'.orders[i], f))
    ensures var st' := Turn(st, f, env, u).0;
      match env.reply
      case Raises(n) =>
        && (n >= (if f.market.KR? then 3 else 1) || |st'.orders| == |st.orders| + n)
        && (forall i :: |st.orders| <= i < |st'.orders| ==>
              !st'.orders[i].known && st'.orders[i].meta.status == "SUBMITTED")
      case Replied(status, written, hidden) =>
        var last := |st'.orders| - 1;
        && last >= |st.orders| && (hidden >= (if f.market.KR? then 2 else 0) || last == |st.orders| + hidden)
        && st'.orders[last].meta.status == status && st'.orders[last].known == written
        && (forall i :: |st.orders| <= i < last ==>
              !st'.orders[i].known && st'.orders[i].meta.status == "SUBMITTED")
  {
    hide GateCheck, RiskRules, RunnerPaused, Asks;
    OrderAsks(f, "SUBMITTED", false);
    match env.reply
    case Raises(n) =>
      CopiesAre(OrderOf(f, "SUBMITTED", false), AtMost(n, Attempts(f.market)));
      hide OrderOf;
    case Replied(status, written, hidden) =>
      OrderAsks(f, status, written);
      CopiesAre(OrderOf(f, "SUBMITTED", false), AtMost(hidden, Attempts(f.market) - 1));
      hide OrderOf;
  }

  /** A signal that passes everything before it fails to become an order exactly in Korea, when
      its cash does not buy one share. Whatever does not reach the broker adds no order, and no
      signal older than five minutes does. */
  lemma {:induction false} BuildFailsIff(st: State, f: SignalFields, env: Env, u: Setup)
    ensures var (st', out) := Turn(st, f, env, u);
      && (out.BuildFailed? || out.Ordered? ==> (out.BuildFailed? <==> f.market.KR? && f.sizeCash < f.price))
      && (!out.Ordered? ==> st'.orders == st.orders)
      && (out.Ordered? ==> env.guardAllows && (f.ageSec.None? || f.ageSec.value <= 300.0))
      && (out.Stale? ==> f.ageSec.Some? && f.ageSec.value > 300.0)
  {
    if IsSignal(f) {
      WholeSharesSpend(f.price, f.sizeCash);
    }
    hide GateCheck, RiskRules, RunnerPaused, OrdersAfter, Alive;
  }

  /** The executor's lock: it stays while alive and stops the signal, an answered order sets it for
      six hours, a failed one frees it, and nothing else in the turn touches it or another. */
  lemma {:induction false} LockTells(st: State, f: SignalFields, env: Env, u: Setup)
    ensures var (st', out) := Turn(st, f, env, u);
      && (out.LockHeld? ==> KeyOf(f) in st.locks && env.lockAt < st.locks[KeyOf(f)])
      && (out.BuildFailed? || out.Ordered? ==> KeyOf(f) !in st.locks || env.lockAt >= st.locks[KeyOf(f)])
      && st'.locks == (match out
                       case Ordered(Replied(_, _, _)) => st.locks[KeyOf(f) := env.lockAt + 21600000]
                       case Ordered(Raises(_)) => st.locks - {KeyOf(f)}
                       case BuildFailed => st.locks - {KeyOf(f)}
                       case _ => st.locks)
  {
    hide GateCheck, RiskRules, RunnerPaused, OrdersAfter, CanBuild, IsSignal;
  }

  /** Two setups that agree on a market: its gate, its limits and its broker. */
  predicate SameFor(u: Setup, v: Setup, m: Market) {
    match m
    case KR => u.cfg.kr == v.cfg.kr && u.lim.kr == v.lim.kr
    case US => u.cfg.us == v.cfg.us && u.lim.us == v.lim.us && (US in u.brokers <==> US in v.brokers)
    case COIN => u.cfg.coin == v.cfg.coin && u.lim.coin == v.lim.coin && (COIN in u.brokers <==> COIN in v.brokers)
  }

  /** The settings of other markets have no say in a turn, and the Korean broker is always there. */
  lemma {:induction false} OwnSettingsDecide(st: State, f: SignalFields, env: Env, u: Setup, v: Setup)
    requires SameFor(u, v, f.market)
    ensures Turn(st, f, env, u) == Turn(st, f, env, v)
  {
    hide GateCheck, Execute, RunnerPaused, IsSignal;
  }

  // ----- Reserved cash --------------------------------------------------------

  /** Cash the risk engine sets aside, and for how many buys. */
  function Reserved(st: State, m: Market, nowSec: int): real { Sum(PendingNotionals(Scan(st.orders, m), nowSec)) }

  function Reservations(st: State, m: Market, nowSec: int): nat { |PendingNotionals(Scan(st.orders, m), nowSec)| }

  /** What an order adds to the scan of a market. */
  function Worth(o: Order, m: Market, nowSec: int): seq<real> {
    if o.market == m && IsSeen(o, nowSec) then [Notional(o.meta)] else []
  }

  lemma {:induction false} SumConcat(xs: seq<real>, ys: seq<real>)
    ensures Sum(xs + ys) == Sum(xs) + Sum(ys)
    decreases |ys|
  {
    if ys == [] {
      assert xs + ys == xs;
    } else {
      var front, last := ys[..|ys| - 1], ys[|ys| - 1];
      SumConcat(xs, front);
      SumAppend(xs + front, last);
      assert xs + front + [last] == xs + ys;
    }
  }

  lemma {:induction false} PendingPush(orders: seq<Order>, o: Order, m: Market, nowSec: int)
    ensures var p, p' := PendingNotionals(Scan(orders, m), nowSec), PendingNotionals(Scan(orders + [o], m), nowSec);
      Sum(p') == Sum(p) + Sum(Worth(o, m, nowSec)) && |p'| == |p| + |Worth(o, m, nowSec)|
  {
    hide Notional, Scan, PendingNotionals, Sum;
    ScanAppend(orders, o, m);
    PendingAppend(Scan(orders, m), o.meta, nowSec);
    assert Scan(orders, m) + [] == Scan(orders, m);
    var p := PendingNotionals(Scan(orders, m), nowSec);
    assert PendingNotionals(Scan(orders + [o], m), nowSec) == p + Worth(o, m, nowSec);
    SumConcat(p, Worth(o, m, nowSec));
  }

  /** An order that comes to be seen adds its worth, wherever it stands. */
  lemma {:induction false} SeenAdds(
      front: seq<Order>, before: Order, after: Order, back: seq<Order>, m: Market, nowSec: int)
    requires Worth(before, m, nowSec) == []
    ensures var p := PendingNotionals(Scan(front + [before] + back, m), nowSec);
      var p' := PendingNotionals(Scan(front + [after] + back, m), nowSec);
      && Sum(p') == Sum(p) + Sum(Worth(after, m, nowSec)) && |p'| == |p| + |Worth(after, m, nowSec)|
    decreases |back|
  {
    assert Sum([]) == 0.0;
    hide Worth, Scan, PendingNotionals, Sum;
    if back == [] {
      assert front + [before] + back == front + [before] && front + [after] + back == front + [after];
      PendingPush(front, before, m, nowSec);
      PendingPush(front, after, m, nowSec);
    } else {
      var init, last := back[..|back| - 1], back[|back| - 1];
      assert front + [before] + back == front + [before] + init + [last];
      assert front + [after] + back == front + [after] + init + [last];
      SeenAdds(front, before, after, init, m, nowSec);
      PendingPush(front + [before] + init, last, m, nowSec);
      PendingPush(front + [after] + init, last, m, nowSec);
    }
  }

  /** Seeing an unstamped buy for the first time takes a slot and its worth from later signals, for
      fifteen minutes from the stamp. */
  lemma {:induction false} SightingReserves(st: State, n: nat, sec: int, u: Setup, nowSec: int)
    requires n < |st.orders|
    requires var o := st.orders[n].meta;
      && st.orders[n].known && o.status == "SUBMITTED" && o.side == "BUY" && o.firstSeen.None?
      && o.qty.Some? && o.price.Some?
    ensures var st', o := Step(st, Sighted(n, sec), u), st.orders[n].meta;
      var m := st.orders[n].market;
      if nowSec <= sec + 900 then
        && Reservations(st', m, nowSec) == Reservations(st, m, nowSec) + 1
        && Reserved(st', m, nowSec) == Reserved(st, m, nowSec) + o.qty.value * o.price.value
      else
        && Reservations(st', m, nowSec) == Reservations(st, m, nowSec)
        && Reserved(st', m, nowSec) == Reserved(st, m, nowSec)
  {
    hide Scan, PendingNotionals, Turn;
    var o, front, back := st.orders[n], st.orders[..n], st.orders[n + 1..];
    SeenAdds(front, o, Stamped(o, sec), back, o.market, nowSec);
    assert st.orders == front + [o] + back;
    assert st.orders[n := Stamped(o, sec)] == front + [Stamped(o, sec)] + back;
    SumAppend([], o.meta.qty.value * o.meta.price.value);
  }

  /** From signal to reserve: a buy the broker answers as submitted takes a slot and its cash once
      the watcher has stamped it. That is the signal's cash, in Korea short of less than one share. */
  lemma {:induction false} BuyReserves(st: State, e: Event, u: Setup, sec: int, nowSec: int)
    requires Orders(st, e, u) && e.s.direction.Long?
    requires e.env.reply.Replied? && e.env.reply.status == "SUBMITTED" && e.env.reply.written
    ensures var placed := Step(st, e, u);
      var m, before := e.s.market, Reserved(st, e.s.market, nowSec);
      && |placed.orders| > 0
      && var seen := Step(placed, Sighted(|placed.orders| - 1, sec), u);
      if nowSec <= sec + 900 then
        && Reservations(seen, m, nowSec) == Reservations(st, m, nowSec) + 1
        && Reserved(seen, m, nowSec) <= before + e.s.sizeCash
        && (m.KR? ==> Reserved(seen, m, nowSec) > before + e.s.sizeCash - e.s.price)
        && (!m.KR? ==> Reserved(seen, m, nowSec) == before + e.s.sizeCash)
      else
        Reservations(seen, m, nowSec) == Reservations(st, m, nowSec) && Reserved(seen, m, nowSec) == before
  {
    hide Turn, Scan, PendingNotionals, Spends;
    var placed := Step(st, e, u);
    OrderedTells(st, e.s, e.env, u);
    OwnOrdersAreInvisible(st, e, u, e.s.market, nowSec);
    var n := |placed.orders| - 1;
    SpendsNearly(e.s.market, placed.orders[n].meta.qty.value, e.s.price, e.s.sizeCash);
    SightingReserves(placed, n, sec, u, nowSec);
    hide Step;
  }

  lemma {:induction false} SpendsNearly(m: Market, qty: real, price: real, cash: real)
    requires Spends(m, qty, price, cash)
    ensures qty * price <= cash && if m.KR? then cash - price < qty * price else qty * price == cash
  {}

  /** An order that counted and gets its final status gives back its slot and its worth. */
  lemma {:induction false} SettlingFrees(st: State, n: nat, status: string, u: Setup, nowSec: int)
    requires n < |st.orders| && IsSeen(st.orders[n], nowSec) && status != "SUBMITTED"
    ensures var st', o, m := Step(st, Settle(n, status), u), st.orders[n].meta, st.orders[n].market;
      && Reservations(st', m, nowSec) == Reservations(st, m, nowSec) - 1
      && Reserved(st', m, nowSec) == Reserved(st, m, nowSec) - o.qty.value * o.price.value
  {
    hide Scan, PendingNotionals, Turn;
    var o, front, back := st.orders[n], st.orders[..n], st.orders[n + 1..];
    SeenAdds(front, Settled(o, status), o, back, o.market, nowSec);
    assert st.orders == front + [o] + back;
    assert st.orders[n := Settled(o, status)] == front + [Settled(o, status)] + back;
    SumAppend([], o.meta.qty.value * o.meta.price.value);
  }

  // ----- Positions ------------------------------------------------------------

  /** A quantity that comes on top of what is held. */
  ghost predicate Adds(before: Cell, qty: real, after: Cell) {
    after == Amount(if before.Amount? then before.value + qty else qty)
  }

  /** A booked buy becomes a position: it is in the index, its quantity comes on top of what is held,
      and while that is positive no entry in the symbol is ordered. */
  lemma {:induction false} BookedBuyBlocksEntry(st: State, n: nat, u: Setup, e: Event)
    requires n < |st.orders| && IsOutstanding(st.orders[n]) && st.orders[n].meta.qty.Some?
    requires e.Receive? && e.s.direction.Long?
    ensures var st', o := Step(st, Book(n), u), st.orders[n];
      var k := SymbolKey(o.market, o.meta.symbol);
      && st'.index == st.index + {k} && !IsOutstanding(st'.orders[n])
      && Adds(CellAt(st.facts.held, k), o.meta.qty.value, CellAt(st'.facts.held, k))
      && (SymbolOf(e.s) == k && CellAt(st'.facts.held, k).value > 0.0 ==> !Orders(st', e, u))
  {
    OrdersIff(Step(st, Book(n), u), e, u);
    hide Orders, Allowed, RiskPaused, PendingNotionals, Scan, OpenIn, CanBuild, ModeOf;
  }

  /** A position that comes in any other way takes a slot, and one that is closed gives it back; its
      symbol is then no longer held. */
  lemma {:induction false} PositionsTakeSlots(st: State, k: SymbolKey, qty: real, u: Setup)
    ensures var st' := Step(st, Adopt(k, qty), u);
      && OpenIn(st'.index, k.market) == OpenIn(st.index, k.market) + (if k in st.index then 0 else 1)
      && Adds(CellAt(st.facts.held, k), qty, CellAt(st'.facts.held, k))
    ensures var st' := Step(st, Close(k), u);
      && OpenIn(st'.index, k.market) == OpenIn(st.index, k.market) - (if k in st.index then 1 else 0)
      && NotHeld(st'.facts, k)
  {
    OpenInAdd(st.index, k, k.market);
    OpenInAdd(st.index - {k}, k, k.market);
    assert k in st.index ==> st.index - {k} + {k} == st.index;
    assert k !in st.index ==> st.index - {k} == st.index;
    hide OpenIn, Turn;
  }
}
