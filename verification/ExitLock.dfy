/** The exit lock shared by the polling runner and the websocket monitor, for one symbol.
    Both are sequences of single Redis commands and broker calls; any interleaving may occur,
    time may pass between any two commands, and either process may die at any point. */
module ExitLock {
  import opened Common

  const LOCK_TTL_MS := 60000

  datatype Who = Poll | Ws

  /** Where one monitor stands in its handling of the symbol. */
  datatype Pc =
    | Idle
    | SawLock                        // the lock exists; next: read the recorded exit order
    | SawOrder(order: nat)           // next: read that order's status
    | Unlocking                      // the order was canceled; next: delete the lock
    | Deciding                       // no lock seen; next: evaluate the rule, then try the lock
    | Critical(since: int)           // lock won; next: place the sell order
    | Placed(since: int, order: nat) // order accepted; next: record it
    | Recorded(since: int)           // next: finish
    | Failing(since: int)            // no order, as far as it knows; next: delete the lock

  /** The shared keys, both monitors, the clock, and the lock times of all sells so far. */
  datatype State = State(
    lock: Option<int>, exitOrder: Option<nat>, canceled: set<nat>, nextOrder: nat,
    poll: Pc, ws: Pc, now: int, sells: seq<int>)

  const START := State(None, None, {}, 0, Idle, Idle, 0, [])

  function PcOf(s: State, w: Who): Pc { if w.Poll? then s.poll else s.ws }

  function Other(w: Who): Who { if w.Poll? then Ws else Poll }

  function Go(s: State, w: Who, pc: Pc): State { if w.Poll? then s.(poll := pc) else s.(ws := pc) }

  predicate Locked(s: State) { s.lock.Some? && s.now < s.lock.value }

  /** What a command leaves open: whether the exit rule fires, and what becomes of an order.
      `Lost` is an order the broker took although the call raised, such as a timeout. */
  datatype Choice = Yes | No | Lost

  /** One command of one monitor, its death, the passing of time, or the cancellation of an
      order. */
  datatype Action = Act(who: Who, choice: Choice) | Die(who: Who) | Wait(ms: nat) | Cancel(order: nat)

  function Next(s: State, a: Action): State {
    match a
    case Wait(ms) => s.(now := s.now + ms)
    case Cancel(o) => if o < s.nextOrder then s.(canceled := s.canceled + {o}) else s
    case Die(w) => Go(s, w, Idle)
    case Act(w, choice) =>
      match PcOf(s, w)
      case Idle => Go(s, w, if Locked(s) then SawLock else Deciding)
      case SawLock => Go(s, w, if s.exitOrder.Some? then SawOrder(s.exitOrder.value) else Idle)
      case SawOrder(o) => Go(s, w, if o in s.canceled then Unlocking else Idle)
      case Unlocking => Go(s.(lock := None), w, Deciding)
      case Deciding =>
        if choice.No? || Locked(s) then Go(s, w, Idle)
        else Go(s.(lock := Some(s.now + LOCK_TTL_MS)), w, Critical(s.now))
      case Critical(at) =>
        if choice.No? then Go(s, w, Failing(at))
        else Go(s.(nextOrder := s.nextOrder + 1, sells := s.sells + [at]), w,
            if choice.Yes? then Placed(at, s.nextOrder) else Failing(at))
      case Placed(at, o) => Go(s.(exitOrder := Some(o)), w, Recorded(at))
      case Recorded(_) => Go(if w.Ws? then s.(exitOrder := None) else s, w, Idle)
      case Failing(_) => Go(s.(lock := None), w, Idle)
  }

  function Run(s: State, actions: seq<Action>): State
    decreases |actions|
  {
    if actions == [] then s else Run(Next(s, actions[0]), actions[1..])
  }

  // ----- One monitor by itself ------------------------------------------------

  /** `n` commands of one monitor in a row. */
  function Steps(s: State, w: Who, choice: Choice, n: nat): State
  {
    if n == 0 then s else Next(Steps(s, w, choice, n - 1), Act(w, choice))
  }

  lemma {:induction false} OneStep(s: State, w: Who, choice: Choice)
    ensures Steps(s, w, choice, 1) == Next(s, Act(w, choice))
  {
    assert Steps(s, w, choice, 0) == s;
    hide Next;
  }

  /** A monitor that finds no lock and a firing rule sells once and leaves the lock for a minute. The
      polling monitor also leaves the order's number behind, the other clears it. */
  lemma {:induction false} UndisturbedSale(s: State, w: Who)
    requires PcOf(s, w) == Idle && !Locked(s)
    ensures var done := Steps(s, w, Yes, 5);
      && PcOf(done, w) == Idle && PcOf(done, Other(w)) == PcOf(s, Other(w))
      && done.sells == s.sells + [s.now] && done.nextOrder == s.nextOrder + 1 && done.canceled == s.canceled
      && done.exitOrder == (match w case Poll => Some(s.nextOrder) case Ws => None)
      && (forall ms: nat :: Locked(Next(done, Wait(ms))) <==> ms < 60000)
  {
    OneStep(s, w, Yes);
    assert Steps(s, w, Yes, 1) == Go(s, w, Deciding);
    var won := Go(s.(lock := Some(s.now + 60000)), w, Critical(s.now));
    assert Steps(s, w, Yes, 2) == won;
    var placed := Go(won.(nextOrder := s.nextOrder + 1, sells := s.sells + [s.now]), w, Placed(s.now, s.nextOrder));
    assert Steps(s, w, Yes, 3) == placed;
    assert Steps(s, w, Yes, 4) == Go(placed.(exitOrder := Some(s.nextOrder)), w, Recorded(s.now));
  }

  /** A monitor whose rule does not fire changes nothing, and one whose order is refused only frees
      the lock again. */
  lemma {:induction false} NoSale(s: State, w: Who)
    requires PcOf(s, w) == Idle && !Locked(s)
    ensures Steps(s, w, No, 2) == s
    ensures Next(Next(Steps(s, w, Yes, 2), Act(w, No)), Act(w, No)) == s.(lock := None)
  {
    OneStep(s, w, No);
    OneStep(s, w, Yes);
    assert Next(s, Act(w, No)) == Next(s, Act(w, Yes)) == Go(s, w, Deciding);
    assert Steps(s, w, Yes, 2) == Go(s.(lock := Some(s.now + 60000)), w, Critical(s.now));
  }

  /** A monitor that finds the lock leaves everything as it is, unless the exit order on record was
      canceled: then it deletes the lock and goes on to its rule. */
  lemma {:induction false} LockedMonitor(s: State, w: Who, choice: Choice)
    requires PcOf(s, w) == Idle && Locked(s)
    ensures s.exitOrder.None? ==> Steps(s, w, choice, 2) == s
    ensures s.exitOrder.Some? && s.exitOrder.value !in s.canceled ==> Steps(s, w, choice, 3) == s
    ensures s.exitOrder.Some? && s.exitOrder.value in s.canceled ==>
      Steps(s, w, choice, 4) == Go(s.(lock := None), w, Deciding)
  {
    OneStep(s, w, choice);
    assert Steps(s, w, choice, 1) == Go(s, w, SawLock);
    if s.exitOrder.Some? {
      assert Steps(s, w, choice, 2) == Go(s, w, SawOrder(s.exitOrder.value));
      assert s.exitOrder.value in s.canceled ==> Steps(s, w, choice, 3) == Go(s, w, Unlocking);
    }
  }

  // ----- Safety ---------------------------------------------------------------

  predicate InSection(pc: Pc) { pc.Critical? || pc.Placed? || pc.Recorded? || pc.Failing? }

  ghost predicate Spaced(times: seq<int>) {
    forall i, j :: 0 <= i < j < |times| ==> times[i] + LOCK_TTL_MS <= times[j]
  }

  /** At most one monitor is between winning the lock and finishing its order, and the locks
      that led to sells are a full lock lifetime apart. */
  ghost predicate Safe(s: State) { !(InSection(s.poll) && InSection(s.ws)) && Spaced(s.sells) }

  /** Nobody has been inside its section for as long as the lock lives. */
  predicate Prompt(s: State) {
    && (InSection(s.poll) ==> s.now < s.poll.since + LOCK_TTL_MS)
    && (InSection(s.ws) ==> s.now < s.ws.since + LOCK_TTL_MS)
  }

  /** The order is recorded as the exit order, about to be, or being looked up. */
  predicate Referred(s: State, o: nat) { s.exitOrder == Some(o) || PcRefers(s.poll, o) || PcRefers(s.ws, o) }

  predicate PcRefers(pc: Pc, o: nat) { (pc.SawOrder? || pc.Placed?) && pc.order == o }

  /** The broker's reply arrives, no order in use is canceled, and no section outlives the
      lock. */
  predicate Tame(s: State, a: Action) {
    match a
    case Act(w, choice) => !(choice.Lost? && PcOf(s, w).Critical?)
    case Die(_) => true
    case Wait(ms) => Prompt(Next(s, a))
    case Cancel(o) => o < s.nextOrder ==> !Referred(s, o)
  }

  predicate TameRun(s: State, actions: seq<Action>)
    decreases |actions|
  {
    actions != [] ==> Tame(s, actions[0]) && TameRun(Next(s, actions[0]), actions[1..])
  }

  /** Some tame continuation ends in an unsafe state. */
  ghost predicate Doomed(s: State) {
    exists actions :: TameRun(s, actions) && !Safe(Run(s, actions))
  }

  // ----- Tame steps keep the invariant ----------------------------------------

  /** What holds for a monitor inside its section: it owns the lock, the other is outside,
      and its sell, if placed, is the latest. */
  predicate Owns(s: State, w: Who) {
    var pc := PcOf(s, w);
    InSection(pc) ==>
      && s.lock == Some(pc.since + LOCK_TTL_MS) && !InSection(PcOf(s, Other(w)))
      && (if pc.Placed? || pc.Recorded?
          then s.sells != [] && s.sells[|s.sells| - 1] == pc.since
          else s.sells == [] || s.sells[|s.sells| - 1] + LOCK_TTL_MS <= pc.since)
  }

  predicate PcIntact(s: State, pc: Pc) {
    !pc.Unlocking? && ((pc.SawOrder? || pc.Placed?) ==> pc.order < s.nextOrder && pc.order !in s.canceled)
  }

  /** Every order in use exists and is not canceled. */
  ghost predicate OrdersIntact(s: State) {
    && (forall o :: o in s.canceled ==> o < s.nextOrder)
    && (s.exitOrder.Some? ==> s.exitOrder.value < s.nextOrder && s.exitOrder.value !in s.canceled)
    && PcIntact(s, s.poll) && PcIntact(s, s.ws)
  }

  ghost predicate Inv(s: State) {
    && Prompt(s) && OrdersIntact(s)
    && Owns(s, Poll) && Owns(s, Ws)
    && Spaced(s.sells)
    && (s.lock.Some? ==> s.lock.value <= s.now + LOCK_TTL_MS)
    && (s.sells == [] || s.now >= s.sells[|s.sells| - 1] + LOCK_TTL_MS
        || s.lock == Some(s.sells[|s.sells| - 1] + LOCK_TTL_MS))
  }

  lemma {:induction false} ActKeepsOrders(s: State, w: Who, choice: Choice)
    requires OrdersIntact(s)
    ensures OrdersIntact(Next(s, Act(w, choice)))
  {
    assert PcIntact(s, PcOf(s, w));
  }

  /** Outside its section a monitor never touches a lock that is alive. */
  lemma {:induction false} OutsideKeepsInv(s: State, w: Who, choice: Choice)
    requires Inv(s) && !InSection(PcOf(s, w))
    ensures Inv(Next(s, Act(w, choice)))
  {
    ActKeepsOrders(s, w, choice);
    assert Owns(s, w) && Owns(s, Other(w)) && PcIntact(s, PcOf(s, w));
    hide Spaced, OrdersIntact;
  }

  /** Inside, it is alone and the lock is its own to delete. */
  lemma {:induction false} InsideKeepsInv(s: State, w: Who, choice: Choice)
    requires Inv(s) && InSection(PcOf(s, w)) && Tame(s, Act(w, choice))
    ensures Inv(Next(s, Act(w, choice)))
  {
    ActKeepsOrders(s, w, choice);
    assert Owns(s, w) && !InSection(PcOf(s, Other(w)));
    var pc := PcOf(s, w);
    if pc.Critical? {
      SpacedAppend(s.sells, pc.since);
    }
    hide Spaced, OrdersIntact;
  }

  lemma {:induction false} SpacedAppend(times: seq<int>, t: int)
    requires Spaced(times) && (times == [] || times[|times| - 1] + LOCK_TTL_MS <= t)
    ensures Spaced(times + [t])
  {}

  lemma {:induction false} NextKeepsInv(s: State, a: Action)
    requires Inv(s) && Tame(s, a)
    ensures Inv(Next(s, a))
  {
    match a
    case Act(w, choice) =>
      if InSection(PcOf(s, w)) {
        InsideKeepsInv(s, w, choice);
      } else {
        OutsideKeepsInv(s, w, choice);
      }
    case Die(w) =>
    case Wait(ms) =>
    case Cancel(o) =>
      hide Spaced;
  }

  lemma {:induction false} InvIsSafe(s: State, actions: seq<Action>)
    requires Inv(s) && TameRun(s, actions)
    ensures Inv(Run(s, actions)) && Safe(Run(s, actions))
    decreases |actions|
  {
    if actions == [] {
      assert Owns(s, Poll);
    } else {
      NextKeepsInv(s, actions[0]);
      InvIsSafe(Next(s, actions[0]), actions[1..]);
    }
  }

  // ----- Every other step opens a way to an unsafe state ----------------------

  lemma {:induction false} DoomedBefore(s: State, a: Action)
    requires Tame(s, a) && Doomed(Next(s, a))
    ensures Doomed(s)
  {
    var rest :| TameRun(Next(s, a), rest) && !Safe(Run(Next(s, a), rest));
    var actions := [a] + rest;
    assert actions[0] == a && actions[1..] == rest;
    hide Next, Tame, Safe;
    assert TameRun(s, actions) && Run(s, actions) == Run(Next(s, a), rest);
  }

  lemma {:induction false} UnsafeIsDoomed(s: State)
    requires !Safe(s)
    ensures Doomed(s)
  {
    assert TameRun(s, []) && Run(s, []) == s;
  }

  /** While one monitor is inside, the other, about to delete the lock, gets in too. */
  lemma {:induction false} DeletingLetsIn(s: State, x: Who)
    requires InSection(PcOf(s, Other(x))) && PcOf(s, x) == Unlocking
    ensures Doomed(s)
  {
    var act := Act(x, Yes);
    var end := Next(Next(s, act), act);
    assert PcOf(end, x) == Critical(s.now) && PcOf(end, Other(x)) == PcOf(s, Other(x));
    UnsafeIsDoomed(end);
    DoomedBefore(Next(s, act), act);
    DoomedBefore(s, act);
  }

  function StepsToEnter(pc: Pc): nat {
    match pc
    case Idle => 2
    case SawLock => 4
    case SawOrder(_) => 3
    case Unlocking => 2
    case Deciding => 1
    case _ => 0
  }

  /** While one monitor is inside and the lock is gone, the other gets in too. */
  lemma {:induction false} NoLockLetsIn(s: State, x: Who)
    requires InSection(PcOf(s, Other(x))) && !InSection(PcOf(s, x)) && !Locked(s)
    ensures Doomed(s)
    decreases StepsToEnter(PcOf(s, x))
  {
    var act := Act(x, Yes);
    var next := Next(s, act);
    hide Doomed;
    if PcOf(s, x) == Deciding {
      UnsafeIsDoomed(next);
    } else {
      NoLockLetsIn(next, x);
    }
    DoomedBefore(s, act);
  }

  function StepsToUnlock(s: State, pc: Pc): nat {
    match pc
    case Unlocking => 0
    case SawOrder(o) => if o in s.canceled then 1 else 4
    case SawLock => 2
    case Idle => 3
    case Deciding => 4
    case _ => 0
  }

  /** While one monitor is inside and the recorded exit order is a canceled one, the other
      finds it, deletes the lock and gets in too. */
  lemma {:induction false} CanceledLetsIn(s: State, x: Who)
    requires InSection(PcOf(s, Other(x))) && !InSection(PcOf(s, x)) && Locked(s)
    requires s.exitOrder.Some? && s.exitOrder.value in s.canceled
    ensures Doomed(s)
    decreases StepsToUnlock(s, PcOf(s, x))
  {
    if PcOf(s, x) == Unlocking {
      DeletingLetsIn(s, x);
    } else {
      var act := Act(x, No);
      hide Doomed;
      CanceledLetsIn(Next(s, act), x);
      DoomedBefore(s, act);
    }
  }

  /** A monitor that will delete the lock, now or on finding a canceled order. */
  predicate WillDelete(s: State, x: Who) {
    PcOf(s, x) == Unlocking || (s.exitOrder.Some? && s.exitOrder.value in s.canceled)
  }

  /** With nobody inside and no lock, the other monitor wins the lock first. */
  lemma {:induction false} WinnerIsJoined(s: State, x: Who)
    requires !InSection(s.poll) && !InSection(s.ws) && !Locked(s) && WillDelete(s, x)
    ensures Doomed(s)
    decreases StepsToEnter(PcOf(s, Other(x)))
  {
    var act := Act(Other(x), Yes);
    var next := Next(s, act);
    hide Doomed;
    if PcOf(s, Other(x)) != Deciding {
      WinnerIsJoined(next, x);
    } else if PcOf(s, x) == Unlocking {
      DeletingLetsIn(next, x);
    } else {
      CanceledLetsIn(next, x);
    }
    DoomedBefore(s, act);
  }

  /** The same from any state with a well-kept lock: if nobody is inside, wait it out. */
  lemma {:induction false} CanceledDooms(s: State, x: Who)
    requires Prompt(s) && Owns(s, Poll) && Owns(s, Ws) && (s.lock.Some? ==> s.lock.value <= s.now + LOCK_TTL_MS)
    requires WillDelete(s, x) && !InSection(PcOf(s, x))
    ensures Doomed(s)
  {
    hide Doomed;
    if InSection(PcOf(s, Other(x))) {
      if PcOf(s, x) == Unlocking {
        DeletingLetsIn(s, x);
      } else {
        CanceledLetsIn(s, x);
      }
    } else {
      WinnerIsJoined(Next(s, Wait(LOCK_TTL_MS)), x);
      DoomedBefore(s, Wait(LOCK_TTL_MS));
    }
  }

  lemma {:induction false} OverdueDooms(s: State, ms: nat)
    requires Inv(s) && !Tame(s, Wait(ms))
    ensures Doomed(Next(s, Wait(ms)))
  {
    var w := if InSection(s.poll) then Poll else Ws;
    assert Owns(s, w);
    hide Doomed;
    NoLockLetsIn(Next(s, Wait(ms)), Other(w));
  }

  lemma {:induction false} CancelDooms(s: State, o: nat)
    requires Inv(s) && !Tame(s, Cancel(o))
    ensures Doomed(Next(s, Cancel(o)))
  {
    var s' := Next(s, Cancel(o));
    hide Doomed, Spaced;
    if s.exitOrder == Some(o) {
      CanceledDooms(s', if InSection(s.poll) then Ws else Poll);
    } else {
      var w := if PcRefers(s.poll, o) then Poll else Ws;
      var act := Act(w, Yes);
      CanceledDooms(Next(s', act), if PcOf(s, w).Placed? then Other(w) else w);
      DoomedBefore(s', act);
    }
  }

  /** After a lost reply the lock is deleted, won again and sold under a second time. */
  lemma {:induction false} LostReplyDooms(s: State, w: Who)
    requires Inv(s) && PcOf(s, w).Critical?
    ensures Doomed(Next(s, Act(w, Lost)))
  {
    var at, act := PcOf(s, w).since, Act(w, Yes);
    var failing := Next(s, Act(w, Lost));
    var idle := Next(failing, act);
    var deciding := Next(idle, act);
    var critical := Next(deciding, act);
    var sold := Next(critical, act);
    assert sold.sells == s.sells + [at] + [s.now];
    assert !Spaced(sold.sells) by {
      assert sold.sells[|s.sells|] == at && sold.sells[|s.sells| + 1] == s.now;
    }
    UnsafeIsDoomed(sold);
    hide Doomed, Spaced;
    DoomedBefore(critical, act);
    DoomedBefore(deciding, act);
    DoomedBefore(idle, act);
    DoomedBefore(failing, act);
  }

  /** One step from a state in good order leaves every tame future safe exactly when the
      step is tame. */
  lemma {:induction false} DoomedIffNotTame(s: State, a: Action)
    requires Inv(s)
    ensures Doomed(Next(s, a)) <==> !Tame(s, a)
  {
    if Tame(s, a) {
      NextKeepsInv(s, a);
      hide Inv, Safe;
      forall actions | TameRun(Next(s, a), actions) ensures Safe(Run(Next(s, a), actions)) {
        InvIsSafe(Next(s, a), actions);
      }
    } else {
      hide Doomed, Inv;
      match a
      case Act(w, choice) => LostReplyDooms(s, w);
      case Wait(ms) => OverdueDooms(s, ms);
      case Cancel(o) => CancelDooms(s, o);
    }
  }

  // ----- Whole runs -----------------------------------------------------------

  /** Every state of the run has only safe tame futures. */
  ghost predicate NeverDoomed(s: State, actions: seq<Action>)
    decreases |actions|
  {
    !Doomed(s) && (actions != [] ==> NeverDoomed(Next(s, actions[0]), actions[1..]))
  }

  lemma {:induction false} NeverDoomedIffTame(s: State, actions: seq<Action>)
    requires Inv(s)
    ensures NeverDoomed(s, actions) <==> TameRun(s, actions)
    decreases |actions|
  {
    forall more | TameRun(s, more) ensures Safe(Run(s, more)) {
      InvIsSafe(s, more);
    }
    hide Inv, Safe, Tame, Next;
    assert !Doomed(s);
    hide Doomed;
    if actions == [] {
    } else {
      DoomedIffNotTame(s, actions[0]);
      if Tame(s, actions[0]) {
        NextKeepsInv(s, actions[0]);
        NeverDoomedIffTame(Next(s, actions[0]), actions[1..]);
      }
    }
  }

  /** Over every interleaving from the start: the lock keeps its promise, now and in every
      tame future, exactly as long as no reply of an accepted order is lost, no order in use
      is canceled and no section outlives the lock. */
  lemma {:induction false} ExitLockIsSafeIff(actions: seq<Action>)
    ensures NeverDoomed(START, actions) <==> TameRun(START, actions)
    ensures TameRun(START, actions) ==> Safe(Run(START, actions))
  {
    NeverDoomedIffTame(START, actions);
    if TameRun(START, actions) {
      InvIsSafe(START, actions);
    }
  }

  const ACT := Act(Poll, Yes)

  /** The lock is won, the order is sold and its reply is lost. */
  const SOLD_UNKNOWN := State(Some(LOCK_TTL_MS), None, {}, 1, Failing(0), Idle, 0, [0])

  lemma {:induction false} RunFirst(s: State, a: Action, rest: seq<Action>)
    ensures Run(s, [a] + rest) == Run(Next(s, a), rest)
  {
    assert ([a] + rest)[1..] == rest;
  }

  lemma {:induction false} WinAndLoseReply(rest: seq<Action>)
    ensures Run(START, [ACT] + ([ACT] + ([Act(Poll, Lost)] + rest))) == Run(SOLD_UNKNOWN, rest)
  {
    var lost, deciding := Act(Poll, Lost), START.(poll := Deciding);
    var critical := Next(deciding, ACT);
    assert Next(START, ACT) == deciding && Next(critical, lost) == SOLD_UNKNOWN by { assert [] + [0] == [0]; }
    RunFirst(START, ACT, [ACT] + ([lost] + rest));
    RunFirst(deciding, ACT, [lost] + rest);
    RunFirst(critical, lost, rest);
    hide Run, Next;
  }

  lemma {:induction false} SellAgain()
    ensures !Safe(Run(SOLD_UNKNOWN, [ACT] + ([ACT] + ([ACT] + ([ACT] + [])))))
  {
    var idle := SOLD_UNKNOWN.(lock := None, poll := Idle);
    var deciding, critical := idle.(poll := Deciding), SOLD_UNKNOWN.(poll := Critical(0));
    var sold := critical.(nextOrder := 2, sells := [0] + [0], poll := Placed(0, 1));
    assert Next(SOLD_UNKNOWN, ACT) == idle && Next(idle, ACT) == deciding;
    assert Next(deciding, ACT) == critical && Next(critical, ACT) == sold;
    assert sold.sells[0] + LOCK_TTL_MS > sold.sells[1];
    RunFirst(SOLD_UNKNOWN, ACT, [ACT] + ([ACT] + ([ACT] + [])));
    RunFirst(idle, ACT, [ACT] + ([ACT] + []));
    RunFirst(deciding, ACT, [ACT] + []);
    RunFirst(critical, ACT, []);
    assert Run(sold, []) == sold;
    hide Run, Next;
  }

  /** From the start: the polling runner wins the lock and sells, but the reply is lost; it
      deletes the lock and sells again at once. */
  lemma {:induction false} LostReplySellsTwice()
    ensures !Safe(Run(START, [ACT] + ([ACT] + ([Act(Poll, Lost)] + ([ACT] + ([ACT] + ([ACT] + ([ACT] + []))))))))
  {
    WinAndLoseReply([ACT] + ([ACT] + ([ACT] + ([ACT] + []))));
    SellAgain();
    hide Run, Safe;
  }
}
