/** The position-engine worker: pop a fill, apply it, and on an exception retry it or give
    it up. No payload is ever lost or handled twice, and a queue that is no longer fed drains. */
module Worker {
  import opened Common
  import opened Domain
  import opened FillLedger
  import opened Repository

  const MAX_RETRY := 5

  /** A payload as the outside world knows it, whatever its retry count. */
  datatype Ticket = FillTicket(fill: Fill) | RawTicket(raw: string)

  function TicketOf(p: Payload): Ticket {
    match p
    case Queued(f) => FillTicket(f.(retry := 0))
    case Garbled(raw) => RawTicket(raw)
  }

  function DeadTicket(e: DlqEntry): Ticket {
    match e
    case Failed(f, _) => FillTicket(f.(retry := 0))
    case Unparsed(raw) => RawTicket(raw)
  }

  datatype Disposition = Done | Repeated | DeadLettered | Requeued

  /** The worker's state: the ledger, the queue (popped from the right) and its counters. */
  datatype State = State(ledger: Ledger, queue: seq<Payload>, processed: nat, requeued: nat, dlqed: nat)

  /** Where an exception strikes a turn: inside `apply_fill`, or behind the counter, in the
      symbol set or the streak update. */
  datatype Trouble = Within(fault: Fault) | Behind

  function FaultOf(t: Trouble): Fault { if t.Within? then t.fault else NoFault }

  /** The worker counts a fill before it is quite done with it, and it takes a repeated BUY
      for an applied one. */
  predicate Counts(f: Fill, out: Outcome) { out.Applied? || (out.Duplicate? && f.side.Buy?) }

  predicate Raises(f: Fill, out: Outcome, t: Trouble) { out.Raised? || (t.Behind? && Counts(f, out)) }

  /** The exception handler: dead-letter list or back into the queue. */
  ghost function Recover(s: State, f: Fill): (State, Disposition) {
    if f.retry >= MAX_RETRY then
      (s.(ledger := Step(s.ledger, DeadLetterEvent(Failed(f, RetriesExhausted))), dlqed := s.dlqed + 1), DeadLettered)
    else
      (s.(queue := [Queued(f.(retry := f.retry + 1))] + s.queue, requeued := s.requeued + 1), Requeued)
  }

  /** What becomes of one popped fill. Only exhausted retries count as dead letters. */
  ghost function Handle(s: State, f: Fill, t: Trouble): (State, Disposition) {
    var (l, out) := ApplyFill(s.ledger, f, FaultOf(t));
    var counted := s.(ledger := l, processed := if Counts(f, out) then s.processed + 1 else s.processed);
    if Raises(f, out, t) then Recover(counted, f)
    else (counted, if out.Applied? then Done else if out.Duplicate? then Repeated else DeadLettered)
  }

  /** One turn of the loop on a queue that is not empty. */
  ghost function Turn(s: State, t: Trouble): (State, Disposition)
    requires s.queue != []
  {
    var e, rest := s.queue[|s.queue| - 1], s.(queue := s.queue[..|s.queue| - 1]);
    match e
    case Queued(f) => Handle(rest, f, t)
    case Garbled(raw) => (rest.(ledger := Step(s.ledger, DeadLetterEvent(Unparsed(raw)))), DeadLettered)
  }

  /** The turn's fill is booked, but the turn raises behind it. */
  ghost predicate BookedLate(s: State, t: Trouble)
    requires s.queue != []
  {
    var e := s.queue[|s.queue| - 1];
    e.Queued? && t.Behind? && ApplyFill(s.ledger, e.fill, NoFault).1.Applied?
  }

  // ----- Disposition ----------------------------------------------------------

  datatype Action = Push(payload: Payload) | Work(trouble: Trouble)

  /** How the run disposed of payloads, by ticket; `late` are those booked in a turn that
      raised, whatever the turn then did with them. */
  datatype Tally = Tally(
    pushed: multiset<Ticket>, done: multiset<Ticket>, repeated: multiset<Ticket>, dead: multiset<Ticket>,
    late: multiset<Ticket>)

  const NO_TALLY := Tally(multiset{}, multiset{}, multiset{}, multiset{}, multiset{})

  ghost function Count(t: Tally, ticket: Ticket, d: Disposition): Tally {
    match d
    case Done => t.(done := t.done + multiset{ticket})
    case Repeated => t.(repeated := t.repeated + multiset{ticket})
    case DeadLettered => t.(dead := t.dead + multiset{ticket})
    case Requeued => t
  }

  ghost function Late(t: Tally, ticket: Ticket, late: bool): Tally {
    if late then t.(late := t.late + multiset{ticket}) else t
  }

  ghost function Act(s: State, t: Tally, a: Action): (State, Tally) {
    match a
    case Push(p) => (s.(queue := [p] + s.queue), t.(pushed := t.pushed + multiset{TicketOf(p)}))
    case Work(trouble) =>
      if s.queue == [] then (s, t)
      else
        var ticket, (s', d) := TicketOf(s.queue[|s.queue| - 1]), Turn(s, trouble);
        (s', Late(Count(t, ticket, d), ticket, BookedLate(s, trouble)))
  }

  ghost function Acts(s: State, actions: seq<Action>): (State, Tally) {
    if actions == [] then (s, NO_TALLY)
    else
      var (s', t) := Acts(s, actions[..|actions| - 1]);
      Act(s', t, actions[|actions| - 1])
  }

  ghost function Tickets(queue: seq<Payload>): multiset<Ticket> {
    if queue == [] then multiset{} else Tickets(queue[..|queue| - 1]) + multiset{TicketOf(queue[|queue| - 1])}
  }

  ghost function DeadTickets(dlq: seq<DlqEntry>): multiset<Ticket> {
    if dlq == [] then multiset{} else multiset{DeadTicket(dlq[0])} + DeadTickets(dlq[1..])
  }

  /** How often ticket `x` stands in one place: one or nothing. */
  function One(t: Ticket, x: Ticket): nat { if t == x then 1 else 0 }

  lemma {:induction false} TicketsPush(p: Payload, queue: seq<Payload>, x: Ticket)
    ensures Tickets([p] + queue)[x] == One(TicketOf(p), x) + Tickets(queue)[x]
  {
    hide TicketOf;
    if queue == [] {
      assert ([p] + queue)[..0] == [];
    } else {
      assert ([p] + queue)[..|queue|] == [p] + queue[..|queue| - 1];
      TicketsPush(p, queue[..|queue| - 1], x);
    }
  }

  lemma {:induction false} TicketsPop(queue: seq<Payload>, x: Ticket)
    requires queue != []
    ensures Tickets(queue)[x] == One(TicketOf(queue[|queue| - 1]), x) + Tickets(queue[..|queue| - 1])[x]
  {}

  lemma {:induction false} DeadPush(e: DlqEntry, dlq: seq<DlqEntry>, x: Ticket)
    ensures DeadTickets([e] + dlq)[x] == One(DeadTicket(e), x) + DeadTickets(dlq)[x]
  {
    assert ([e] + dlq)[1..] == dlq;
  }

  lemma {:induction false} DlqOfApply(l: Ledger, f: Fill, fault: Fault)
    ensures ApplyFill(l, f, fault).0.dlq
         == if ApplyFill(l, f, fault).1.NoPosition? then [Failed(f, SellWithoutPosition)] + l.dlq else l.dlq
  {}

  /** Neither a retry nor a dead letter forgets which fill it stands for. */
  lemma {:induction false} TicketKept(f: Fill, n: int, reason: Reason)
    ensures TicketOf(Queued(f.(retry := n))) == DeadTicket(Failed(f, reason)) == TicketOf(Queued(f))
  {}

  lemma {:induction false} HandleQueue(s: State, f: Fill, t: Trouble, x: Ticket)
    ensures var (s', d) := Handle(s, f, t);
      Tickets(s'.queue)[x] == Tickets(s.queue)[x] + (if d.Requeued? then One(TicketOf(Queued(f)), x) else 0)
  {
    hide ApplyFill, TicketOf, Tickets, One;
    TicketKept(f, f.retry + 1, RetriesExhausted);
    TicketsPush(Queued(f.(retry := f.retry + 1)), s.queue, x);
  }

  lemma {:induction false} HandleDlq(s: State, f: Fill, t: Trouble, x: Ticket)
    ensures var (s', d) := Handle(s, f, t);
      DeadTickets(s'.ledger.dlq)[x]
        == DeadTickets(s.ledger.dlq)[x] + (if d.DeadLettered? then One(TicketOf(Queued(f)), x) else 0)
  {
    hide ApplyFill, TicketOf, DeadTicket, DeadTickets, One;
    DlqOfApply(s.ledger, f, FaultOf(t));
    TicketKept(f, f.retry, SellWithoutPosition);
    TicketKept(f, f.retry, RetriesExhausted);
    DeadPush(Failed(f, SellWithoutPosition), s.ledger.dlq, x);
    DeadPush(Failed(f, RetriesExhausted), s.ledger.dlq, x);
  }

  /** One turn moves the popped ticket to its one place. */
  lemma {:induction false} TurnDisposes(s: State, t: Trouble, x: Ticket)
    requires s.queue != []
    ensures var (s', d) := Turn(s, t);
      var popped := One(TicketOf(s.queue[|s.queue| - 1]), x);
      && Tickets(s'.queue)[x] + (if d.Requeued? then 0 else popped) == Tickets(s.queue)[x]
      && DeadTickets(s'.ledger.dlq)[x] == DeadTickets(s.ledger.dlq)[x] + (if d.DeadLettered? then popped else 0)
  {
    var e, rest := s.queue[|s.queue| - 1], s.(queue := s.queue[..|s.queue| - 1]);
    TicketsPop(s.queue, x);
    match e
    case Queued(f) =>
      HandleQueue(rest, f, t, x);
      HandleDlq(rest, f, t, x);
      hide Handle;
    case Garbled(raw) => DeadPush(Unparsed(raw), s.ledger.dlq, x);
  }

  /** The three final fates of ticket `x`, added up. */
  ghost function Settled(t: Tally, x: Ticket): nat { t.done[x] + t.repeated[x] + t.dead[x] }

  lemma {:induction false} CountSettles(t: Tally, ticket: Ticket, d: Disposition, x: Ticket)
    ensures var t' := Count(t, ticket, d);
      && Settled(t', x) == Settled(t, x) + (if d.Requeued? then 0 else One(ticket, x))
      && t'.dead[x] == t.dead[x] + (if d.DeadLettered? then One(ticket, x) else 0)
      && t'.pushed == t.pushed
  {}

  lemma {:induction false} ActDisposes(s: State, t: Tally, a: Action, x: Ticket)
    ensures var (s', t') := Act(s, t, a);
      && Tickets(s'.queue)[x] + Settled(t', x) + t.pushed[x] == Tickets(s.queue)[x] + Settled(t, x) + t'.pushed[x]
      && DeadTickets(s'.ledger.dlq)[x] + t.dead[x] == DeadTickets(s.ledger.dlq)[x] + t'.dead[x]
  {
    hide Turn, Count, BookedLate, Tickets, DeadTickets, TicketOf;
    match a
    case Push(p) => TicketsPush(p, s.queue, x);
    case Work(trouble) =>
      if s.queue != [] {
        TurnDisposes(s, trouble, x);
        CountSettles(t, TicketOf(s.queue[|s.queue| - 1]), Turn(s, trouble).1, x);
      }
  }

  /** Every payload has exactly one fate: over any run and for every ticket, what was queued
      or pushed is what is still queued plus what was applied, skipped as a repeat, or
      dead-lettered; and the dead-letter list grew by exactly the dead-lettered payloads. */
  lemma {:induction false} WorkerConservation(s: State, actions: seq<Action>, x: Ticket)
    ensures var (s', t) := Acts(s, actions);
      && Tickets(s.queue)[x] + t.pushed[x] == Tickets(s'.queue)[x] + Settled(t, x)
      && DeadTickets(s'.ledger.dlq)[x] == DeadTickets(s.ledger.dlq)[x] + t.dead[x]
  {
    if actions == [] {
    } else {
      var front := actions[..|actions| - 1];
      WorkerConservation(s, front, x);
      ActDisposes(Acts(s, front).0, Acts(s, front).1, actions[|actions| - 1], x);
      hide Act;
    }
  }

  /** What a call that ends normally says about the trade id. */
  lemma {:induction false} OutcomeTellsId(l: Ledger, f: Fill, fault: Fault)
    ensures var (l', out) := ApplyFill(l, f, fault);
      && l.journal.dedupe <= l'.journal.dedupe
      && (out.Applied? ==> TradeKeyOf(f) !in l.journal.dedupe && TradeKeyOf(f) in l'.journal.dedupe)
      && (out.Duplicate? ==> TradeKeyOf(f) in l.journal.dedupe)
  {}

  lemma {:induction false} TurnTellsId(s: State, t: Trouble)
    requires s.queue != []
    ensures var (s', d) := Turn(s, t);
      var ticket := TicketOf(s.queue[|s.queue| - 1]);
      && s.ledger.journal.dedupe <= s'.ledger.journal.dedupe
      && (d.Done? ==> !BookedLate(s, t))
      && (d.Done? || BookedLate(s, t) ==> ticket.FillTicket? && TradeKeyOf(ticket.fill) !in s.ledger.journal.dedupe)
      && (d.Done? || BookedLate(s, t) || d.Repeated? ==>
          ticket.FillTicket? && TradeKeyOf(ticket.fill) in s'.ledger.journal.dedupe)
  {
    var e := s.queue[|s.queue| - 1];
    if e.Queued? {
      OutcomeTellsId(s.ledger, e.fill, FaultOf(t));
      hide ApplyFill;
    }
  }

  /** A payload pushed any number of times is booked at most once, in a turn that ends well
      or in one that raises late; and whenever the worker reports one applied or repeated,
      its trade id is on file. */
  lemma {:induction false} AppliedAtMostOnce(s: State, actions: seq<Action>, x: Ticket)
    ensures var (s', t) := Acts(s, actions);
      && t.done[x] + t.late[x] <= 1
      && s.ledger.journal.dedupe <= s'.ledger.journal.dedupe
      && (t.done[x] + t.late[x] + t.repeated[x] > 0 ==> x.FillTicket? && TradeKeyOf(x.fill) in s'.ledger.journal.dedupe)
  {
    if actions == [] {
    } else {
      var front, a := actions[..|actions| - 1], actions[|actions| - 1];
      AppliedAtMostOnce(s, front, x);
      var mid := Acts(s, front).0;
      if a.Work? && mid.queue != [] {
        TurnTellsId(mid, a.trouble);
        hide Turn, BookedLate, TicketOf;
      } else {
        assert Acts(s, actions).1.(pushed := multiset{}) == Acts(s, front).1.(pushed := multiset{});
      }
    }
  }

  /** Whether a fill ends up among the dead letters although it was booked in that turn. */
  lemma {:induction false} BookedAndDeadIff(s: State, f: Fill, t: Trouble)
    ensures var booked := ApplyFill(s.ledger, f, FaultOf(t)).1.Applied?;
      booked && Handle(s, f, t).1.DeadLettered? <==> t.Behind? && f.retry >= MAX_RETRY && Books(s.ledger, f, NoFault)
  {}

  // ----- Termination ----------------------------------------------------------

  /** Retries a payload may still use up; a fill may arrive with any retry count. */
  function Weight(p: Payload): nat {
    if p.Queued? && p.fill.retry < MAX_RETRY then MAX_RETRY + 1 - p.fill.retry else 1
  }

  function Load(queue: seq<Payload>): nat {
    if queue == [] then 0 else Load(queue[..|queue| - 1]) + Weight(queue[|queue| - 1])
  }

  lemma {:induction false} LoadPush(p: Payload, queue: seq<Payload>)
    ensures Load([p] + queue) == Weight(p) + Load(queue)
  {
    if queue == [] {
      assert ([p] + queue)[..0] == [];
    } else {
      assert ([p] + queue)[..|queue|] == [p] + queue[..|queue| - 1];
      LoadPush(p, queue[..|queue| - 1]);
    }
  }

  /** Every turn uses up load, even when the fill goes back into the queue. */
  lemma {:induction false} TurnDrains(s: State, t: Trouble)
    requires s.queue != []
    ensures Load(Turn(s, t).0.queue) < Load(s.queue)
  {
    var e, rest := s.queue[|s.queue| - 1], s.queue[..|s.queue| - 1];
    if e.Queued? {
      LoadPush(Queued(e.fill.(retry := e.fill.retry + 1)), rest);
    }
  }

  // ----- The ledger under the worker ------------------------------------------

  /** The ledger events the worker's actions amount to. */
  ghost function Events(s: State, actions: seq<Action>): seq<Event> {
    if actions == [] then []
    else
      var front, a := actions[..|actions| - 1], actions[|actions| - 1];
      var mid := Acts(s, front).0;
      Events(s, front) + (if a.Work? && mid.queue != [] then TurnEvents(mid, a.trouble) else [])
  }

  ghost function TurnEvents(s: State, t: Trouble): seq<Event>
    requires s.queue != []
  {
    var e := s.queue[|s.queue| - 1];
    if e.Garbled? then [DeadLetterEvent(Unparsed(e.raw))]
    else if Raises(e.fill, ApplyFill(s.ledger, e.fill, FaultOf(t)).1, t) && e.fill.retry >= MAX_RETRY then
      [FillEvent(e.fill, FaultOf(t)), DeadLetterEvent(Failed(e.fill, RetriesExhausted))]
    else [FillEvent(e.fill, FaultOf(t))]
  }

  lemma {:induction false} TurnRuns(s: State, t: Trouble)
    requires s.queue != []
    ensures Turn(s, t).0.ledger == Run(s.ledger, TurnEvents(s, t))
  {
    var es := TurnEvents(s, t);
    hide ApplyFill, Raises;
    RunOfOne(s.ledger, es[0]);
    if |es| == 2 {
      assert es == [es[0]] + [es[1]];
      RunConcat(s.ledger, [es[0]], [es[1]]);
      RunOfOne(Run(s.ledger, [es[0]]), es[1]);
    } else {
      assert es == [es[0]];
    }
  }

  /** The worker's ledger is a ledger run, so everything proved of runs holds under it. */
  lemma {:induction false} WorkerRefinesLedger(s: State, actions: seq<Action>)
    ensures Acts(s, actions).0.ledger == Run(s.ledger, Events(s, actions))
  {
    if actions == [] {
    } else {
      var front, a := actions[..|actions| - 1], actions[|actions| - 1];
      WorkerRefinesLedger(s, front);
      var mid := Acts(s, front).0;
      if a.Work? && mid.queue != [] {
        TurnRuns(mid, a.trouble);
        RunConcat(s.ledger, Events(s, front), TurnEvents(mid, a.trouble));
      } else {
        assert Events(s, actions) == Events(s, front);
      }
    }
  }

  /** Does the turn take a repeated BUY for an applied one? */
  ghost predicate MiscountsBuy(s: State, t: Trouble)
    requires s.queue != []
  {
    var e := s.queue[|s.queue| - 1];
    e.Queued? && e.fill.side.Buy? && ApplyFill(s.ledger, e.fill, FaultOf(t)).1.Duplicate?
  }

  ghost function RepeatedBuys(s: State, actions: seq<Action>): nat {
    if actions == [] then 0
    else
      var front, a := actions[..|actions| - 1], actions[|actions| - 1];
      var mid := Acts(s, front).0;
      RepeatedBuys(s, front) + (if a.Work? && mid.queue != [] && MiscountsBuy(mid, a.trouble) then 1 else 0)
  }

  /** The `processed` counter is the number of fills booked, in turns that end well or raise
      late, plus the number of repeated BUYs; so it is exact just when no BUY was repeated. */
  lemma {:induction false} ProcessedCountsRepeatedBuys(s: State, actions: seq<Action>)
    ensures var (s', t) := Acts(s, actions);
      s'.processed - s.processed == |t.done| + |t.late| + RepeatedBuys(s, actions)
  {
    if actions == [] {
    } else {
      var front := actions[..|actions| - 1];
      ProcessedCountsRepeatedBuys(s, front);
      ActCounts(Acts(s, front).0, Acts(s, front).1, actions[|actions| - 1]);
      hide Act, MiscountsBuy;
    }
  }

  lemma {:induction false} TurnCounts(s: State, t: Trouble)
    requires s.queue != []
    ensures var (s', d) := Turn(s, t);
      s'.processed == s.processed + (if d.Done? then 1 else 0) + (if BookedLate(s, t) then 1 else 0)
          + (if MiscountsBuy(s, t) then 1 else 0)
  {
    hide ApplyFill;
  }

  lemma {:induction false} ActCounts(s: State, t: Tally, a: Action)
    ensures var (s', t') := Act(s, t, a);
      s'.processed + |t.done| + |t.late| == s.processed + |t'.done| + |t'.late|
        + (if a.Work? && s.queue != [] && MiscountsBuy(s, a.trouble) then 1 else 0)
  {
    if a.Work? && s.queue != [] {
      TurnCounts(s, a.trouble);
    }
    hide Turn, BookedLate, MiscountsBuy;
  }

  lemma {:induction false} BuysAreNotRefused(l: Ledger, f: Fill, fault: Fault)
    ensures f.side.Buy? ==> !ApplyFill(l, f, fault).1.NoPosition?
  {}

  // ----- The worker itself ----------------------------------------------------

  class PositionWorker {
    const repo: RedisPositionRepository
    const engine: PositionEngine
    var processed: nat
    var requeued: nat
    var dlqed: nat

    ghost predicate Valid() { engine.repo == repo }

    constructor (repo: RedisPositionRepository)
      ensures Valid() && this.repo == repo && View() == State(repo.View(), repo.queue, 0, 0, 0)
    {
      this.repo := repo;
      engine := new PositionEngine(repo);
      processed, requeued, dlqed := 0, 0, 0;
    }

    ghost function View(): State
      reads this, repo
    {
      State(repo.View(), repo.queue, processed, requeued, dlqed)
    }

    method RetryOrGiveUp(f: Fill)
      requires Valid()
      modifies this, repo
      ensures View() == Recover(old(View()), f).0
    {
      if f.retry >= MAX_RETRY {
        repo.PushFillDlq(f, RetriesExhausted);
        dlqed := dlqed + 1;
      } else {
        repo.RequeueFill(f);
        requeued := requeued + 1;
      }
    }

    /** One pass of the loop body on a popped fill. */
    method HandleFill(f: Fill, t: Trouble)
      requires Valid()
      modifies this, repo
      ensures View() == Handle(old(View()), f, t).0
    {
      BuysAreNotRefused(repo.View(), f, FaultOf(t));
      hide FillLedger.ApplyFill, Recover;
      var out := engine.ApplyFill(f, FaultOf(t));
      if f.side == Sell && (out == Duplicate || out == NoPosition) {
        return;
      }
      if out != Raised {
        processed := processed + 1;
      }
      if out == Raised || t.Behind? {
        RetryOrGiveUp(f);
      }
    }

    method WorkOnce(t: Trouble)
      requires Valid() && repo.queue != []
      modifies this, repo
      ensures View() == Turn(old(View()), t).0
    {
      var popped := repo.PopFill();
      if popped.Some? {
        HandleFill(popped.value, t);
      }
    }

    /** Work until the queue is empty, with exceptions striking wherever `troubles` says. The
        loop ends within as many turns as the queue's load at the start. */
    method Drain(troubles: nat -> Trouble) returns (turns: nat)
      requires Valid()
      modifies this, repo
      ensures View() == Acts(old(View()), Works(troubles, turns)).0
      ensures repo.queue == [] && turns <= Load(old(repo.queue))
    {
      turns := 0;
      while repo.queue != []
        invariant View() == Acts(old(View()), Works(troubles, turns)).0
        invariant turns + Load(repo.queue) <= Load(old(repo.queue))
        decreases Load(repo.queue)
      {
        TurnDrains(View(), troubles(turns));
        WorksSnoc(old(View()), troubles, turns);
        hide Turn;
        WorkOnce(troubles(turns));
        turns := turns + 1;
      }
    }
  }

  ghost function Works(troubles: nat -> Trouble, n: nat): seq<Action> {
    if n == 0 then [] else Works(troubles, n - 1) + [Work(troubles(n - 1))]
  }

  lemma {:induction false} WorksSnoc(s: State, troubles: nat -> Trouble, n: nat)
    requires Acts(s, Works(troubles, n)).0.queue != []
    ensures Acts(s, Works(troubles, n + 1)).0 == Turn(Acts(s, Works(troubles, n)).0, troubles(n)).0
  {
    hide Turn;
    var next := Works(troubles, n + 1);
    assert next[..|next| - 1] == Works(troubles, n);
  }

  // ----- How often a fill is tried --------------------------------------------

  /** The queue after `n` turns in all of which the first read fails. */
  ghost function FailingTurns(s: State, n: nat): State {
    if n == 0 then s
    else
      var before := FailingTurns(s, n - 1);
      if before.queue == [] then before else Turn(before, Within(AtRead)).0
  }

  /** A fresh fill that always fails is tried six times: it returns to the queue five times, then it
      becomes a dead letter with its retries counted. Nothing else of the ledger changes. */
  lemma {:induction false} GivesUpAfterSixTries(s: State, f: Fill, n: nat)
    requires s.queue == [Queued(f)] && f.retry == 0 && n <= 6
    ensures var s', dlq := FailingTurns(s, n), s.ledger.dlq;
      if n <= 5 then s' == s.(queue := [Queued(f.(retry := n))], requeued := s.requeued + n)
      else
        s' == s.(queue := [], requeued := s.requeued + 5, dlqed := s.dlqed + 1,
                 ledger := s.ledger.(dlq := [Failed(f.(retry := 5), RetriesExhausted)] + dlq))
  {
    if n > 0 {
      GivesUpAfterSixTries(s, f, n - 1);
      var before := FailingTurns(s, n - 1);
      assert before.queue[..0] == [];
    }
  }
}
