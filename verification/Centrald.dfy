/**
  The central coordinator (base/centrald/src/centrald.cpp): opening the devices in sequence,
  closing them in reverse with timeouts, and folding all connections into one weather
  and one stop verdict.
*/
module Centrald {
  /** Whether a connected device blocks opening and closing of those before it. */
  datatype Blocks = Blocks(open_: bool, close: bool)

  /** The devices with an open connection, by name. */
  type World = map<string, Blocks>

  datatype Mode = Idle | Opening | Closing

  datatype Deadline = NoDeadline | At(time: int)

  /** What happened: a command with what was known when it was sent, a timeout, the list cleared. */
  datatype Entry =
    | OpenSent(index: nat, world: World)
    | CloseSent(index: nat, world: World, failed: seq<string>)
    | TimedOut
    | Cleared

  datatype Log = Nothing | After(earlier: Log, last: Entry)

  /** `timers` are the due times of the pending close timeouts, in the order they fire. */
  datatype State = State(mode: Mode, last: string, deadline: Deadline, failed: seq<string>,
                         timers: seq<int>, log: Log)

  const CLOSE_TIMEOUT := 180

  // ----- Opening and closing in sequence

  predicate Closable(name: string, world: World, failed: seq<string>) {
    name in world && name !in failed && world[name].close
  }

  /** The first device that is missing or blocks opening, |order| if there is none. */
  function FirstBlocking(order: seq<string>, world: World): (k: nat)
    ensures k <= |order|
    ensures forall j :: 0 <= j < k ==> order[j] in world && !world[order[j]].open_
    ensures k < |order| ==> order[k] !in world || world[order[k]].open_
  {
    if order == [] then 0
    else if order[0] !in world || world[order[0]].open_ then 0
    else 1 + FirstBlocking(order[1..], world)
  }

  /** The last device that can be told to close, -1 if there is none. */
  function LastClosable(order: seq<string>, world: World, failed: seq<string>): (k: int)
    ensures -1 <= k < |order|
    ensures k >= 0 ==> Closable(order[k], world, failed)
    ensures forall j :: k < j < |order| ==> !Closable(order[j], world, failed)
  {
    if order == [] then -1
    else
      var n := |order| - 1;
      if Closable(order[n], world, failed) then n else LastClosable(order[..n], world, failed)
  }

  function Clear(s: State): State {
    s.(mode := Idle, last := "", deadline := NoDeadline)
  }

  function DoOpen(s: State, order: seq<string>, world: World, now: int): (State, int) {
    var k := FirstBlocking(order, world);
    if k == |order| then (Clear(s), -1)
    else if order[k] !in world then (s.(mode := Idle), -1)
    else
      var s := s.(log := After(s.log, OpenSent(k, world)));
      (if order[k] == s.last then s else s.(last := order[k], deadline := At(now + CLOSE_TIMEOUT)), 0)
  }

  function DoClose(s: State, order: seq<string>, world: World, now: int): (State, int) {
    if order == [] then (s, 0)
    else
      var k := LastClosable(order, world, s.failed);
      if k < 0 then (Clear(s).(failed := [], log := After(s.log, Cleared)), -1)
      else
        var s := s.(log := After(s.log, CloseSent(k, world, s.failed)));
        (if order[k] == s.last then s
         else s.(last := order[k], deadline := At(now + CLOSE_TIMEOUT), timers := s.timers + [now + CLOSE_TIMEOUT]), 0)
  }

  function StartOpen(s: State, order: seq<string>, world: World, now: int): (State, int) {
    DoOpen(s.(mode := Opening), order, world, now)
  }

  function StartClose(s: State, order: seq<string>, world: World, now: int): (State, int) {
    DoClose(s.(mode := Closing), order, world, now)
  }

  function OpenCloseChanged(s: State, order: seq<string>, world: World, now: int): State {
    match s.mode
    case Idle => s
    case Opening => DoOpen(s, order, world, now).0
    case Closing => DoClose(s, order, world, now).0
  }

  /** postEvent: the earliest pending timeout, whichever device it was set for. */
  function TimerFires(s: State, order: seq<string>, world: World, now: int): State {
    if s.timers == [] then s
    else
      var s := s.(timers := s.timers[1..]);
      if s.mode != Closing then s
      else DoClose(s.(failed := s.failed + [s.last], log := After(s.log, TimedOut)), order, world, now).0
  }

  // ----- What the log tells

  /** The timeouts since the list of failures was cleared, and whether all commands kept the order. */
  datatype Story = Story(timeouts: nat, ordered: bool)

  predicate InOrder(order: seq<string>, e: Entry) {
    match e
    case OpenSent(k, world) =>
      && k < |order| && order[k] in world && world[order[k]].open_
      && forall j :: 0 <= j < k ==> order[j] in world && !world[order[j]].open_
    case CloseSent(k, world, failed) =>
      && k < |order| && Closable(order[k], world, failed)
      && forall j :: k < j < |order| ==> order[j] !in world || order[j] in failed || !world[order[j]].close
    case _ => true
  }

  function Continue(t: Story, order: seq<string>, e: Entry): Story {
    match e
    case TimedOut => t.(timeouts := t.timeouts + 1)
    case Cleared => t.(timeouts := 0)
    case _ => t.(ordered := t.ordered && InOrder(order, e))
  }

  function Tell(log: Log, order: seq<string>): Story {
    match log
    case Nothing => Story(0, true)
    case After(earlier, last) => Continue(Tell(earlier, order), order, last)
  }

  predicate Distinct<T(==)>(s: seq<T>) {
    forall i, j :: 0 <= i < j < |s| ==> s[i] != s[j]
  }

  predicate Within<T(==)>(s: seq<T>, t: seq<T>) {
    forall x :: x in s ==> x in t
  }

  /**
    The failures are distinct devices of the sequence, one for every timeout; and the
    device being closed is in the sequence and not among the failures.
  */
  predicate Inv(s: State, order: seq<string>) {
    && Distinct(s.failed) && Within(s.failed, order)
    && (s.mode == Closing && order != [] ==> s.last in order && s.last !in s.failed)
    && (order == [] ==> s.timers == [])
    && Tell(s.log, order) == Story(|s.failed|, true)
  }

  lemma {:induction false} DistinctIsNoLonger<T>(s: seq<T>, t: seq<T>)
    requires Distinct(s) && Within(s, t)
    ensures |s| <= |t|
  {
    if s != [] {
      assert s[0] in s;
      var i :| 0 <= i < |t| && t[i] == s[0];
      var rest := t[..i] + t[i + 1..];
      forall x | x in s[1..] ensures x in rest {
        var j :| 0 <= j < |s| - 1 && s[1..][j] == x;
        assert x == s[j + 1] && x in t && x != t[i];
      }
      DistinctIsNoLonger(s[1..], rest);
    }
  }

  lemma DoOpenKeeps(s: State, order: seq<string>, world: World, now: int)
    requires Inv(s, order) && s.mode == Opening
    ensures Inv(DoOpen(s, order, world, now).0, order)
  {
    var s' := DoOpen(s, order, world, now).0;
    if s'.log != s.log {
      assert Tell(s'.log, order) == Continue(Tell(s.log, order), order, s'.log.last);
    }
  }

  /** Needs nothing of `last`, so a timeout may have added it to the failures. */
  lemma DoCloseKeeps(s: State, order: seq<string>, world: World, now: int)
    requires Inv(s.(mode := Opening), order)
    ensures var s' := DoClose(s, order, world, now).0;
            && Inv(s', order)
            && (s.last in s.failed && s'.mode == Closing && order != [] ==> s'.last != s.last)
  {
    var s' := DoClose(s, order, world, now).0;
    if order != [] {
      assert Tell(s'.log, order) == Continue(Tell(s.log, order), order, s'.log.last);
    }
  }

  // ----- Runs

  datatype Event =
    | AskOpen(world: World, now: int)
    | AskClose(world: World, now: int)
    | Changed(world: World, now: int)
    | Timeout(world: World, now: int)

  function Step(s: State, order: seq<string>, e: Event): State {
    match e
    case AskOpen(world, now) => StartOpen(s, order, world, now).0
    case AskClose(world, now) => StartClose(s, order, world, now).0
    case Changed(world, now) => OpenCloseChanged(s, order, world, now)
    case Timeout(world, now) => TimerFires(s, order, world, now)
  }

  function Run(s: State, order: seq<string>, events: seq<Event>): State {
    if events == [] then s
    else Step(Run(s, order, events[..|events| - 1]), order, events[|events| - 1])
  }

  function Initial(): State {
    State(Idle, "", NoDeadline, [], [], Nothing)
  }

  lemma StepKeeps(s: State, order: seq<string>, e: Event)
    requires Inv(s, order)
    ensures Inv(Step(s, order, e), order)
  {
    match e
    case AskOpen(world, now) => DoOpenKeeps(s.(mode := Opening), order, world, now);
    case AskClose(world, now) => DoCloseKeeps(s.(mode := Closing), order, world, now);
    case Changed(world, now) =>
      if s.mode == Opening {
        DoOpenKeeps(s, order, world, now);
      } else if s.mode == Closing {
        DoCloseKeeps(s, order, world, now);
      }
    case Timeout(world, now) =>
      if s.timers != [] && s.mode == Closing {
        var late := s.(timers := s.timers[1..], failed := s.failed + [s.last], log := After(s.log, TimedOut));
        assert Tell(late.log, order) == Continue(Tell(s.log, order), order, TimedOut);
        DoCloseKeeps(late, order, world, now);
      }
  }

  /**
    In every run, with any sequence and any comings and goings of devices: each command
    kept the order, every timeout since the list was cleared added a device of its own,
    and there were at most |sequence| of them, strictly fewer while still closing.
  */
  lemma {:induction false} ClosingIsOrderedAndBounded(order: seq<string>, events: seq<Event>)
    ensures var s := Run(Initial(), order, events);
            var t := Tell(s.log, order);
            && Inv(s, order)
            && t.ordered
            && t.timeouts == |s.failed| <= |order|
            && (s.mode == Closing && order != [] ==> t.timeouts < |order|)
  {
    if events != [] {
      var n := |events| - 1;
      ClosingIsOrderedAndBounded(order, events[..n]);
      StepKeeps(Run(Initial(), order, events[..n]), order, events[n]);
    }
    var s := Run(Initial(), order, events);
    DistinctIsNoLonger(s.failed, order);
    if s.mode == Closing && order != [] {
      DistinctIsNoLonger(s.failed + [s.last], order);
    }
  }

  // ----- Which device is told, and when a sequence ends

  /** Everything before position k is open, and the device there is present and waits to be opened. */
  predicate TurnOf(k: int, order: seq<string>, world: World) {
    && 0 <= k < |order| && order[k] in world && world[order[k]].open_
    && forall j :: 0 <= j < k ==> order[j] in world && !world[order[j]].open_
  }

  /**
    An opening tells the device whose turn it is, that one alone and every time it is
    asked, with 180 s shown for it when it was not told last. It ends if and only if it is
    nobody's turn: a device is missing before the first that blocks, or none blocks.
  */
  lemma OpeningTellsWhoseTurnItIs(s: State, order: seq<string>, world: World, now: int, k: int)
    requires s.mode == Opening
    ensures var (r, ret) := DoOpen(s, order, world, now);
            TurnOf(k, order, world) ==>
              && r.log == After(s.log, OpenSent(k, world))
              && ret == 0 && r.mode == Opening && r.last == order[k]
              && r.deadline == (if order[k] == s.last then s.deadline else At(now + 180))
    ensures var (r, ret) := DoOpen(s, order, world, now);
            (forall j :: !TurnOf(j, order, world)) ==>
              && r.log == s.log && ret == -1 && r.mode == Idle
              && ((forall j :: 0 <= j < |order| ==> order[j] in world) ==> r.last == "" && r.deadline == NoDeadline)
              && ((exists j :: 0 <= j < |order| && order[j] !in world) ==> r.last == s.last && r.deadline == s.deadline)
    ensures var r := DoOpen(s, order, world, now).0; r.failed == s.failed && r.timers == s.timers
  {
    var first := FirstBlocking(order, world);
    if TurnOf(k, order, world) {
      assert !(first < k) && !(k < first);
    } else if first < |order| && order[first] in world {
      assert TurnOf(first, order, world);
    } else if first == |order| {
      assert forall j :: 0 <= j < |order| ==> order[j] in world;
    }
  }

  /** Requests begin a sequence; a change among the devices carries on with the one under way, if any. */
  lemma WhoseTurnAfterRequests(s: State, order: seq<string>, world: World, now: int)
    ensures StartOpen(s, order, world, now) == DoOpen(s.(mode := Opening), order, world, now)
    ensures StartClose(s, order, world, now) == DoClose(s.(mode := Closing), order, world, now)
    ensures OpenCloseChanged(s, order, world, now)
            == if s.mode == Opening then StartOpen(s, order, world, now).0
               else if s.mode == Closing then StartClose(s, order, world, now).0 else s
  {
    assert s.(mode := s.mode) == s;
  }

  /** The device at position k is present, not failed and waits to be closed, and none after it is. */
  predicate LastTurnOf(k: int, order: seq<string>, world: World, failed: seq<string>) {
    && 0 <= k < |order| && Closable(order[k], world, failed)
    && forall j :: k < j < |order| ==> !Closable(order[j], world, failed)
  }

  /**
    A closing tells the last device that can be closed, with a timeout when it was not told
    last; without one it ends, and the failures are forgotten. An empty sequence leaves
    everything as it is.
  */
  lemma ClosingTellsTheLast(s: State, order: seq<string>, world: World, now: int, k: int)
    requires s.mode == Closing
    ensures var (r, ret) := DoClose(s, order, world, now);
            LastTurnOf(k, order, world, s.failed) ==>
              && r.log == After(s.log, CloseSent(k, world, s.failed))
              && ret == 0 && r.mode == Closing && r.last == order[k] && r.failed == s.failed
              && r.deadline == (if order[k] == s.last then s.deadline else At(now + 180))
              && r.timers == (if order[k] == s.last then s.timers else s.timers + [now + 180])
    ensures var (r, ret) := DoClose(s, order, world, now);
            order != [] && (forall j :: !LastTurnOf(j, order, world, s.failed)) ==>
              && r.log == After(s.log, Cleared)
              && ret == -1 && r.mode == Idle && r.last == "" && r.deadline == NoDeadline
              && r.failed == [] && r.timers == s.timers
    ensures order == [] ==> DoClose(s, order, world, now) == (s, 0)
  {
    var last := LastClosable(order, world, s.failed);
    if LastTurnOf(k, order, world, s.failed) {
      assert !(last < k) && !(k < last);
    } else if last >= 0 {
      assert LastTurnOf(last, order, world, s.failed);
    }
  }

  /**
    A step ends a closing by itself only when every device of the sequence is missing,
    failed or no longer blocking; until then a device is being closed.
  */
  lemma ClosingEndsWhenDone(s: State, order: seq<string>, world: World, now: int)
    requires s.mode == Closing && order != []
    ensures DoClose(s, order, world, now).0.mode == Idle <==>
            forall name :: name in order ==> name !in world || name in s.failed || !world[name].close
  {
    var k := LastClosable(order, world, s.failed);
    if k >= 0 {
      assert order[k] in order;
    } else {
      forall name | name in order ensures !Closable(name, world, s.failed) {
        var j :| 0 <= j < |order| && order[j] == name;
      }
    }
  }

  // ----- Closings without a timeout, and timeouts that are not their device's

  /** A closing that waits for a device has a timeout coming. */
  predicate Guarded(s: State, order: seq<string>) {
    s.mode == Closing && order != [] ==> s.timers != []
  }

  /**
    Every step keeps a closing guarded but one: a close request whose first device is
    still the last one told anything, when no timeout is pending. It sets no timer, so
    should that device never close, nothing ever moves on to the others.
  */
  lemma OnlyStaleDeviceLeavesClosingUnguarded(s: State, order: seq<string>, e: Event)
    requires Inv(s, order) && Guarded(s, order)
    ensures !Guarded(Step(s, order, e), order) <==>
            && e.AskClose? && order != [] && s.timers == []
            && var k := LastClosable(order, e.world, s.failed);
               k >= 0 && order[k] == s.last
  {
    match e
    case AskOpen(world, now) =>
    case AskClose(world, now) =>
    case Changed(world, now) =>
    case Timeout(world, now) =>
      if s.timers != [] && s.mode == Closing {
        var late := s.failed + [s.last];
        assert s.last in late;
      }
  }

  /** So it happens: the device just being opened is the first to close. */
  lemma ReversedOpeningIsUnguarded(now: int)
    ensures var both := map["dome" := Blocks(true, true)];
            var events := [AskOpen(both, now), AskClose(both, now)];
            var s := Run(Initial(), ["dome"], events);
            s.mode == Closing && s.last == "dome" && s.timers == []
  {
    var both := map["dome" := Blocks(true, true)];
    var order := ["dome"];
    var first := AskOpen(both, now);
    var second := AskClose(both, now);
    assert [first, second][..1] == [first] && [first][..0] == [];
    assert Run(Initial(), order, []) == Initial();
    assert Run(Initial(), order, [first]) == Step(Initial(), order, first);
  }

  function Time(e: Event): int {
    e.now
  }

  /** The clock does not run backwards. */
  predicate InOrderOfTime(events: seq<Event>) {
    forall i, j :: 0 <= i < j < |events| ==> Time(events[i]) <= Time(events[j])
  }

  /** Timeouts fire in order, none later than 180 s from now nor after the deadline shown for the last device. */
  predicate Punctual(s: State, clock: int) {
    && (forall i :: 0 <= i < |s.timers| ==> s.timers[i] <= clock + CLOSE_TIMEOUT)
    && (forall i, j :: 0 <= i < j < |s.timers| ==> s.timers[i] <= s.timers[j])
    && (s.last != "" ==> s.deadline.At? && s.deadline.time <= clock + CLOSE_TIMEOUT)
    && (s.deadline.At? ==> forall i :: 0 <= i < |s.timers| ==> s.timers[i] <= s.deadline.time)
  }

  lemma {:induction false} RunIsPunctual(order: seq<string>, events: seq<Event>)
    requires events != [] && InOrderOfTime(events)
    ensures Punctual(Run(Initial(), order, events), Time(events[|events| - 1]))
  {
    var n := |events| - 1;
    var e := events[n];
    var s := Run(Initial(), order, events[..n]);
    if n > 0 {
      RunIsPunctual(order, events[..n]);
      assert Time(events[n - 1]) <= Time(e);
    }
    StepIsPunctual(s, order, e);
  }

  lemma StepIsPunctual(s: State, order: seq<string>, e: Event)
    requires Punctual(s, Time(e))
    ensures Punctual(Step(s, order, e), Time(e))
  {
    match e
    case AskOpen(world, now) => OpenIsPunctual(s.(mode := Opening), order, world, now);
    case AskClose(world, now) => CloseIsPunctual(s.(mode := Closing), order, world, now);
    case Changed(world, now) =>
      if s.mode == Opening {
        OpenIsPunctual(s, order, world, now);
      } else if s.mode == Closing {
        CloseIsPunctual(s, order, world, now);
      }
    case Timeout(world, now) =>
      if s.timers != [] {
        var rest := s.(timers := s.timers[1..]);
        assert Punctual(rest, now);
        if s.mode == Closing {
          CloseIsPunctual(rest.(failed := s.failed + [s.last], log := After(s.log, TimedOut)), order, world, now);
        }
      }
  }

  lemma OpenIsPunctual(s: State, order: seq<string>, world: World, now: int)
    requires Punctual(s, now)
    ensures Punctual(DoOpen(s, order, world, now).0, now)
  {
  }

  lemma CloseIsPunctual(s: State, order: seq<string>, world: World, now: int)
    requires Punctual(s, now)
    ensures Punctual(DoClose(s, order, world, now).0, now)
  {
  }

  /** In every run the next timeout is due no later than the deadline shown for the last device. */
  lemma TimeoutsKeepTheDeadline(order: seq<string>, events: seq<Event>)
    requires events != [] && InOrderOfTime(events)
    ensures var s := Run(Initial(), order, events);
            s.last != "" && s.timers != [] ==> s.deadline.At? && s.timers[0] <= s.deadline.time
  {
    RunIsPunctual(order, events);
  }

  /** The timeouts that are pending when e happens, but for the one that e delivers. */
  function Pending(s: State, e: Event): seq<int> {
    if e.Timeout? && s.timers != [] then s.timers[1..] else s.timers
  }

  predicate AllDueAt(timers: seq<int>, time: int) {
    forall i :: 0 <= i < |timers| ==> timers[i] == time
  }

  /** The step tells a device to close, for the first time or once more, and a timeout is pending then. */
  predicate TellsUnderTimeout(s: State, order: seq<string>, e: Event) {
    var r := Step(s, order, e);
    r.log != s.log && r.log.After? && r.log.last.CloseSent? && r.timers != []
  }

  /** Whatever happens, no timeout among it, the closing goes on waiting for the same device. */
  predicate Waits(s: State, order: seq<string>, later: seq<Event>) {
    later == [] ||
    (var n := |later| - 1;
     && Waits(s, order, later[..n]) && !later[n].Timeout?
     && Run(s, order, later).mode == Closing && Run(s, order, later).last == s.last)
  }

  lemma {:induction false} WaitingKeepsTimeouts(s: State, order: seq<string>, later: seq<Event>)
    requires s.mode == Closing && Waits(s, order, later)
    ensures var r := Run(s, order, later);
            r.mode == Closing && r.last == s.last && r.timers == s.timers
  {
    if later != [] {
      WaitingKeepsTimeouts(s, order, later[..|later| - 1]);
    }
  }

  /**
    In every run a device that is told to close while a timeout is pending, or is set then,
    is given up by the next timeout if it is still waited for: never later than 180 s after
    it was told, and after exactly 180 s if and only if every timeout pending before was
    set at that moment. Timeouts are not withdrawn when their device has closed or is told
    once more, so any other cuts it short.
  */
  lemma FullTimeExactly(order: seq<string>, events: seq<Event>, tell: Event, later: seq<Event>, world: World)
    requires InOrderOfTime(events + [tell])
    requires TellsUnderTimeout(Run(Initial(), order, events), order, tell)
    requires Waits(Run(Initial(), order, events + [tell]), order, later)
    ensures var told := Run(Initial(), order, events + [tell]);
            var waiting := Run(told, order, later);
            waiting.mode == Closing && waiting.last == told.last && waiting.timers != []
    ensures var pending := Pending(Run(Initial(), order, events), tell);
            var due := Run(Run(Initial(), order, events + [tell]), order, later).timers[0];
            && due <= Time(tell) + CLOSE_TIMEOUT
            && (due == Time(tell) + CLOSE_TIMEOUT <==> AllDueAt(pending, Time(tell) + CLOSE_TIMEOUT))
    ensures var waiting := Run(Run(Initial(), order, events + [tell]), order, later);
            var after := Step(waiting, order, Timeout(world, waiting.timers[0]));
            waiting.last in after.failed || (after.mode == Idle && after.failed == [])
  {
    var all := events + [tell];
    assert all[..|events|] == events;
    RunIsPunctual(order, all);
    FullTimeFrom(Run(Initial(), order, events), Run(Initial(), order, all), order, tell, later, world);
  }

  lemma FullTimeFrom(before: State, told: State, order: seq<string>, tell: Event, later: seq<Event>, world: World)
    requires told == Step(before, order, tell) && TellsUnderTimeout(before, order, tell)
    requires Punctual(told, Time(tell)) && Waits(told, order, later)
    ensures var waiting := Run(told, order, later);
            waiting.mode == Closing && waiting.last == told.last && waiting.timers != []
    ensures var due := Run(told, order, later).timers[0];
            && due <= Time(tell) + CLOSE_TIMEOUT
            && (due == Time(tell) + CLOSE_TIMEOUT <==> AllDueAt(Pending(before, tell), Time(tell) + CLOSE_TIMEOUT))
    ensures var waiting := Run(told, order, later);
            var after := Step(waiting, order, Timeout(world, waiting.timers[0]));
            waiting.last in after.failed || (after.mode == Idle && after.failed == [])
  {
    TellingIsClosing(before, order, tell);
    WaitingKeepsTimeouts(told, order, later);
    var waiting := Run(told, order, later);
    TimeoutGivesUp(waiting, order, world, waiting.timers[0]);
    EarliestOf(Pending(before, tell), told.timers, Time(tell) + CLOSE_TIMEOUT);
  }

  lemma EarliestOf(pending: seq<int>, all: seq<int>, last: int)
    requires all != [] && (all == pending || all == pending + [last])
    requires forall i, j :: 0 <= i < j < |all| ==> all[i] <= all[j]
    requires forall i :: 0 <= i < |all| ==> all[i] <= last
    ensures all[0] <= last && (all[0] == last <==> AllDueAt(pending, last))
  {
    assert forall i :: 0 <= i < |pending| ==> all[i] == pending[i] && all[0] <= all[i];
  }

  lemma TellingIsClosing(s: State, order: seq<string>, e: Event)
    requires TellsUnderTimeout(s, order, e)
    ensures var r := Step(s, order, e);
            && r.mode == Closing
            && (r.timers == Pending(s, e) || r.timers == Pending(s, e) + [Time(e) + CLOSE_TIMEOUT])
  {
  }

  lemma TimeoutGivesUp(s: State, order: seq<string>, world: World, now: int)
    requires s.mode == Closing && s.timers != []
    ensures var r := TimerFires(s, order, world, now);
            s.last in r.failed || (r.mode == Idle && r.failed == [])
  {
    var late := s.failed + [s.last];
    assert s.last in late;
  }

  /** A device told once more, after an opening was asked for in between, is given up after 9 s. */
  lemma ToldAgainIsCutShort(dome: Blocks)
    requires dome.close && dome.open_
    ensures var world := map["dome" := dome];
            var before := [AskClose(world, 0), AskOpen(world, 170)];
            var told := Run(Initial(), ["dome"], before + [AskClose(world, 171)]);
            && TellsUnderTimeout(Run(Initial(), ["dome"], before), ["dome"], AskClose(world, 171))
            && told.mode == Closing && told.last == "dome" && told.timers == [180]
  {
    var order, world := ["dome"], map["dome" := dome];
    var first, second, third := AskClose(world, 0), AskOpen(world, 170), AskClose(world, 171);
    assert order[0] == "dome" && LastClosable(order, world, []) == 0 && FirstBlocking(order, world) == 0;
    RunOn(order, [], first);
    RunOn(order, [first], second);
    RunOn(order, [first, second], third);
    assert [] + [first] == [first] && [first] + [second] == [first, second] && [] + [180] == [180];
  }

  lemma RunOn(order: seq<string>, events: seq<Event>, e: Event)
    ensures Run(Initial(), order, events + [e]) == Step(Run(Initial(), order, events), order, e)
  {
    assert (events + [e])[..|events|] == events;
  }

  /** One more device is told, and its timeout set. */
  lemma TellsNext(s: State, order: seq<string>, world: World, now: int, k: nat)
    requires k < |order| && Closable(order[k], world, s.failed) && order[k] != s.last
    requires forall j :: k < j < |order| ==> !Closable(order[j], world, s.failed)
    ensures DoClose(s, order, world, now).0
            == s.(last := order[k], deadline := At(now + CLOSE_TIMEOUT), timers := s.timers + [now + CLOSE_TIMEOUT],
                  log := After(s.log, CloseSent(k, world, s.failed)))
  {
  }

  /** Two devices told one after the other: both timeouts are pending. */
  lemma TwoTold(order: seq<string>, both: World, shut: World)
    requires |order| == 2 && order[0] != order[1] && order[0] != "" && order[1] != ""
    requires Closable(order[1], both, []) && Closable(order[0], shut, []) && !Closable(order[1], shut, [])
    ensures var s := Run(Initial(), order, [AskClose(both, 0), Changed(shut, 100)]);
            s.mode == Closing && s.last == order[0] && s.deadline == At(280) && s.timers == [180, 280] && s.failed == []
  {
    var first, second := AskClose(both, 0), Changed(shut, 100);
    OneTold(order, both);
    RunOn(order, [first], second);
    assert [first] + [second] == [first, second];
    TellsNext(Run(Initial(), order, [first]), order, shut, 100, 0);
  }

  lemma OneTold(order: seq<string>, both: World)
    requires |order| == 2 && order[1] != "" && Closable(order[1], both, [])
    ensures var s := Run(Initial(), order, [AskClose(both, 0)]);
            s.mode == Closing && s.last == order[1] && s.timers == [180] && s.failed == []
  {
    RunOn(order, [], AskClose(both, 0));
    assert [] + [AskClose(both, 0)] == [AskClose(both, 0)];
    TellsNext(Initial().(mode := Closing), order, both, 0, 1);
  }

  /** A timeout set for the dome fails the roof after 80 s. */
  lemma LeftoverTimeoutCutsShort(dome: Blocks, roof: Blocks)
    requires dome.close && roof.close
    ensures var order := ["roof", "dome"];
            var both := map["roof" := roof, "dome" := dome];
            var shut := map["roof" := roof, "dome" := Blocks(dome.open_, false)];
            var waiting := Run(Initial(), order, [AskClose(both, 0), Changed(shut, 100)]);
            var s := Step(waiting, order, Timeout(map[], 180));
            && waiting.last == "roof" && waiting.deadline == At(280) && waiting.timers == [180, 280]
            && s.mode == Idle && s.timers == [280]
            && Tell(s.log, order).timeouts == 0 && s.log == After(After(waiting.log, TimedOut), Cleared)
  {
    TwoTold(["roof", "dome"], map["roof" := roof, "dome" := dome],
            map["roof" := roof, "dome" := Blocks(dome.open_, false)]);
    assert LastClosable(["roof", "dome"], map[], ["roof"]) == -1;
  }

  /**
    A close request tells the last present device that blocks closing if and only if that
    one is not among the failures; otherwise it passes over it to one before, or ends.
  */
  lemma FailuresArePassedOver(s: State, order: seq<string>, world: World, now: int)
    ensures var k := LastClosable(order, world, []);
            k >= 0 ==> (StartClose(s, order, world, now).0.log == After(s.log, CloseSent(k, world, s.failed))
                        <==> order[k] !in s.failed)
  {
    var k := LastClosable(order, world, []);
    var j := LastClosable(order, world, s.failed);
    if j >= 0 {
      assert Closable(order[j], world, []);
    }
    if k >= 0 && order[k] !in s.failed {
      assert Closable(order[k], world, s.failed);
    }
  }

  /**
    And failures outlive an interrupted closing, so that it happens: asked to open and then to close again, the
    dome is present and blocks closing, yet the roof before it is closed first.
  */
  lemma InterruptedClosingKeepsFailures(now: int)
    ensures var order := ["roof", "dome"];
            var world := map["roof" := Blocks(true, true), "dome" := Blocks(true, true)];
            var s := Run(Initial(), order, [AskClose(world, now), Timeout(world, now + 180),
                                            AskOpen(world, now + 190), AskClose(world, now + 200)]);
            s.mode == Closing && s.failed == ["dome"] && s.last == "roof"
  {
    var order := ["roof", "dome"];
    var world := map["roof" := Blocks(true, true), "dome" := Blocks(true, true)];
    assert order[..1] == ["roof"] && order[1] == "dome" && order[0] == "roof";
    assert LastClosable(order, world, []) == 1 && LastClosable(order, world, ["dome"]) == 0;
    var events := [AskClose(world, now), Timeout(world, now + 180),
                   AskOpen(world, now + 190), AskClose(world, now + 200)];
    assert events[..3][..2] == events[..2] && events[..2][..1] == events[..1] && events[..1][..0] == [];
    var s0 := Run(Initial(), order, []);
    var s1 := Run(Initial(), order, events[..1]);
    assert s1 == Step(s0, order, events[0]);
    assert [] + [now + 180] == [now + 180] && [now + 180][1..] == [];
    var s2 := Run(Initial(), order, events[..2]);
    assert s2 == Step(s1, order, events[1]);
    assert [] + ["dome"] == ["dome"];
    assert s2.failed == ["dome"] && s2.mode == Closing && s2.last == "roof";
    var s3 := Run(Initial(), order, events[..3]);
    assert s3 == Step(s2, order, events[2]);
    assert s3.failed == ["dome"];
  }

  // ----- One verdict from all connections

  /** What a connection reports: good weather, or that the telescope may move. */
  datatype Report = Report(name: string, good: bool, connected: bool)

  function RemoveFirst<T(==)>(s: seq<T>, x: T): (r: seq<T>)
    ensures multiset(r) == multiset(s) - multiset{x}
  {
    if s == [] then []
    else if s[0] == x then (assert s == [s[0]] + s[1..]; s[1..])
    else (assert s == [s[0]] + s[1..]; [s[0]] + RemoveFirst(s[1..], x))
  }

  function Note(offending: seq<string>, r: Report): seq<string> {
    if r.name in offending then
      if r.good && r.connected then RemoveFirst(offending, r.name) else offending
    else if !r.good then offending + [r.name]
    else offending
  }

  /** The erase/push loop over the connections, from the required names. */
  function Offenders(required: seq<string>, reports: seq<Report>): seq<string> {
    if reports == [] then required
    else Note(Offenders(required, reports[..|reports| - 1]), reports[|reports| - 1])
  }

  /** What one report does to the count of a name. */
  function Counted(name: string, count: nat, r: Report): nat {
    if r.name != name then count
    else if count > 0 then if r.good && r.connected then count - 1 else count
    else if r.good then 0 else 1
  }

  /** What the loop does to the count of one name, independent of all others. */
  function CountOf(name: string, count: nat, reports: seq<Report>): nat {
    if reports == [] then count
    else Counted(name, CountOf(name, count, reports[..|reports| - 1]), reports[|reports| - 1])
  }

  lemma NoteCounts(name: string, offending: seq<string>, r: Report)
    ensures multiset(Note(offending, r))[name] == Counted(name, multiset(offending)[name], r)
  {
    assert r.name in offending <==> multiset(offending)[r.name] > 0;
    if r.name !in offending && !r.good {
      assert multiset(offending + [r.name]) == multiset(offending) + multiset{r.name};
    }
  }

  /** Names do not interfere, whether or not connections share one. */
  lemma {:induction false} NamesAreIndependent(name: string, required: seq<string>, reports: seq<Report>)
    ensures multiset(Offenders(required, reports))[name] == CountOf(name, multiset(required)[name], reports)
  {
    if reports != [] {
      var n := |reports| - 1;
      NamesAreIndependent(name, required, reports[..n]);
      NoteCounts(name, Offenders(required, reports[..n]), reports[n]);
    }
  }

  predicate OneEach(reports: seq<Report>) {
    forall i, j :: 0 <= i < j < |reports| ==> reports[i].name != reports[j].name
  }

  /** A required device offends unless it is connected and good, any other when it is bad. */
  predicate Offends(name: string, required: seq<string>, reports: seq<Report>) {
    if name in required then
      forall i :: 0 <= i < |reports| && reports[i].name == name ==> !reports[i].good || !reports[i].connected
    else
      exists i :: 0 <= i < |reports| && reports[i].name == name && !reports[i].good
  }

  lemma {:induction false} CountOfOne(name: string, required: seq<string>, reports: seq<Report>)
    requires OneEach(reports)
    requires multiset(required)[name] <= 1
    ensures CountOf(name, multiset(required)[name], reports) == if Offends(name, required, reports) then 1 else 0
    ensures (forall i :: 0 <= i < |reports| ==> reports[i].name != name) ==>
              CountOf(name, multiset(required)[name], reports) == multiset(required)[name]
  {
    if reports != [] {
      var n := |reports| - 1;
      var before := reports[..n];
      CountOfOne(name, required, before);
      assert forall i :: 0 <= i < n ==> before[i] == reports[i];
      if reports[n].name != name {
        assert Offends(name, required, reports) <==> Offends(name, required, before);
      }
    }
  }

  /**
    With distinct connection names and distinct required names the loop leaves exactly
    the offending names, each once; so the verdict is good exactly when every required
    device is connected and good and no other connection reports bad.
  */
  lemma LoopLeavesTheOffenders(required: seq<string>, reports: seq<Report>)
    requires OneEach(reports) && Distinct(required)
    ensures Distinct(Offenders(required, reports))
    ensures forall name :: name in Offenders(required, reports) <==> Offends(name, required, reports)
    ensures Offenders(required, reports) == [] <==>
            && (forall name :: name in required ==>
                  exists i :: 0 <= i < |reports| && reports[i] == Report(name, true, true))
            && (forall i :: 0 <= i < |reports| && reports[i].name !in required ==> reports[i].good)
  {
    var left := Offenders(required, reports);
    forall name ensures multiset(left)[name] == if Offends(name, required, reports) then 1 else 0 {
      DistinctCountsOnce(required, name);
      NamesAreIndependent(name, required, reports);
      CountOfOne(name, required, reports);
    }
    forall name ensures name in left <==> Offends(name, required, reports) {
      assert name in left <==> name in multiset(left);
    }
    CountsOnceDistinct(left);
    VerdictOfOffenders(required, reports);
  }

  lemma VerdictOfOffenders(required: seq<string>, reports: seq<Report>)
    requires OneEach(reports)
    ensures (forall name :: !Offends(name, required, reports)) <==>
            && (forall name :: name in required ==>
                  exists i :: 0 <= i < |reports| && reports[i] == Report(name, true, true))
            && (forall i :: 0 <= i < |reports| && reports[i].name !in required ==> reports[i].good)
  {
    if forall name :: !Offends(name, required, reports) {
      forall name | name in required
        ensures exists i :: 0 <= i < |reports| && reports[i] == Report(name, true, true)
      {
        assert !Offends(name, required, reports);
      }
      forall i | 0 <= i < |reports| && reports[i].name !in required ensures reports[i].good {
        assert !Offends(reports[i].name, required, reports);
      }
    } else {
      var name :| Offends(name, required, reports);
      if name in required {
        assert forall i :: 0 <= i < |reports| ==> reports[i] != Report(name, true, true);
      }
    }
  }

  lemma {:induction false} DistinctCountsOnce<T>(s: seq<T>, x: T)
    requires Distinct(s)
    ensures multiset(s)[x] == if x in s then 1 else 0
  {
    if s != [] {
      var n := |s| - 1;
      assert s == s[..n] + [s[n]];
      DistinctCountsOnce(s[..n], x);
    }
  }

  lemma CountsOnceDistinct<T>(s: seq<T>)
    requires forall x :: multiset(s)[x] <= 1
    ensures Distinct(s)
  {
    forall i, j | 0 <= i < j < |s| ensures s[i] != s[j] {
      assert s == s[..j] + [s[j]] + s[j + 1..];
      assert multiset(s)[s[j]] <= 1;
      assert s[i] in multiset(s[..j]);
    }
  }

  // ----- The coordinator itself

  /** The fields of the Centrald class; every method does exactly what its function says. */
  class Coordinator {
    var openSequence: seq<string>
    var openClose: Mode
    var openCloseLast: string
    var openCloseTimeout: Deadline
    var failedClose: seq<string>
    var timers: seq<int>
    ghost var log: Log

    var requiredDevices: seq<string>
    var badWeatherDevices: seq<string>
    var badWeatherReason: string
    var badWeatherDevice: string
    var goodWeather: bool
    var stopped: bool

    ghost function Model(): State
      reads this
    {
      State(openClose, openCloseLast, openCloseTimeout, failedClose, timers, log)
    }

    constructor (sequence: seq<string>, required: seq<string>)
      ensures Model() == Initial() && openSequence == sequence && requiredDevices == required
    {
      openSequence, requiredDevices, badWeatherDevices := sequence, required, [];
      openClose, openCloseLast, openCloseTimeout, failedClose := Idle, "", NoDeadline, [];
      timers, log, badWeatherReason, badWeatherDevice := [], Nothing, "", "";
      goodWeather, stopped := false, true;
    }

    method UpdateOpenClose(clear: bool)
      modifies `openClose, `openCloseLast, `openCloseTimeout
      ensures Model() == if clear then Clear(old(Model())) else old(Model())
    {
      if clear {
        openClose, openCloseLast, openCloseTimeout := Idle, "", NoDeadline;
      }
    }

    method OpenNext(world: World, now: int) returns (ret: int)
      modifies `openClose, `openCloseLast, `openCloseTimeout, `log
      ensures (Model(), ret) == DoOpen(old(Model()), openSequence, world, now)
    {
      ghost var before := Model();
      for i := 0 to |openSequence|
        invariant Model() == before
        invariant FirstBlocking(openSequence, world) == i + FirstBlocking(openSequence[i..], world)
      {
        var name := openSequence[i];
        if name !in world {
          openClose := Idle;
          UpdateOpenClose(false);
          return -1;
        } else if world[name].open_ {
          log := After(log, OpenSent(i, world));
          if name != openCloseLast {
            openCloseTimeout := At(now + CLOSE_TIMEOUT);
            openCloseLast := name;
            UpdateOpenClose(false);
          }
          return 0;
        }
      }
      UpdateOpenClose(true);
      ret := -1;
    }

    /** A do loop: the sequence is not empty, and is walked from its end. */
    method CloseNext(world: World, now: int) returns (ret: int)
      modifies `openClose, `openCloseLast, `openCloseTimeout, `failedClose, `timers, `log
      ensures (Model(), ret) == DoClose(old(Model()), openSequence, world, now)
    {
      if |openSequence| < 1 {
        return 0;
      }
      ghost var before := Model();
      var i := |openSequence|;
      while i != 0
        invariant 0 <= i <= |openSequence|
        invariant Model() == before
        invariant LastClosable(openSequence, world, failedClose) == LastClosable(openSequence[..i], world, failedClose)
      {
        assert openSequence[..i][..i - 1] == openSequence[..i - 1];
        i := i - 1;
        var name := openSequence[i];
        if name in world && name !in failedClose && world[name].close {
          log := After(log, CloseSent(i, world, failedClose));
          if name != openCloseLast {
            openCloseTimeout := At(now + CLOSE_TIMEOUT);
            openCloseLast := name;
            UpdateOpenClose(false);
            timers := timers + [now + CLOSE_TIMEOUT];
          }
          return 0;
        }
      }
      UpdateOpenClose(true);
      failedClose, log := [], After(log, Cleared);
      ret := -1;
    }

    method Open(world: World, now: int) returns (ret: int)
      modifies `openClose, `openCloseLast, `openCloseTimeout, `log
      ensures (Model(), ret) == StartOpen(old(Model()), openSequence, world, now)
    {
      openClose := Opening;
      ret := OpenNext(world, now);
    }

    method Close(world: World, now: int) returns (ret: int)
      modifies `openClose, `openCloseLast, `openCloseTimeout, `failedClose, `timers, `log
      ensures (Model(), ret) == StartClose(old(Model()), openSequence, world, now)
    {
      openClose := Closing;
      ret := CloseNext(world, now);
    }

    method DevicesChanged(world: World, now: int)
      modifies `openClose, `openCloseLast, `openCloseTimeout, `failedClose, `timers, `log
      ensures Model() == OpenCloseChanged(old(Model()), openSequence, world, now)
    {
      match openClose
      case Opening => var _ := OpenNext(world, now);
      case Closing => var _ := CloseNext(world, now);
      case Idle =>
    }

    /** postEvent with EVENT_CLOSE_TIMEOUT, as the timer loop delivers it. */
    method PostEvent(world: World, now: int)
      modifies `openClose, `openCloseLast, `openCloseTimeout, `failedClose, `timers, `log
      ensures Model() == TimerFires(old(Model()), openSequence, world, now)
    {
      if timers == [] {
        return;
      }
      timers := timers[1..];
      if openClose == Closing {
        failedClose, log := failedClose + [openCloseLast], After(log, TimedOut);
        var _ := CloseNext(world, now);
      }
    }

    method Collect(reports: seq<Report>) returns (failed: seq<string>)
      ensures failed == Offenders(requiredDevices, reports)
    {
      failed := requiredDevices;
      for i := 0 to |reports|
        invariant failed == Offenders(requiredDevices, reports[..i])
      {
        assert reports[..i + 1][..i] == reports[..i];
        var r := reports[i];
        if r.name in failed {
          if r.good && r.connected {
            failed := RemoveFirst(failed, r.name);
          }
        } else if !r.good {
          failed := failed + [r.name];
        }
      }
      assert reports[..|reports|] == reports;
    }

    /** The reason shown is the first one heard since the weather was last good. */
    method WeatherChanged(device: string, msg: string, reports: seq<Report>)
      modifies `badWeatherDevices, `badWeatherReason, `badWeatherDevice, `goodWeather
      ensures badWeatherDevices == Offenders(requiredDevices, reports)
      ensures goodWeather <==> badWeatherDevices == []
      ensures var blamed := && old(badWeatherReason) == ""
                            && exists i :: 0 <= i < |reports| && reports[i].name == device && !reports[i].good;
              (badWeatherReason, badWeatherDevice) ==
              if goodWeather then ("", "")
              else if blamed then (msg, device)
              else (old(badWeatherReason), old(badWeatherDevice))
    {
      var failed := Collect(reports);
      for i := 0 to |reports|
        invariant (badWeatherReason, badWeatherDevice) ==
                  if old(badWeatherReason) == ""
                     && exists k :: 0 <= k < i && reports[k].name == device && !reports[k].good
                  then (msg, device) else (old(badWeatherReason), old(badWeatherDevice))
      {
        if reports[i].name == device && !reports[i].good && |badWeatherReason| == 0 {
          badWeatherReason, badWeatherDevice := msg, device;
        }
      }
      badWeatherDevices, goodWeather := failed, |failed| == 0;
      if |failed| == 0 {
        badWeatherReason, badWeatherDevice := "", "";
      }
    }

    method StopChanged(reports: seq<Report>)
      modifies `stopped
      ensures stopped <==> Offenders(requiredDevices, reports) != []
    {
      var failed := Collect(reports);
      stopped := |failed| > 0;
    }
  }
}
