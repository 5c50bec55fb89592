/**
  The D50 roof driver (base/dome/d50/d50.cpp): one output opens, another closes,
  each move has its own deadline, and a close waits for a safe mount.
*/
module D50 {
  import opened Ford

  // relay outputs (port B) and end switches (port A)
  const OPENING: nat := 0
  const CLOSING: nat := 1
  const OPENED_SWITCH: nat := 1
  const CLOSED_SWITCH: nat := 2

  const TRAVEL_TIME := 40
  const MINIMAL_MOVE := 2
  const WAIT_ALARM := 90
  const PARK_REPEAT := 30
  const USEC_SEC := 1000000

  // ----- The mount

  datatype Motion = Parking | Moving | AtRest

  /** What the dome knows of the mount: values are absent until they are received. */
  datatype Mount =
    | NotOpen
    | NotReady
    | Ready(infotime: seq<int>, insideDome: seq<int>, motion: Motion)

  /** getMountState: 0 safe, -1 unknown, 1 moving or parking, 2 at rest outside. */
  function MountState(m: Mount, now: int): int {
    if !m.Ready? || m.infotime == [] || now - m.infotime[0] > 10 || m.insideDome == [] then -1
    else if m.motion != AtRest then 1
    else if m.insideDome[0] == 1 then 0
    else 2
  }

  /**
    A close waiting for the mount: since when and when last seen waiting (0 = not
    waiting), whether the wait was reported, when park was last sent; `reports` and
    `parks` count the CRITICAL reports and the park commands sent.
  */
  datatype Wait = Wait(since: int, last: int, reported: bool, parkSentAt: int, reports: nat, parks: nat)

  function WaitingForMount(w: Wait, now: int): Wait {
    var w := if w.since == 0 || now - w.last > 10 then w.(since := now, reported := false) else w;
    var w := w.(last := now);
    if w.reported || now - w.since < WAIT_ALARM then w
    else w.(reported := true, reports := w.reports + 1)
  }

  function ParkIfDue(w: Wait, now: int): Wait {
    if now - w.parkSentAt < PARK_REPEAT then w else w.(parkSentAt := now, parks := w.parks + 1)
  }

  // ----- The driver

  /** A move's deadline and the end of its dead time, both 0 when not armed. */
  datatype Deadline = Deadline(max: int, min: int)

  const NONE := Deadline(0, 0)

  function Fresh(now: int): Deadline {
    Deadline(now + TRAVEL_TIME, now + MINIMAL_MOVE)
  }

  /** A move found running gets a deadline if it has none. */
  function Adopted(d: Deadline, now: int): Deadline {
    if d.max == 0 then Deadline(now + TRAVEL_TIME, now) else d
  }

  /**
    `stopFailed` tells how the last stopMotors ended and `alarms` counts its CRITICAL
    "cannot switch the roof motors off"; the source only logs these two.
  */
  datatype Roof = Roof(line: Line, open: Deadline, close: Deadline, wait: Wait, stopFailed: bool, alarms: nat)

  function StopOnce(l: Line): (Line, bool) {
    var (cleared, ok) := ClearPins(l, {OPENING, CLOSING});
    if !ok then (cleared, false)
    else
      var (seen, read) := Poll(cleared);
      (seen, read && OPENING !in seen.cacheB && CLOSING !in seen.cacheB)
  }

  function StopTries(l: Line, tries: nat): (Line, bool)
    decreases tries
  {
    if tries == 0 then (l, false)
    else
      var (tried, ok) := StopOnce(l);
      if ok then (tried, true) else StopTries(tried.Sleep(1), tries - 1)
  }

  function StopMotors(r: Roof): (Roof, bool) {
    var (l, ok) := StopTries(r.line, 3);
    (r.(line := l, stopFailed := !ok, alarms := if ok then r.alarms else r.alarms + 1), ok)
  }

  function Other(motor: nat): nat {
    if motor == OPENING then CLOSING else OPENING
  }

  /** onlyMotor: 1 when only the given motor runs, 0 when not, -1 on error. */
  function OnlyMotor(l: Line, motor: nat): (Line, int) {
    var (seen, ok) := Poll(l);
    (seen, if !ok then -1 else if motor in seen.cacheB && Other(motor) !in seen.cacheB then 1 else 0)
  }

  /** The last step of both starts: the motor on and alone, or everything off again. */
  function PowerUp(r: Roof, motor: nat): (Roof, int) {
    var (started, ok) := SetPins(r.line, {motor});
    var (seen, alone) := if ok then OnlyMotor(started, motor) else (started, 0);
    if alone != 1 then (StopMotors(r.(line := seen)).0, -1)
    else if motor == OPENING then (r.(line := seen, close := NONE, open := Fresh(seen.now)), 0)
    else (r.(line := seen, open := NONE, close := Fresh(seen.now)), 0)
  }

  /** Stops what runs according to the last reading, then waits for it to rest. */
  function ComeToRest(r: Roof, running: bool): (Roof, bool) {
    if !running then (r, true)
    else
      var (stopped, ok) := StopMotors(r);
      (if ok then stopped.(line := stopped.line.Sleep(2)) else stopped, ok)
  }

  function StartOpen(r: Roof): (Roof, int) {
    var (seen, ok) := Poll(r.line);
    var s := r.(line := seen);
    if !ok then (s, -1)
    else if OPENING in seen.cacheB && CLOSING !in seen.cacheB then
      (s.(open := Adopted(s.open, seen.now)), 0)
    else
      var (rested, off) := ComeToRest(s, CLOSING in seen.cacheB);
      if !off then (rested, -1) else PowerUp(rested, OPENING)
  }

  /** startClose once the mount is no obstacle; `closing` is what the first reading showed. */
  function CloseNow(r: Roof, closing: bool): (Roof, int) {
    var r := r.(wait := r.wait.(since := 0, reported := false, parkSentAt := 0));
    if closing then (r.(close := Adopted(r.close, r.line.now)), 0)
    else
      var (rested, off) := ComeToRest(r, OPENING in r.line.cacheB || CLOSING in r.line.cacheB);
      if !off then (rested, -1) else PowerUp(rested, CLOSING)
  }

  /** startClose with a mount that is not in the safe position. */
  function HoldForMount(r: Roof, closing: bool, state: int): (Roof, int) {
    var (held, off) := if closing then StopMotors(r.(close := NONE)) else (r, true);
    if !off then (held, -1)
    else
      var w := WaitingForMount(held.wait, held.line.now);
      (held.(wait := if state == 1 then w else ParkIfDue(w, held.line.now)), 1)
  }

  function StartClose(r: Roof, ignore: bool, mount: Mount): (Roof, int) {
    var (seen, ok) := Poll(r.line);
    var s := r.(line := seen);
    if !ok then (s, -1)
    else
      var closing := CLOSING in seen.cacheB && OPENING !in seen.cacheB;
      var state := MountState(mount, seen.now);
      if ignore || state == 0 || (state == -1 && closing) then CloseNow(s, closing)
      else if state == -1 then (s, -1)
      else HoldForMount(s, closing, state)
  }

  function IsOpened(r: Roof): (Roof, int) {
    var (seen, ok) := Poll(r.line);
    (r.(line := seen),
     if ok && OPENED_SWITCH in seen.cacheA && CLOSING !in seen.cacheB && r.open.min < seen.now then -2
     else if r.open.max != 0 && r.open.max < seen.now then -1
     else USEC_SEC)
  }

  function IsClosed(r: Roof): (Roof, int) {
    var (seen, ok) := Poll(r.line);
    (r.(line := seen),
     if ok && CLOSED_SWITCH in seen.cacheA && OPENING !in seen.cacheB && r.close.min < seen.now then -2
     else if r.close.max != 0 && r.close.max < seen.now then -1
     else USEC_SEC)
  }

  function EndOpen(r: Roof): (Roof, int) {
    var stopped := StopMotors(r.(open := NONE)).0;
    var (seen, ok) := Poll(stopped.line);
    (stopped.(line := seen), if ok && OPENED_SWITCH in seen.cacheA then 0 else -1)
  }

  function EndClose(r: Roof): (Roof, int) {
    var stopped := StopMotors(r.(close := NONE)).0;
    var (seen, ok) := Poll(stopped.line);
    (stopped.(line := seen), if ok && CLOSED_SWITCH in seen.cacheA then 0 else -1)
  }

  function StopAll(r: Roof): (Roof, int) {
    var (stopped, ok) := StopMotors(r.(open := NONE, close := NONE));
    (stopped, if ok then 0 else -1)
  }

  /** init: a motor found running must stop, or the daemon does not start. */
  function Init(r: Roof): (Roof, int) {
    var (seen, ok) := Poll(r.line);
    var s := r.(line := seen);
    if !ok then (s, -1)
    else if OPENING in seen.cacheB || CLOSING in seen.cacheB then
      var (stopped, off) := StopMotors(s);
      (stopped, if off then 0 else -1)
    else (s, 0)
  }

  // ----- What every call keeps

  /** Times the closing output went on, in this record of the port. */
  function Rises(history: seq<Port>): nat {
    var n := |history|;
    if n <= 1 then 0
    else Rises(history[..n - 1]) + (if CLOSING in history[n - 1] && CLOSING !in history[n - 2] then 1 else 0)
  }

  predicate BothOn(port: Port) {
    OPENING in port && CLOSING in port
  }

  /** The two outputs were never on together, and the closing one rose `rises` times. */
  ghost predicate Sound(l: Line, rises: nat) {
    && Recorded(l)
    && l.now > 0
    && (forall i :: 0 <= i < |l.history| ==> !BothOn(l.history[i]))
    && Rises(l.history) == rises
  }

  lemma SoundIdle(l: Line, l': Line, rises: nat)
    requires Sound(l, rises) && Idle(l, l')
    ensures Sound(l', rises)
  {
  }

  lemma SoundRewrite(l: Line, l': Line, port: Port, rises: nat)
    requires Sound(l, rises) && Rewritten(l, l', port) && !BothOn(port)
    ensures Sound(l', if CLOSING in port && CLOSING !in l.relays then rises + 1 else rises)
  {
    assert l'.history[..|l'.history| - 1] == l.history;
  }

  lemma SoundClear(l: Line, pins: Port, rises: nat)
    requires Sound(l, rises)
    ensures var l' := ClearPins(l, pins).0;
            Sound(l', rises) && l.now <= l'.now && (l'.relays == l.relays || l'.relays == l.relays - pins)
  {
    ClearPinsEffect(l, pins);
    var l' := ClearPins(l, pins).0;
    if Idle(l, l') {
      SoundIdle(l, l', rises);
    } else {
      SoundRewrite(l, l', l.relays - pins, rises);
    }
  }

  lemma SoundPoll(l: Line, rises: nat)
    requires Sound(l, rises)
    ensures var (l', ok) := Poll(l);
            Sound(l', rises) && Idle(l, l') && (ok ==> l'.cacheB == l.relays)
  {
    PollIsIdle(l);
    SoundIdle(l, Poll(l).0, rises);
  }

  lemma StopOnceEffect(l: Line, rises: nat)
    requires Sound(l, rises)
    ensures var (l', ok) := StopOnce(l);
            && Sound(l', rises) && l.now <= l'.now
            && (ok ==> OPENING !in l'.relays && CLOSING !in l'.relays)
  {
    SoundClear(l, {OPENING, CLOSING}, rises);
    SoundPoll(ClearPins(l, {OPENING, CLOSING}).0, rises);
  }

  lemma {:induction false} StopTriesEffect(l: Line, tries: nat, rises: nat)
    requires Sound(l, rises)
    ensures var (l', ok) := StopTries(l, tries);
            && Sound(l', rises) && l.now <= l'.now
            && (ok ==> OPENING !in l'.relays && CLOSING !in l'.relays)
    decreases tries
  {
    if tries > 0 {
      StopOnceEffect(l, rises);
      var tried := StopOnce(l).0;
      SoundIdle(tried, tried.Sleep(1), rises);
      StopTriesEffect(tried.Sleep(1), tries - 1, rises);
    }
  }

  predicate IsOpening(r: Roof) { OPENING in r.line.relays }

  predicate IsClosing(r: Roof) { CLOSING in r.line.relays }

  /** Both outputs are off, or the last attempt to switch them off failed. */
  predicate Off(r: Roof) {
    r.stopFailed || (!IsOpening(r) && !IsClosing(r))
  }

  /** An output that is on has its deadline armed, or the last attempt to stop failed. */
  predicate Supervised(r: Roof) {
    && (IsOpening(r) && !r.stopFailed ==> r.open.max != 0)
    && (IsClosing(r) && !r.stopFailed ==> r.close.max != 0)
  }

  lemma StopMotorsEffect(r: Roof, rises: nat)
    requires Sound(r.line, rises)
    ensures var (r', ok) := StopMotors(r);
            && Sound(r'.line, rises) && r.line.now <= r'.line.now
            && Off(r')
            && r'.stopFailed == !ok
            && r' == r.(line := r'.line, stopFailed := !ok, alarms := if ok then r.alarms else r.alarms + 1)
  {
    StopTriesEffect(r.line, 3, rises);
  }

  /** The started motor runs alone under a fresh deadline, or nothing does. */
  lemma PowerUpEffect(r: Roof, motor: nat, rises: nat)
    requires Sound(r.line, rises)
    requires motor == OPENING || motor == CLOSING
    requires Other(motor) !in r.line.relays
    ensures var (r', ret) := PowerUp(r, motor);
            && (Sound(r'.line, rises) || (motor == CLOSING && Sound(r'.line, rises + 1)))
            && r.line.now <= r'.line.now
            && (ret == 0 || ret == -1)
            && (ret == 0 ==>
                  Supervised(r') && IsOpening(r') == (motor == OPENING) && IsClosing(r') == (motor == CLOSING))
            && (ret == -1 ==> Off(r'))
  {
    var (started, ok) := SetPins(r.line, {motor});
    SetPinsEffect(r.line, {motor});
    var rises' := rises;
    if Idle(r.line, started) {
      SoundIdle(r.line, started, rises);
    } else {
      SoundRewrite(r.line, started, r.line.relays + {motor}, rises);
      if CLOSING in started.relays && CLOSING !in r.line.relays {
        rises' := rises + 1;
      }
    }
    var (seen, alone) := if ok then OnlyMotor(started, motor) else (started, 0);
    SoundPoll(started, rises');
    assert Sound(seen, rises') && seen.relays == started.relays;
    if alone != 1 {
      StopMotorsEffect(r.(line := seen), rises');
    }
  }

  /** The call only looked at the board. */
  predicate OnlyLooked(r: Roof, r': Roof) {
    r' == r.(line := r'.line) && Idle(r.line, r'.line)
  }

  lemma ComeToRestEffect(r: Roof, running: bool, rises: nat)
    requires Sound(r.line, rises)
    requires !running ==> !IsOpening(r) && !IsClosing(r)
    ensures var (r', ok) := ComeToRest(r, running);
            && Sound(r'.line, rises) && r.line.now <= r'.line.now && Off(r')
            && (ok ==> !IsOpening(r') && !IsClosing(r'))
  {
    if running {
      StopMotorsEffect(r, rises);
      var (stopped, ok) := StopMotors(r);
      SoundIdle(stopped.line, stopped.line.Sleep(2), rises);
    }
  }

  lemma StartOpenEffect(r: Roof, rises: nat)
    requires Sound(r.line, rises) && Supervised(r)
    ensures var (r', ret) := StartOpen(r);
            && Sound(r'.line, rises) && Supervised(r')
            && (ret == 0 || ret == -1)
            && (ret == 0 ==> IsOpening(r') && !IsClosing(r'))
            && (ret == -1 ==> Off(r') || OnlyLooked(r, r'))
  {
    SoundPoll(r.line, rises);
    var (seen, ok) := Poll(r.line);
    var s := r.(line := seen);
    if ok && !(OPENING in seen.cacheB && CLOSING !in seen.cacheB) {
      ComeToRestEffect(s, CLOSING in seen.cacheB, rises);
      var (rested, off) := ComeToRest(s, CLOSING in seen.cacheB);
      if off {
        PowerUpEffect(rested, OPENING, rises);
      }
    }
  }

  lemma CloseNowEffect(r: Roof, closing: bool, rises: nat)
    requires Sound(r.line, rises) && Supervised(r)
    requires r.line.cacheB == r.line.relays && closing == (IsClosing(r) && !IsOpening(r))
    ensures var (r', ret) := CloseNow(r, closing);
            && (Sound(r'.line, rises) || (Sound(r'.line, rises + 1) && !closing)) && Supervised(r')
            && (ret == 0 || ret == -1)
            && (ret == 0 ==> IsClosing(r') && !IsOpening(r'))
            && (ret == -1 ==> Off(r'))
  {
    if !closing {
      var s := r.(wait := r.wait.(since := 0, reported := false, parkSentAt := 0));
      var running := OPENING in r.line.cacheB || CLOSING in r.line.cacheB;
      ComeToRestEffect(s, running, rises);
      var (rested, off) := ComeToRest(s, running);
      if off {
        PowerUpEffect(rested, CLOSING, rises);
      }
    }
  }

  lemma HoldForMountEffect(r: Roof, closing: bool, state: int, rises: nat)
    requires Sound(r.line, rises) && Supervised(r)
    ensures var (r', ret) := HoldForMount(r, closing, state);
            && Sound(r'.line, rises) && Supervised(r')
            && (ret == 1 || ret == -1)
            && (closing ==> Off(r') && (ret == 1 ==> !r'.stopFailed))
            && (!closing ==> ret == 1 && r'.line == r.line && r'.stopFailed == r.stopFailed
                             && r'.open == r.open && r'.close == r.close)
  {
    if closing {
      StopMotorsEffect(r.(close := NONE), rises);
    }
  }

  /**
    startClose: 0 only with the closing output on alone, 1 only while a mount known
    to be moving or outside is waited for; the closing output rises only past a mount
    found safe or ignored.
  */
  lemma StartCloseEffect(r: Roof, ignore: bool, mount: Mount, rises: nat)
    requires Sound(r.line, rises) && Supervised(r)
    ensures var (r', ret) := StartClose(r, ignore, mount);
            var state := MountState(mount, r.line.Used().now);
            && (Sound(r'.line, rises) || (Sound(r'.line, rises + 1) && (ignore || state == 0)))
            && Supervised(r')
            && (ret == 0 || ret == -1 || ret == 1)
            && (ret == 0 ==> IsClosing(r') && !IsOpening(r'))
            && (ret == -1 ==> Off(r') || OnlyLooked(r, r'))
            && (ret == 1 ==> !ignore && (state == 1 || state == 2) && r.line.Next().answered)
            && (ret == 1 && IsOpening(r) ==> IsOpening(r') && r'.stopFailed == r.stopFailed)
            && (ret == 1 && !IsOpening(r) ==> Off(r'))
  {
    SoundPoll(r.line, rises);
    var (seen, ok) := Poll(r.line);
    var s := r.(line := seen);
    if ok {
      var closing := CLOSING in seen.cacheB && OPENING !in seen.cacheB;
      var state := MountState(mount, seen.now);
      if ignore || state == 0 || (state == -1 && closing) {
        CloseNowEffect(s, closing, rises);
      } else if state != -1 {
        HoldForMountEffect(s, closing, state, rises);
      }
    }
  }

  /**
    The polls only look; "opened" and "closed" need the switch and no motor running
    the other way, and "keep waiting" is never answered past the deadline.
  */
  lemma PollsRespectTheDeadlines(r: Roof, rises: nat)
    requires Sound(r.line, rises)
    ensures var (r', ret) := IsOpened(r);
            && OnlyLooked(r, r') && Sound(r'.line, rises)
            && (ret == -2 || ret == -1 || ret == USEC_SEC)
            && (ret == -2 ==> OPENED_SWITCH in r.line.Next().inputs && !IsClosing(r))
            && (ret == USEC_SEC ==> r.open.max == 0 || r'.line.now <= r.open.max)
    ensures var (r', ret) := IsClosed(r);
            && OnlyLooked(r, r') && Sound(r'.line, rises)
            && (ret == -2 || ret == -1 || ret == USEC_SEC)
            && (ret == -2 <==> r.line.Next().answered && CLOSED_SWITCH in r.line.Next().inputs
                               && !IsOpening(r) && r.close.min < r'.line.now)
            && (ret == USEC_SEC ==> r.close.max == 0 || r'.line.now <= r.close.max)
  {
    SoundPoll(r.line, rises);
  }

  lemma EndsEffect(r: Roof, rises: nat)
    requires Sound(r.line, rises) && Supervised(r)
    ensures var (r', ret) := EndOpen(r);
            Sound(r'.line, rises) && Supervised(r') && Off(r') && (ret == 0 || ret == -1)
    ensures var (r', ret) := EndClose(r);
            Sound(r'.line, rises) && Supervised(r') && Off(r') && (ret == 0 || ret == -1)
  {
    StopMotorsEffect(r.(open := NONE), rises);
    SoundPoll(StopMotors(r.(open := NONE)).0.line, rises);
    StopMotorsEffect(r.(close := NONE), rises);
    SoundPoll(StopMotors(r.(close := NONE)).0.line, rises);
  }

  lemma StopAllEffect(r: Roof, rises: nat)
    requires Sound(r.line, rises) && Supervised(r)
    ensures var (r', ret) := StopAll(r);
            && Sound(r'.line, rises) && Supervised(r') && Off(r')
            && (ret == 0 <==> !r'.stopFailed) && (ret == 0 || ret == -1)
  {
    StopMotorsEffect(r.(open := NONE, close := NONE), rises);
  }

  // ----- Any sequence of driver calls

  datatype Call =
    | AskOpen
    | AskClose(ignore: bool, mount: Mount)
    | PollOpened
    | PollClosed
    | FinishOpening
    | FinishClosing
    | AskStop

  function Perform(r: Roof, c: Call): Roof {
    match c
    case AskOpen => StartOpen(r).0
    case AskClose(ignore, mount) => StartClose(r, ignore, mount).0
    case PollOpened => IsOpened(r).0
    case PollClosed => IsClosed(r).0
    case FinishOpening => EndOpen(r).0
    case FinishClosing => EndClose(r).0
    case AskStop => StopAll(r).0
  }

  function PerformAll(r: Roof, calls: seq<Call>): Roof {
    if calls == [] then r else Perform(PerformAll(r, calls[..|calls| - 1]), calls[|calls| - 1])
  }

  lemma PerformKeeps(r: Roof, c: Call, rises: nat)
    requires Sound(r.line, rises) && Supervised(r)
    ensures Supervised(Perform(r, c))
    ensures Sound(Perform(r, c).line, rises)
            || (Sound(Perform(r, c).line, rises + 1)
                && c.AskClose? && (c.ignore || MountState(c.mount, r.line.Used().now) == 0))
  {
    match c
    case AskOpen => StartOpenEffect(r, rises);
    case AskClose(ignore, mount) => StartCloseEffect(r, ignore, mount, rises);
    case PollOpened => PollsRespectTheDeadlines(r, rises);
    case PollClosed => PollsRespectTheDeadlines(r, rises);
    case FinishOpening => EndsEffect(r, rises);
    case FinishClosing => EndsEffect(r, rises);
    case AskStop => StopAllEffect(r, rises);
  }

  /** After a successful init, whatever the board was doing before; the record starts here. */
  predicate Started(before: Roof, r: Roof) {
    && before.open == NONE && before.close == NONE && before.line.now > 0
    && Init(before).1 == 0
    && r == Init(before).0.(line := Init(before).0.line.(history := [Init(before).0.line.relays]))
  }

  lemma {:induction false} InitStopsTries(l: Line, tries: nat)
    ensures var (l', ok) := StopTries(l, tries);
            l.now <= l'.now && (ok ==> OPENING !in l'.relays && CLOSING !in l'.relays)
    decreases tries
  {
    if tries > 0 {
      ClearPinsEffect(l, {OPENING, CLOSING});
      PollIsIdle(ClearPins(l, {OPENING, CLOSING}).0);
      InitStopsTries(StopOnce(l).0.Sleep(1), tries - 1);
    }
  }

  lemma StartedIsSound(before: Roof, r: Roof)
    requires Started(before, r)
    ensures Sound(r.line, 0) && Supervised(r)
  {
    PollIsIdle(before.line);
    InitStopsTries(Poll(before.line).0, 3);
  }

  /**
    From a successful init on, in every sequence of driver calls, with reads that
    fail and writes that get lost: at no moment were both outputs on, and between
    calls an output that is on has its deadline armed, unless the last attempt to
    switch the outputs off failed.
  */
  lemma {:induction false} NeverBothOutputs(before: Roof, r: Roof, calls: seq<Call>)
    requires Started(before, r)
    ensures var r' := PerformAll(r, calls);
            && Sound(r'.line, Rises(r'.line.history))
            && (forall i :: 0 <= i < |r'.line.history| ==> !BothOn(r'.line.history[i]))
            && (IsOpening(r') && !r'.stopFailed ==> r'.open.max != 0)
            && (IsClosing(r') && !r'.stopFailed ==> r'.close.max != 0)
  {
    if calls == [] {
      StartedIsSound(before, r);
    } else {
      var n := |calls| - 1;
      NeverBothOutputs(before, r, calls[..n]);
      var r' := PerformAll(r, calls[..n]);
      PerformKeeps(r', calls[n], Rises(r'.line.history));
    }
  }

  /**
    The closing output goes on only in a startClose call made while the mount is
    ignored or was found safe, whatever calls came before.
  */
  lemma ClosingNeedsSafeMount(before: Roof, r: Roof, calls: seq<Call>, c: Call)
    requires Started(before, r)
    requires var r' := PerformAll(r, calls);
             Rises(Perform(r', c).line.history) != Rises(r'.line.history)
    ensures c.AskClose?
            && (c.ignore || MountState(c.mount, PerformAll(r, calls).line.Used().now) == 0)
  {
    NeverBothOutputs(before, r, calls);
    var r' := PerformAll(r, calls);
    PerformKeeps(r', c, Rises(r'.line.history));
  }

  /** What getMountState calls safe: heard from within 10 s, at rest, and inside. */
  lemma SafeMount(m: Mount, now: int)
    ensures MountState(m, now) == 0
            <==> m.Ready? && m.infotime != [] && now <= m.infotime[0] + 10
                 && m.motion == AtRest && m.insideDome != [] && m.insideDome[0] == 1
  {
  }

  /** Known to be in the way: heard from within 10 s, and moving, or at rest outside. */
  lemma MountStates(m: Mount, now: int)
    ensures MountState(m, now) == 1 <==>
            m.Ready? && m.infotime != [] && now <= m.infotime[0] + 10 && m.insideDome != [] && m.motion != AtRest
    ensures MountState(m, now) == 2 <==>
            && m.Ready? && m.infotime != [] && now <= m.infotime[0] + 10 && m.insideDome != []
            && m.motion == AtRest && m.insideDome[0] != 1
    ensures -1 <= MountState(m, now) <= 2
  {
  }

  // ----- A close that waits for the mount

  /**
    The telescope is told to park if and only if it rests outside and was not told so for
    30 s, counted from the last park of this wait; then the park is dated now.
  */
  lemma ParksOnlyARestingMount(r: Roof, ignore: bool, mount: Mount)
    ensures var (r', ret) := StartClose(r, ignore, mount);
            var told := ret == 1 && MountState(mount, r.line.Used().now) == 2
                        && r'.line.now >= r.wait.parkSentAt + 30;
            && r'.wait.parks == r.wait.parks + (if told then 1 else 0)
            && (told ==> r'.wait.parkSentAt == r'.line.now)
            && (ret == 1 && !told ==> r'.wait.parkSentAt == r.wait.parkSentAt)
  {
    MountStates(mount, r.line.Used().now);
  }

  /**
    A wait goes on if the close was held up within the last 10 s, else it begins now; it is
    reported as critical once, when it has lasted 90 s.
  */
  lemma LongWaitIsReported(r: Roof, ignore: bool, mount: Mount)
    ensures var (r', ret) := StartClose(r, ignore, mount);
            var now := r'.line.now;
            var goesOn := r.wait.since != 0 && now <= r.wait.last + 10;
            && (ret == 1 ==>
                  && r'.wait.last == now
                  && r'.wait.since == (if goesOn then r.wait.since else now)
                  && (r'.wait.reported <==> (goesOn && r.wait.reported) || now >= r'.wait.since + 90))
            && r'.wait.reports == r.wait.reports
                 + (if ret == 1 && now >= r'.wait.since + 90 && !(goesOn && r.wait.reported) then 1 else 0)
  {
  }

  /** Whether a close gets past the mount is decided by its first reading. */
  predicate GoesOn(r: Roof, ignore: bool, mount: Mount) {
    && r.line.Next().answered
    && (ignore || MountState(mount, r.line.Used().now) == 0
        || (MountState(mount, r.line.Used().now) == -1 && IsClosing(r) && !IsOpening(r)))
  }

  /** Past the mount nothing of the wait is left; a close that fails before leaves it as it was. */
  lemma WaitEndsWithTheMountSafe(r: Roof, ignore: bool, mount: Mount)
    ensures var (r', ret) := StartClose(r, ignore, mount);
            && (GoesOn(r, ignore, mount) ==>
                  ret != 1 && r'.wait.since == 0 && !r'.wait.reported && r'.wait.parkSentAt == 0)
            && (!GoesOn(r, ignore, mount) && ret != 1 ==> ret == -1 && r'.wait == r.wait)
            && (ret == 1 ==> MountState(mount, r.line.Used().now) == 1 || MountState(mount, r.line.Used().now) == 2)
  {
    MountStates(mount, r.line.Used().now);
    if GoesOn(r, ignore, mount) {
      var seen := r.(line := Poll(r.line).0);
      CloseNowWaits(seen, IsClosing(r) && !IsOpening(r));
    }
  }

  lemma CloseNowWaits(r: Roof, closing: bool)
    ensures var (r', ret) := CloseNow(r, closing);
            ret != 1 && r'.wait == r.wait.(since := 0, reported := false, parkSentAt := 0)
  {
  }

  // ----- The deadlines

  /** A start that succeeds gives the move 40 s and 2 s of dead time from its return, and the other none. */
  lemma PowerUpDeadlines(r: Roof, motor: nat)
    requires motor == OPENING || motor == CLOSING
    ensures var (r', ret) := PowerUp(r, motor);
            var begun := Deadline(r'.line.now + 40, r'.line.now + 2);
            && (ret == 0 ==> r'.open == (if motor == OPENING then begun else NONE)
                             && r'.close == (if motor == OPENING then NONE else begun))
            && (ret != 0 ==> ret == -1 && r'.open == r.open && r'.close == r.close)
  {
  }

  /** A move found running keeps its deadline, or gets 40 s and no dead time. */
  function Found(d: Deadline, now: int): Deadline {
    if d.max != 0 then d else Deadline(now + 40, now)
  }

  lemma OpeningDeadlines(r: Roof)
    ensures var (r', ret) := StartOpen(r);
            && (ret == 0 && IsOpening(r) && !IsClosing(r) ==>
                  r'.open == Found(r.open, r'.line.now) && r'.close == r.close)
            && (ret == 0 && !(IsOpening(r) && !IsClosing(r)) ==>
                  r'.open == Deadline(r'.line.now + 40, r'.line.now + 2) && r'.close == NONE)
            && (ret != 0 ==> ret == -1 && r'.open == r.open && r'.close == r.close)
  {
    var s := r.(line := Poll(r.line).0);
    PollIsIdle(r.line);
    PowerUpDeadlines(ComeToRest(s, CLOSING in s.line.cacheB).0, OPENING);
  }

  /** A close that has to stop for the mount drops its deadline. */
  lemma ClosingDeadlines(r: Roof, ignore: bool, mount: Mount)
    ensures var (r', ret) := StartClose(r, ignore, mount);
            var running := IsClosing(r) && !IsOpening(r);
            var held := r.line.Next().answered && !GoesOn(r, ignore, mount) && MountState(mount, r.line.Used().now) > 0;
            && (ret == 0 && running ==> r'.close == Found(r.close, r'.line.now) && r'.open == r.open)
            && (ret == 0 && !running ==>
                  r'.close == Deadline(r'.line.now + 40, r'.line.now + 2) && r'.open == NONE)
            && (ret != 0 ==> r'.open == r.open && r'.close == if held && running then NONE else r.close)
  {
    PollIsIdle(r.line);
    MountStates(mount, r.line.Used().now);
    if GoesOn(r, ignore, mount) {
      CloseNowDeadlines(r.(line := Poll(r.line).0));
    }
  }

  lemma CloseNowDeadlines(r: Roof)
    requires r.line.cacheB == r.line.relays
    ensures var running := IsClosing(r) && !IsOpening(r);
            var (r', ret) := CloseNow(r, running);
            && (ret == 0 && running ==> r'.close == Found(r.close, r'.line.now) && r'.open == r.open)
            && (ret == 0 && !running ==>
                  r'.close == Deadline(r'.line.now + 40, r'.line.now + 2) && r'.open == NONE)
            && (ret != 0 ==> r'.open == r.open && r'.close == r.close)
  {
    var s := r.(wait := r.wait.(since := 0, reported := false, parkSentAt := 0));
    PowerUpDeadlines(ComeToRest(s, OPENING in r.line.cacheB || CLOSING in r.line.cacheB).0, CLOSING);
  }

  /** The end of a move and a stop disarm their deadlines; success is seen on the switch afterwards. */
  lemma EndsDisarm(r: Roof)
    ensures var (r', ret) := EndOpen(r);
            var l := StopMotors(r.(open := NONE)).0.line;
            && r'.open == NONE && r'.close == r.close && r'.wait == r.wait
            && (ret == 0 <==> l.Next().answered && OPENED_SWITCH in l.Next().inputs)
    ensures var (r', ret) := EndClose(r);
            var l := StopMotors(r.(close := NONE)).0.line;
            && r'.close == NONE && r'.open == r.open && r'.wait == r.wait
            && (ret == 0 <==> l.Next().answered && CLOSED_SWITCH in l.Next().inputs)
    ensures var r' := StopAll(r).0; r'.open == NONE && r'.close == NONE && r'.wait == r.wait
  {
  }

  /** What the polls answer, exactly: the end of the move, its deadline missed, or wait. */
  lemma PollAnswers(r: Roof)
    ensures var (r', ret) := IsOpened(r);
            && (ret == -2 <==> r.line.Next().answered && OPENED_SWITCH in r.line.Next().inputs
                               && !IsClosing(r) && r.open.min < r'.line.now)
            && (ret == -1 <==> ret != -2 && r.open.max != 0 && r.open.max < r'.line.now)
            && (ret >= 0 <==> ret != -1 && ret != -2)
    ensures var (r', ret) := IsClosed(r);
            && (ret == -2 <==> r.line.Next().answered && CLOSED_SWITCH in r.line.Next().inputs
                               && !IsOpening(r) && r.close.min < r'.line.now)
            && (ret == -1 <==> ret != -2 && r.close.max != 0 && r.close.max < r'.line.now)
            && (ret >= 0 <==> ret != -1 && ret != -2)
  {
    PollIsIdle(r.line);
  }

  // ----- On a line that does what it should

  lemma HealthyStop(r: Roof, n: nat)
    requires Healthy(r.line, n) && n >= 4
    ensures var (r', ok) := StopMotors(r);
            && ok && r' == r.(line := r'.line, stopFailed := false)
            && r'.line.relays == r.line.relays - {OPENING, CLOSING} && Healthy(r'.line, n - 4)
            && r.line.now <= r'.line.now
  {
    HealthyRewrite(r.line, {OPENING, CLOSING}, n);
    HealthyPoll(ClearPins(r.line, {OPENING, CLOSING}).0, n - 3);
    ClearPinsEffect(r.line, {OPENING, CLOSING});
    PollIsIdle(ClearPins(r.line, {OPENING, CLOSING}).0);
  }

  lemma HealthyPowerUp(r: Roof, motor: nat, n: nat)
    requires Healthy(r.line, n) && n >= 4 && (motor == OPENING || motor == CLOSING)
    requires Other(motor) !in r.line.relays
    ensures var (r', ret) := PowerUp(r, motor);
            && ret == 0 && r'.line.relays == r.line.relays + {motor} && r.line.now <= r'.line.now
            && r'.stopFailed == r.stopFailed
  {
    HealthyRewrite(r.line, {motor}, n);
    HealthyPoll(SetPins(r.line, {motor}).0, n - 3);
    SetPinsEffect(r.line, {motor});
    PollIsIdle(SetPins(r.line, {motor}).0);
  }

  /** A motor that runs is stopped, and rests for two seconds. */
  lemma HealthyRest(r: Roof, running: bool, n: nat)
    requires Healthy(r.line, n) && n >= 8
    ensures var (r', ok) := ComeToRest(r, running);
            && ok && Healthy(r'.line, 4)
            && r'.line.relays == (if running then r.line.relays - {OPENING, CLOSING} else r.line.relays)
            && r'.line.now >= r.line.now + (if running then 2 else 0)
  {
    if running {
      HealthyStop(r, n);
    }
  }

  /** An open request runs the opening motor alone, after a rest if the other one ran. */
  lemma HealthyOpen(r: Roof)
    requires Healthy(r.line, 9)
    ensures var (r', ret) := StartOpen(r);
            && ret == 0
            && r'.line.relays == r.line.relays - {CLOSING} + {OPENING}
            && (IsClosing(r) ==> r'.line.now >= r.line.now + 2)
  {
    HealthyPoll(r.line, 9);
    PollIsIdle(r.line);
    var s := r.(line := Poll(r.line).0);
    if IsOpening(r) && !IsClosing(r) {
      assert r.line.relays - {CLOSING} + {OPENING} == r.line.relays;
    } else {
      HealthyRest(s, IsClosing(r), 8);
      var rested := ComeToRest(s, IsClosing(r)).0;
      HealthyPowerUp(rested, OPENING, 4);
      assert rested.line.relays + {OPENING} == r.line.relays - {CLOSING} + {OPENING};
    }
  }

  /** Past a safe or ignored mount a close request does likewise. */
  lemma HealthyClose(r: Roof, ignore: bool, mount: Mount)
    requires Healthy(r.line, 9) && (ignore || MountState(mount, r.line.Used().now) == 0)
    ensures var (r', ret) := StartClose(r, ignore, mount);
            && ret == 0
            && r'.line.relays == r.line.relays - {OPENING} + {CLOSING}
            && (IsOpening(r) ==> r'.line.now >= r.line.now + 2)
  {
    HealthyPoll(r.line, 9);
    PollIsIdle(r.line);
    var s := r.(line := Poll(r.line).0, wait := r.wait.(since := 0, reported := false, parkSentAt := 0));
    if IsClosing(r) && !IsOpening(r) {
      assert r.line.relays - {OPENING} + {CLOSING} == r.line.relays;
    } else {
      HealthyRest(s, IsOpening(r) || IsClosing(r), 8);
      var rested := ComeToRest(s, IsOpening(r) || IsClosing(r)).0;
      HealthyPowerUp(rested, CLOSING, 4);
      assert rested.line.relays + {CLOSING} == r.line.relays - {OPENING} + {CLOSING};
    }
  }

  /** With the mount in the way a closing roof is stopped and waits, with no motor on but one that opens. */
  lemma HealthyHold(r: Roof, mount: Mount)
    requires Healthy(r.line, 5) && MountState(mount, r.line.Used().now) > 0
    ensures var (r', ret) := StartClose(r, false, mount);
            && ret == 1
            && r'.line.relays == if IsOpening(r) then r.line.relays else r.line.relays - {CLOSING}
  {
    HealthyPoll(r.line, 5);
    MountStates(mount, r.line.Used().now);
    if IsClosing(r) && !IsOpening(r) {
      HealthyStop(r.(line := Poll(r.line).0, close := NONE), 4);
    }
  }

  /** The ends of both moves and a stop switch both motors off. */
  lemma HealthyEnds(r: Roof)
    requires Healthy(r.line, 5)
    ensures var r' := EndOpen(r).0;
            r'.line.relays == r.line.relays - {OPENING, CLOSING} == r'.line.cacheB && !r'.stopFailed
    ensures var r' := EndClose(r).0;
            r'.line.relays == r.line.relays - {OPENING, CLOSING} == r'.line.cacheB && !r'.stopFailed
    ensures var (r', ret) := StopAll(r);
            ret == 0 && r'.line.relays == r.line.relays - {OPENING, CLOSING}
  {
    HealthyStop(r.(open := NONE), 5);
    HealthyPoll(StopMotors(r.(open := NONE)).0.line, 1);
    HealthyStop(r.(close := NONE), 5);
    HealthyPoll(StopMotors(r.(close := NONE)).0.line, 1);
    HealthyStop(r.(open := NONE, close := NONE), 5);
  }

  /** So does a start of the daemon, which fails only on a line that does not. */
  lemma HealthyInit(r: Roof)
    requires Healthy(r.line, 5)
    ensures var (r', ret) := Init(r);
            ret == 0 && r'.line.relays == r.line.relays - {OPENING, CLOSING} && r'.open == r.open && r'.close == r.close
  {
    HealthyPoll(r.line, 5);
    if IsOpening(r) || IsClosing(r) {
      HealthyStop(r.(line := Poll(r.line).0), 4);
    } else {
      assert r.line.relays - {OPENING, CLOSING} == r.line.relays;
    }
  }

  /** The driver itself: deadlines and the mount wait beside the connection, updated in place. */
  class D50Roof {
    const conn: FordConn
    var open: Deadline
    var close: Deadline
    var wait: Wait
    ghost var stopFailed: bool
    ghost var alarms: nat

    ghost predicate Valid()
      reads this, conn
    {
      conn.Valid()
    }

    ghost function Model(): Roof
      requires Valid()
      reads this, conn, conn.stav
    {
      Roof(conn.Model(), open, close, wait, stopFailed, alarms)
    }

    constructor (conn: FordConn)
      requires conn.Valid()
      ensures this.conn == conn && Valid()
      ensures Model() == Roof(conn.Model(), NONE, NONE, Wait(0, 0, false, 0, 0, 0), false, 0)
    {
      this.conn := conn;
      open, close, wait := NONE, NONE, Wait(0, 0, false, 0, 0, 0);
      stopFailed, alarms := false, 0;
    }

    method TryToHalt() returns (ok: bool)
      requires Valid()
      modifies conn, conn.stav
      ensures Valid() && (conn.Model(), ok) == StopOnce(old(conn.Model()))
    {
      ok := conn.SwitchOff({OPENING, CLOSING});
      if ok {
        ok := conn.ReadPorts();
        ok := ok && OPENING !in conn.stav[1] && CLOSING !in conn.stav[1];
      }
    }

    method Halt() returns (ok: bool)
      requires Valid()
      modifies this, conn, conn.stav
      ensures Valid() && (Model(), ok) == StopMotors(old(Model()))
    {
      ok := false;
      for i := 0 to 3
        invariant Valid() && !ok
        invariant Model() == old(Model()).(line := conn.Model())
        invariant StopTries(conn.Model(), 3 - i) == StopTries(old(conn.Model()), 3)
      {
        ok := TryToHalt();
        if ok {
          stopFailed := false;
          return;
        }
        conn.Sleep(1);
      }
      stopFailed, alarms := true, alarms + 1;
    }

    method Run(motor: nat) returns (ret: int)
      requires Valid()
      modifies this, conn, conn.stav
      ensures Valid() && (Model(), ret) == PowerUp(old(Model()), motor)
    {
      var alone := conn.SwitchOn({motor});
      if alone {
        alone := conn.ReadPorts();
        alone := alone && motor in conn.stav[1] && Other(motor) !in conn.stav[1];
      }
      if !alone {
        var _ := Halt();
        return -1;
      }
      if motor == OPENING {
        close, open := NONE, Fresh(conn.now);
      } else {
        open, close := NONE, Fresh(conn.now);
      }
      ret := 0;
    }

    method Rest(running: bool) returns (ok: bool)
      requires Valid()
      modifies this, conn, conn.stav
      ensures Valid() && (Model(), ok) == ComeToRest(old(Model()), running)
    {
      if !running {
        return true;
      }
      ok := Halt();
      if ok {
        conn.Sleep(2);
      }
    }

    method Open() returns (ret: int)
      requires Valid()
      modifies this, conn, conn.stav
      ensures Valid() && (Model(), ret) == StartOpen(old(Model()))
    {
      var ok := conn.ReadPorts();
      if !ok {
        return -1;
      }
      if OPENING in conn.stav[1] && CLOSING !in conn.stav[1] {
        if open.max == 0 {
          open := Deadline(conn.now + TRAVEL_TIME, conn.now);
        }
        return 0;
      }
      var off := Rest(CLOSING in conn.stav[1]);
      if !off {
        return -1;
      }
      ret := Run(OPENING);
    }

    method MountIsSafe(closing: bool) returns (ret: int)
      requires Valid()
      modifies this, conn, conn.stav
      ensures Valid() && (Model(), ret) == CloseNow(old(Model()), closing)
    {
      wait := wait.(since := 0, reported := false, parkSentAt := 0);
      if closing {
        if close.max == 0 {
          close := Deadline(conn.now + TRAVEL_TIME, conn.now);
        }
        return 0;
      }
      var off := Rest(OPENING in conn.stav[1] || CLOSING in conn.stav[1]);
      if !off {
        return -1;
      }
      ret := Run(CLOSING);
    }

    method NoteWaiting()
      modifies this`wait
      ensures wait == WaitingForMount(old(wait), conn.now)
    {
      if wait.since == 0 || conn.now - wait.last > 10 {
        wait := wait.(since := conn.now, reported := false);
      }
      wait := wait.(last := conn.now);
      if wait.reported || conn.now - wait.since < WAIT_ALARM {
        return;
      }
      wait := wait.(reported := true, reports := wait.reports + 1);
    }

    method Park()
      modifies this`wait
      ensures wait == ParkIfDue(old(wait), conn.now)
    {
      if conn.now - wait.parkSentAt >= PARK_REPEAT {
        wait := wait.(parkSentAt := conn.now, parks := wait.parks + 1);
      }
    }

    method MountInTheWay(closing: bool, state: int) returns (ret: int)
      requires Valid()
      modifies this, conn, conn.stav
      ensures Valid() && (Model(), ret) == HoldForMount(old(Model()), closing, state)
    {
      if closing {
        close := NONE;
        var off := Halt();
        if !off {
          return -1;
        }
      }
      NoteWaiting();
      if state != 1 {
        Park();
      }
      ret := 1;
    }

    method Close(ignore: bool, mount: Mount) returns (ret: int)
      requires Valid()
      modifies this, conn, conn.stav
      ensures Valid() && (Model(), ret) == StartClose(old(Model()), ignore, mount)
    {
      var ok := conn.ReadPorts();
      if !ok {
        return -1;
      }
      var closing := CLOSING in conn.stav[1] && OPENING !in conn.stav[1];
      if !ignore {
        var state := MountState(mount, conn.now);
        if state == 1 || state == 2 {
          ret := MountInTheWay(closing, state);
          return;
        }
        if state == -1 && !closing {
          return -1;
        }
      }
      ret := MountIsSafe(closing);
    }

    method IsOpen() returns (ret: int)
      requires Valid()
      modifies conn, conn.stav
      ensures Valid() && (Model(), ret) == IsOpened(old(Model()))
    {
      var ok := conn.ReadPorts();
      if ok && OPENED_SWITCH in conn.stav[0] && CLOSING !in conn.stav[1] && open.min < conn.now {
        return -2;
      }
      if open.max != 0 && open.max < conn.now {
        return -1;
      }
      ret := USEC_SEC;
    }

    method IsShut() returns (ret: int)
      requires Valid()
      modifies conn, conn.stav
      ensures Valid() && (Model(), ret) == IsClosed(old(Model()))
    {
      var ok := conn.ReadPorts();
      if ok && CLOSED_SWITCH in conn.stav[0] && OPENING !in conn.stav[1] && close.min < conn.now {
        return -2;
      }
      if close.max != 0 && close.max < conn.now {
        return -1;
      }
      ret := USEC_SEC;
    }

    method FinishOpen() returns (ret: int)
      requires Valid()
      modifies this, conn, conn.stav
      ensures Valid() && (Model(), ret) == EndOpen(old(Model()))
    {
      open := NONE;
      var _ := Halt();
      var ok := conn.ReadPorts();
      ret := if ok && OPENED_SWITCH in conn.stav[0] then 0 else -1;
    }

    method FinishClose() returns (ret: int)
      requires Valid()
      modifies this, conn, conn.stav
      ensures Valid() && (Model(), ret) == EndClose(old(Model()))
    {
      close := NONE;
      var _ := Halt();
      var ok := conn.ReadPorts();
      ret := if ok && CLOSED_SWITCH in conn.stav[0] then 0 else -1;
    }

    method Stop() returns (ret: int)
      requires Valid()
      modifies this, conn, conn.stav
      ensures Valid() && (Model(), ret) == StopAll(old(Model()))
    {
      open, close := NONE, NONE;
      var ok := Halt();
      ret := if ok then 0 else -1;
    }

    method Start() returns (ret: int)
      requires Valid()
      modifies this, conn, conn.stav
      ensures Valid() && (Model(), ret) == Init(old(Model()))
    {
      var ok := conn.ReadPorts();
      if !ok {
        return -1;
      }
      if OPENING in conn.stav[1] || CLOSING in conn.stav[1] {
        var off := Halt();
        if !off {
          return -1;
        }
      }
      ret := 0;
    }
  }
}
