/**
  The BART roof driver (base/dome/bart/bart.cpp): one motor output and one
  direction output on the port that also carries six wall sockets.
*/
module Bart {
  import opened Ford

  // relay outputs (port B) and end switches (port A)
  const MOTOR: nat := 6
  const SMER: nat := 7
  const CLOSED_SWITCH: nat := 1
  const OPENED_SWITCH: nat := 2
  const SOCKETS: nat := 6

  const TRAVEL_TIME := 20
  const USEC_SEC := 1000000

  /**
    `openTimeout` and `closeTimeout` are 0 when not armed. `stopFailed` tells how
    the last stopMotor ended and `alarms` counts its CRITICAL "cannot switch the
    roof motor off"; the source only logs these two.
  */
  datatype Roof = Roof(line: Line, openTimeout: int, closeTimeout: int, stopFailed: bool, alarms: nat)

  /** One attempt of stopMotor: the write, then the check that it worked. */
  function StopOnce(l: Line): (Line, bool) {
    var (cleared, ok) := ClearPins(l, {MOTOR});
    if !ok then (cleared, false)
    else
      var (checked, on) := OutputOn(cleared, MOTOR);
      (checked, on == 1)
  }

  function StopTries(l: Line, tries: nat): (Line, bool)
    decreases tries
  {
    if tries == 0 then (l, false)
    else
      var (tried, ok) := StopOnce(l);
      if ok then (tried, true) else StopTries(tried.Sleep(1), tries - 1)
  }

  function StopMotor(r: Roof): (Roof, bool) {
    var (l, ok) := StopTries(r.line, 3);
    (r.(line := l, stopFailed := !ok, alarms := if ok then r.alarms else r.alarms + 1), ok)
  }

  function MotorRunning(l: Line, closing: bool): (Line, bool) {
    var (seen, ok) := Poll(l);
    (seen, ok && MOTOR in seen.cacheB && (SMER in seen.cacheB) == closing)
  }

  function EndOpen(r: Roof): (Roof, int) {
    var (stopped, ok) := StopMotor(r);
    (stopped.(line := Poll(stopped.line).0, openTimeout := 0), if ok then 0 else -1)
  }

  function EndClose(r: Roof): (Roof, int) {
    var (stopped, ok) := StopMotor(r.(closeTimeout := 0));
    var (released, _) := ClearPins(stopped.line.Sleep(1), {SMER});
    (stopped.(line := Poll(released).0), if ok then 0 else -1)
  }

  /** The direction output is set and read back. */
  function Turn(l: Line, closing: bool): (Line, bool) {
    var (turned, ok) := if closing then SetPins(l, {SMER}) else ClearPins(l, {SMER});
    if !ok then (turned, false)
    else
      var (checked, dir) := OutputOn(turned, SMER);
      (checked, dir == if closing then 0 else 1)
  }

  /** The motor output is set; the answer is whether the motor is seen running the right way. */
  function SwitchMotorOn(l: Line, closing: bool): (Line, bool) {
    var (started, ok) := SetPins(l, {MOTOR});
    if ok then MotorRunning(started, closing) else (started, false)
  }

  /** The motor is switched on; unless it is seen running the right way it is stopped again. */
  function PowerUp(r: Roof, closing: bool): (Roof, int) {
    var (checked, running) := SwitchMotorOn(r.line.Sleep(1), closing);
    if !running then (StopMotor(r.(line := checked)).0, -1)
    else if closing then (r.(line := checked, openTimeout := 0, closeTimeout := checked.now + TRAVEL_TIME), 0)
    else (r.(line := checked, closeTimeout := 0, openTimeout := checked.now + TRAVEL_TIME), 0)
  }

  function StartOpen(r: Roof): (Roof, int) {
    var (asked, notOpened) := InputOn(r.line, OPENED_SWITCH);
    if notOpened < 0 then (r.(line := asked), -1)
    else if notOpened == 0 then EndOpen(r.(line := asked))
    else
      var (stopped, off) := StopMotor(r.(line := asked));
      if !off then (stopped, -1)
      else
        var (turned, ok) := Turn(stopped.line.Sleep(1), false);
        if !ok then (stopped.(line := turned), -1) else PowerUp(stopped.(line := turned), false)
  }

  function StartClose(r: Roof): (Roof, int) {
    var (asked, notClosed) := InputOn(r.line, CLOSED_SWITCH);
    if notClosed < 0 then (r.(line := asked), -1)
    else if notClosed == 0 then EndClose(r.(line := asked))
    else
      var (motorRead, motor) := OutputOn(asked, MOTOR);
      var (smerRead, smer) := OutputOn(motorRead, SMER);
      var s := r.(line := smerRead);
      if motor == -1 || smer == -1 then (s, -1)
      else if motor == 0 then
        if smer == 0 then
          (if s.closeTimeout == 0 then s.(closeTimeout := s.line.now + TRAVEL_TIME) else s, 0)
        else (s, -1)
      else
        var (turned, ok) := Turn(s.line, true);
        if !ok then (s.(line := turned), -1) else PowerUp(s.(line := turned), true)
  }

  function IsOpened(r: Roof): (Roof, int) {
    var (seen, ok) := Poll(r.line);
    (r.(line := seen),
     if ok && OPENED_SWITCH in seen.cacheA then -2
     else if r.openTimeout != 0 && r.openTimeout < seen.now then -2
     else USEC_SEC)
  }

  function IsClosed(r: Roof): (Roof, int) {
    var (seen, ok) := Poll(r.line);
    (r.(line := seen),
     if ok && CLOSED_SWITCH in seen.cacheA then -2
     else if r.closeTimeout != 0 && r.closeTimeout < seen.now then -1
     else USEC_SEC)
  }

  /** ZAP or VYP of one wall socket. */
  function SwitchSocket(r: Roof, socket: nat, on: bool): Roof {
    r.(line := if on then ClearPins(r.line, {socket}).0 else SetPins(r.line, {socket}).0)
  }

  /** handle_zasuvky from socket `i` on: the wanted state of each, a second apart. */
  function SwitchSockets(r: Roof, wanted: seq<bool>, i: nat): Roof
    requires |wanted| == SOCKETS && i <= SOCKETS
    decreases SOCKETS - i
  {
    if i == SOCKETS then r
    else
      var s := SwitchSocket(r, i, wanted[i]);
      SwitchSockets(s.(line := s.line.Sleep(1)), wanted, i + 1)
  }

  // ----- What every call keeps

  /** The direction output never changed between two port states that both had the motor on. */
  ghost predicate NeverReversed(history: seq<Port>) {
    forall i :: 0 <= i < |history| - 1 && MOTOR in history[i] && MOTOR in history[i + 1]
      ==> (SMER in history[i] <==> SMER in history[i + 1])
  }

  /** The board's record is intact, the clock is a Unix time, and a reversal takes an alarm. */
  ghost predicate Sound(l: Line, alarms: nat) {
    && Recorded(l)
    && l.now > 0
    && (alarms == 0 ==> NeverReversed(l.history))
  }

  lemma SoundIdle(l: Line, l': Line, alarms: nat)
    requires Sound(l, alarms) && Idle(l, l')
    ensures Sound(l', alarms)
  {
  }

  lemma SoundRewrite(l: Line, l': Line, port: Port, alarms: nat)
    requires Sound(l, alarms) && Rewritten(l, l', port)
    requires MOTOR in l.relays && MOTOR in port && alarms == 0 ==> (SMER in l.relays <==> SMER in port)
    ensures Sound(l', alarms)
  {
  }

  /** A pin write that leaves motor and direction as they need to be. */
  lemma SoundClear(l: Line, pins: Port, alarms: nat)
    requires Sound(l, alarms)
    requires MOTOR in l.relays && MOTOR !in pins && SMER in l.relays && alarms == 0 ==> SMER !in pins
    ensures var l' := ClearPins(l, pins).0;
            Sound(l', alarms) && l.now <= l'.now && (l'.relays == l.relays || l'.relays == l.relays - pins)
  {
    ClearPinsEffect(l, pins);
    var l' := ClearPins(l, pins).0;
    if Idle(l, l') {
      SoundIdle(l, l', alarms);
    } else {
      SoundRewrite(l, l', l.relays - pins, alarms);
    }
  }

  lemma SoundSet(l: Line, pins: Port, alarms: nat)
    requires Sound(l, alarms)
    requires SMER in pins && alarms == 0 ==> MOTOR !in l.relays
    ensures var l' := SetPins(l, pins).0;
            Sound(l', alarms) && l.now <= l'.now && (l'.relays == l.relays || l'.relays == l.relays + pins)
  {
    SetPinsEffect(l, pins);
    var l' := SetPins(l, pins).0;
    if Idle(l, l') {
      SoundIdle(l, l', alarms);
    } else {
      SoundRewrite(l, l', l.relays + pins, alarms);
    }
  }

  lemma SoundPoll(l: Line, alarms: nat)
    requires Sound(l, alarms)
    ensures var (l', ok) := Poll(l);
            Sound(l', alarms) && Idle(l, l') && (ok ==> l'.cacheB == l.relays)
  {
    PollIsIdle(l);
    SoundIdle(l, Poll(l).0, alarms);
  }

  lemma StopOnceEffect(l: Line, alarms: nat)
    requires Sound(l, alarms)
    ensures var (l', ok) := StopOnce(l);
            && Sound(l', alarms) && l.now <= l'.now
            && (l'.relays == l.relays || l'.relays == l.relays - {MOTOR})
            && (ok ==> MOTOR !in l'.relays)
  {
    SoundClear(l, {MOTOR}, alarms);
    SoundPoll(ClearPins(l, {MOTOR}).0, alarms);
  }

  lemma {:induction false} StopTriesEffect(l: Line, tries: nat, alarms: nat)
    requires Sound(l, alarms)
    ensures var (l', ok) := StopTries(l, tries);
            && Sound(l', alarms) && l.now <= l'.now
            && (l'.relays == l.relays || l'.relays == l.relays - {MOTOR})
            && (ok ==> MOTOR !in l'.relays)
    decreases tries
  {
    if tries > 0 {
      StopOnceEffect(l, alarms);
      var tried := StopOnce(l).0;
      SoundIdle(tried, tried.Sleep(1), alarms);
      StopTriesEffect(tried.Sleep(1), tries - 1, alarms);
    }
  }

  predicate MotorOn(r: Roof) { MOTOR in r.line.relays }

  predicate TowardsClosed(r: Roof) { SMER in r.line.relays }

  predicate SameSockets(p: Port, q: Port) {
    forall socket: nat | socket < SOCKETS :: socket in p <==> socket in q
  }

  /** A driver call that leaves the wall sockets alone and the record sound. */
  ghost predicate Proper(r: Roof, r': Roof) {
    && Sound(r'.line, r'.alarms)
    && r.line.now <= r'.line.now
    && r.alarms <= r'.alarms
    && SameSockets(r.line.relays, r'.line.relays)
  }

  /** The call only looked. */
  predicate OnlyLooked(r: Roof, r': Roof) {
    r' == r.(line := r'.line) && Idle(r.line, r'.line)
  }

  lemma StopMotorEffect(r: Roof)
    requires Sound(r.line, r.alarms)
    ensures var (r', ok) := StopMotor(r);
            && Proper(r, r')
            && (r'.line.relays == r.line.relays || r'.line.relays == r.line.relays - {MOTOR})
            && (if ok then !MotorOn(r') && r'.alarms == r.alarms else r'.alarms == r.alarms + 1)
            && r'.stopFailed == !ok
            && r'.openTimeout == r.openTimeout && r'.closeTimeout == r.closeTimeout
  {
    StopTriesEffect(r.line, 3, r.alarms);
  }

  /** endOpen: the motor is off and verified off, or the alarm was raised. */
  lemma EndOpenEffect(r: Roof)
    requires Sound(r.line, r.alarms)
    ensures var (r', ret) := EndOpen(r);
            && Proper(r, r')
            && (ret == 0 || ret == -1)
            && (ret == 0 <==> !r'.stopFailed)
            && (ret == 0 ==> !MotorOn(r'))
            && TowardsClosed(r') == TowardsClosed(r)
            && r'.openTimeout == 0
  {
    StopMotorEffect(r);
    var stopped := StopMotor(r).0;
    SoundPoll(stopped.line, stopped.alarms);
  }

  /** endClose: the motor is off and verified off, or the alarm was raised. */
  lemma EndCloseEffect(r: Roof)
    requires Sound(r.line, r.alarms)
    ensures var (r', ret) := EndClose(r);
            && Proper(r, r')
            && (ret == 0 || ret == -1)
            && (ret == 0 <==> !r'.stopFailed)
            && (ret == 0 ==> !MotorOn(r'))
            && r'.closeTimeout == 0
  {
    var r0 := r.(closeTimeout := 0);
    StopMotorEffect(r0);
    var stopped := StopMotor(r0).0;
    var rested := stopped.line.Sleep(1);
    SoundIdle(stopped.line, rested, stopped.alarms);
    SoundClear(rested, {SMER}, stopped.alarms);
    SoundPoll(ClearPins(rested, {SMER}).0, stopped.alarms);
  }

  /** Success means the direction output was read back as asked for. */
  lemma TurnEffect(l: Line, closing: bool, alarms: nat)
    requires Sound(l, alarms) && MOTOR !in l.relays
    ensures var (l', ok) := Turn(l, closing);
            && Sound(l', alarms) && l.now <= l'.now
            && MOTOR !in l'.relays
            && SameSockets(l.relays, l'.relays)
            && (ok ==> (SMER in l'.relays) == closing)
  {
    if closing {
      SoundSet(l, {SMER}, alarms);
      SoundPoll(SetPins(l, {SMER}).0, alarms);
    } else {
      SoundClear(l, {SMER}, alarms);
      SoundPoll(ClearPins(l, {SMER}).0, alarms);
    }
  }

  /**
    Success means the motor runs the way asked for under a fresh timeout; otherwise
    it is off again or the alarm was raised.
  */
  lemma PowerUpEffect(r: Roof, closing: bool)
    requires Sound(r.line, r.alarms)
    ensures var (r', ret) := PowerUp(r, closing);
            && Proper(r, r')
            && (ret == 0 || ret == -1)
            && (ret == 0 ==>
                  && MotorOn(r') && TowardsClosed(r') == closing
                  && (if closing then r'.closeTimeout > 0 && r'.openTimeout == 0
                      else r'.openTimeout > 0 && r'.closeTimeout == 0))
            && (ret == -1 ==> r'.stopFailed || !MotorOn(r'))
  {
    var ready := r.line.Sleep(1);
    SoundIdle(r.line, ready, r.alarms);
    SoundSet(ready, {MOTOR}, r.alarms);
    SoundPoll(SetPins(ready, {MOTOR}).0, r.alarms);
    var (checked, running) := SwitchMotorOn(ready, closing);
    assert Sound(checked, r.alarms) && r.line.now <= checked.now && SameSockets(r.line.relays, checked.relays);
    if !running {
      StopMotorEffect(r.(line := checked));
    }
  }

  lemma StartOpenEffect(r: Roof)
    requires Sound(r.line, r.alarms)
    ensures var (r', ret) := StartOpen(r);
            && Proper(r, r')
            && (ret == 0 || ret == -1)
            && (ret == 0 ==> !MotorOn(r') || (!TowardsClosed(r') && r'.openTimeout > 0))
            && (ret == -1 ==> r'.stopFailed || !MotorOn(r') || OnlyLooked(r, r'))
  {
    var (asked, notOpened) := InputOn(r.line, OPENED_SWITCH);
    SoundPoll(r.line, r.alarms);
    var r1 := r.(line := asked);
    if notOpened == 0 {
      EndOpenEffect(r1);
    } else if notOpened > 0 {
      StopMotorEffect(r1);
      var (stopped, off) := StopMotor(r1);
      if off {
        var rested := stopped.line.Sleep(1);
        SoundIdle(stopped.line, rested, stopped.alarms);
        TurnEffect(rested, false, stopped.alarms);
        PowerUpEffect(stopped.(line := Turn(rested, false).0), false);
      }
    }
  }

  lemma StartCloseEffect(r: Roof)
    requires Sound(r.line, r.alarms)
    ensures var (r', ret) := StartClose(r);
            && Proper(r, r')
            && (ret == 0 || ret == -1)
            && (ret == 0 ==> !MotorOn(r') || (TowardsClosed(r') && r'.closeTimeout != 0))
            && (ret == -1 ==> r'.stopFailed || !MotorOn(r') || OnlyLooked(r, r'))
  {
    var (asked, notClosed) := InputOn(r.line, CLOSED_SWITCH);
    SoundPoll(r.line, r.alarms);
    if notClosed == 0 {
      EndCloseEffect(r.(line := asked));
    } else if notClosed > 0 {
      SoundPoll(asked, r.alarms);
      var (motorRead, motor) := OutputOn(asked, MOTOR);
      SoundPoll(motorRead, r.alarms);
      var (smerRead, smer) := OutputOn(motorRead, SMER);
      if motor == 1 && smer != -1 {
        TurnEffect(smerRead, true, r.alarms);
        PowerUpEffect(r.(line := Turn(smerRead, true).0), true);
      }
    }
  }

  /** The polls only look; they answer "keep waiting" only up to the armed timeout. */
  lemma PollsRespectTheTimeouts(r: Roof)
    requires Sound(r.line, r.alarms)
    ensures var (r', ret) := IsOpened(r);
            && OnlyLooked(r, r') && Sound(r'.line, r'.alarms)
            && (ret == -2 || ret == USEC_SEC)
            && (ret == USEC_SEC ==> r.openTimeout == 0 || r'.line.now <= r.openTimeout)
    ensures var (r', ret) := IsClosed(r);
            && OnlyLooked(r, r') && Sound(r'.line, r'.alarms)
            && (ret == -2 || ret == -1 || ret == USEC_SEC)
            && (ret == USEC_SEC ==> r.closeTimeout == 0 || r'.line.now <= r.closeTimeout)
            && (ret == -2 ==> r.line.Next().answered && CLOSED_SWITCH in r.line.Next().inputs)
            && (ret == -1 ==> r.closeTimeout != 0 && r.closeTimeout < r'.line.now)
  {
    SoundPoll(r.line, r.alarms);
  }

  /** One query later. */
  function Polled(r: Roof): Roof {
    r.(line := Poll(r.line).0)
  }

  /** The next query is answered with this end switch made. */
  predicate SwitchSeen(l: Line, switch: nat) {
    l.Next().answered && switch in l.Next().inputs
  }

  /**
    startOpen gives an opening it starts 20 s from its return, disarms the timeout when it
    finds the roof opened, or leaves it.
  */
  lemma StartOpenTimes(r: Roof)
    requires Sound(r.line, r.alarms)
    ensures var (r', ret) := StartOpen(r);
            if SwitchSeen(r.line, OPENED_SWITCH) then
              && r'.openTimeout == 0 && r'.closeTimeout == r.closeTimeout
              && (ret == 0 <==> StopMotor(Polled(r)).1)
            else if ret == 0 then r'.openTimeout == r'.line.now + 20 && r'.closeTimeout == 0
            else r'.openTimeout == r.openTimeout && r'.closeTimeout == r.closeTimeout
  {
    StartOpenEffect(r);
    var (asked, notOpened) := InputOn(r.line, OPENED_SWITCH);
    SoundPoll(r.line, r.alarms);
    if notOpened > 0 {
      StopMotorEffect(r.(line := asked));
      var (stopped, off) := StopMotor(r.(line := asked));
      if off {
        var rested := stopped.line.Sleep(1);
        SoundIdle(stopped.line, rested, stopped.alarms);
        TurnEffect(rested, false, stopped.alarms);
        PowerUpTimes(stopped.(line := Turn(rested, false).0), false);
      }
    }
  }

  /** startClose does likewise; a close found running keeps its timeout, or gets one. */
  lemma StartCloseTimes(r: Roof)
    requires Sound(r.line, r.alarms)
    ensures var (r', ret) := StartClose(r);
            if SwitchSeen(r.line, CLOSED_SWITCH) then
              && r'.closeTimeout == 0 && r'.openTimeout == r.openTimeout
              && (ret == 0 <==> StopMotor(Polled(r)).1)
            else if ret == 0 then
              if MotorOn(r) then
                && TowardsClosed(r) && r'.openTimeout == r.openTimeout
                && r'.closeTimeout == if r.closeTimeout == 0 then r'.line.now + 20 else r.closeTimeout
              else r'.closeTimeout == r'.line.now + 20 && r'.openTimeout == 0
            else r'.openTimeout == r.openTimeout && r'.closeTimeout == r.closeTimeout
  {
    var (asked, notClosed) := InputOn(r.line, CLOSED_SWITCH);
    SoundPoll(r.line, r.alarms);
    if notClosed > 0 {
      SoundPoll(asked, r.alarms);
      var (motorRead, motor) := OutputOn(asked, MOTOR);
      SoundPoll(motorRead, r.alarms);
      var (smerRead, smer) := OutputOn(motorRead, SMER);
      if motor == 1 && smer != -1 {
        TurnEffect(smerRead, true, r.alarms);
        PowerUpTimes(r.(line := Turn(smerRead, true).0), true);
      }
    }
  }

  lemma PowerUpTimes(r: Roof, closing: bool)
    requires Sound(r.line, r.alarms)
    ensures var (r', ret) := PowerUp(r, closing);
            if ret == 0 then
              && (closing ==> r'.closeTimeout == r'.line.now + 20 && r'.openTimeout == 0)
              && (!closing ==> r'.openTimeout == r'.line.now + 20 && r'.closeTimeout == 0)
            else r'.openTimeout == r.openTimeout && r'.closeTimeout == r.closeTimeout
  {
    PowerUpEffect(r, closing);
    var checked := SwitchMotorOn(r.line.Sleep(1), closing).0;
    assert StopMotor(r.(line := checked)).0.openTimeout == r.openTimeout;
    assert StopMotor(r.(line := checked)).0.closeTimeout == r.closeTimeout;
  }

  // ----- On a line that does what it should

  lemma HealthyStop(r: Roof, n: nat)
    requires Healthy(r.line, n) && n >= 4
    ensures var (r', ok) := StopMotor(r);
            && ok && r' == r.(line := r'.line, stopFailed := false)
            && r'.line.relays == r.line.relays - {MOTOR} && Healthy(r'.line, n - 4)
  {
    HealthyRewrite(r.line, {MOTOR}, n);
    HealthyPoll(ClearPins(r.line, {MOTOR}).0, n - 3);
  }

  lemma HealthyTurn(l: Line, closing: bool, n: nat)
    requires Healthy(l, n) && n >= 4
    ensures var (l', ok) := Turn(l, closing);
            && ok && Healthy(l', n - 4)
            && l'.relays == if closing then l.relays + {SMER} else l.relays - {SMER}
  {
    HealthyRewrite(l, {SMER}, n);
    HealthyPoll((if closing then SetPins(l, {SMER}) else ClearPins(l, {SMER})).0, n - 3);
  }

  lemma HealthyPowerUp(r: Roof, closing: bool, n: nat)
    requires Healthy(r.line, n) && n >= 4 && TowardsClosed(r) == closing
    ensures var (r', ret) := PowerUp(r, closing);
            ret == 0 && r'.line.relays == r.line.relays + {MOTOR} && r'.stopFailed == r.stopFailed
  {
    var l := r.line.Sleep(1);
    HealthyRewrite(l, {MOTOR}, n);
    HealthyPoll(SetPins(l, {MOTOR}).0, n - 3);
  }

  /** An open request runs the motor open, unless the open switch is seen. */
  lemma HealthyOpen(r: Roof)
    requires Healthy(r.line, 13)
    ensures var (r', ret) := StartOpen(r);
            && ret == 0
            && r'.line.relays == if OPENED_SWITCH in r.line.script[0].inputs then r.line.relays - {MOTOR}
                                 else r.line.relays - {SMER} + {MOTOR}
  {
    HealthyPoll(r.line, 13);
    var asked := r.(line := Poll(r.line).0);
    HealthyStop(asked, 12);
    if OPENED_SWITCH !in r.line.script[0].inputs {
      var stopped := StopMotor(asked).0;
      HealthyReverse(stopped);
      assert StartOpen(r) == PowerUp(stopped.(line := Turn(stopped.line.Sleep(1), false).0), false);
      assert r.line.relays - {MOTOR} - {SMER} + {MOTOR} == r.line.relays - {SMER} + {MOTOR};
    }
  }

  lemma HealthyReverse(r: Roof)
    requires Healthy(r.line, 8)
    ensures var (turned, ok) := Turn(r.line.Sleep(1), false);
            var (r', ret) := PowerUp(r.(line := turned), false);
            ok && ret == 0 && r'.line.relays == r.line.relays - {SMER} + {MOTOR}
  {
    var l := r.line.Sleep(1);
    HealthyTurn(l, false, 8);
    HealthyPowerUp(r.(line := Turn(l, false).0), false, 4);
  }

  /**
    A close request runs the motor closed, unless the closed switch is seen; a motor that
    runs closed is left to it, one that runs open makes the request fail untouched.
  */
  lemma HealthyClose(r: Roof)
    requires Healthy(r.line, 11)
    ensures var (r', ret) := StartClose(r);
            && (ret == 0 <==> CLOSED_SWITCH in r.line.script[0].inputs || !MotorOn(r) || TowardsClosed(r))
            && r'.line.relays == if CLOSED_SWITCH in r.line.script[0].inputs then r.line.relays - {MOTOR} - {SMER}
                                 else if MotorOn(r) then r.line.relays
                                 else r.line.relays + {SMER} + {MOTOR}
  {
    HealthyPoll(r.line, 11);
    if CLOSED_SWITCH in r.line.script[0].inputs {
      HealthyEndClose(r.(line := Poll(r.line).0), 10);
    } else {
      HealthyCloseUnseen(r);
    }
  }

  lemma HealthyCloseUnseen(r: Roof)
    requires Healthy(r.line, 11) && CLOSED_SWITCH !in r.line.script[0].inputs
    ensures var (r', ret) := StartClose(r);
            && (ret == 0 <==> !MotorOn(r) || TowardsClosed(r))
            && r'.line.relays == if MotorOn(r) then r.line.relays else r.line.relays + {SMER} + {MOTOR}
  {
    HealthyReads(r.line);
    if !MotorOn(r) {
      var s := r.(line := Poll(Poll(Poll(r.line).0).0).0);
      HealthyDrive(s);
      assert StartClose(r) == PowerUp(s.(line := Turn(s.line, true).0), true);
    }
  }

  /** Three readings of the same outputs. */
  lemma HealthyReads(l: Line)
    requires Healthy(l, 11)
    ensures var (one, ok1) := Poll(l);
            var (two, ok2) := Poll(one);
            var (three, ok3) := Poll(two);
            && ok1 && ok2 && ok3 && one.cacheA == l.script[0].inputs
            && l.relays == two.cacheB == three.cacheB == three.relays && Healthy(three, 8)
  {
    HealthyPoll(l, 11);
    HealthyPoll(Poll(l).0, 10);
    HealthyPoll(Poll(Poll(l).0).0, 9);
  }

  /** The direction and then the motor. */
  lemma HealthyDrive(r: Roof)
    requires Healthy(r.line, 8)
    ensures var (turned, ok) := Turn(r.line, true);
            var (r', ret) := PowerUp(r.(line := turned), true);
            ok && ret == 0 && r'.line.relays == r.line.relays + {SMER} + {MOTOR}
  {
    HealthyTurn(r.line, true, 8);
    HealthyPowerUp(r.(line := Turn(r.line, true).0), true, 4);
  }

  /** The end of a close switches motor and direction off. */
  lemma HealthyEndClose(r: Roof, n: nat)
    requires Healthy(r.line, n) && n >= 8
    ensures var (r', ret) := EndClose(r);
            ret == 0 && r'.line.relays == r.line.relays - {MOTOR} - {SMER} == r'.line.cacheB
  {
    HealthyStop(r.(closeTimeout := 0), n);
    var l := StopMotor(r.(closeTimeout := 0)).0.line.Sleep(1);
    HealthyRewrite(l, {SMER}, n - 4);
    HealthyPoll(ClearPins(l, {SMER}).0, n - 7);
  }

  /** That of an opening leaves the direction as it is. */
  lemma HealthyEndOpen(r: Roof)
    requires Healthy(r.line, 5)
    ensures var (r', ret) := EndOpen(r);
            ret == 0 && r'.line.relays == r.line.relays - {MOTOR} == r'.line.cacheB
  {
    HealthyStop(r, 5);
    HealthyPoll(StopMotor(r).0.line, 1);
  }

  /** A socket is powered while its relay is off, and follows what was written to it. */
  lemma HealthySocket(r: Roof, socket: nat, on: bool)
    requires Healthy(r.line, 3)
    ensures SwitchSocket(r, socket, on).line.relays == if on then r.line.relays - {socket} else r.line.relays + {socket}
  {
    HealthyRewrite(r.line, {socket}, 3);
  }

  /** From socket i on the relays are as wanted, before it as they were. */
  ghost predicate AsWanted(relays: Port, before: Port, wanted: seq<bool>, i: nat)
    requires |wanted| == SOCKETS
  {
    forall k: nat :: k in relays <==> if i <= k < SOCKETS then !wanted[k] else k in before
  }

  /** So after a round each socket is as wanted. */
  lemma {:induction false} HealthyRound(r: Roof, wanted: seq<bool>, i: nat)
    requires |wanted| == SOCKETS && i <= SOCKETS && Healthy(r.line, 3 * (SOCKETS - i))
    ensures AsWanted(SwitchSockets(r, wanted, i).line.relays, r.line.relays, wanted, i)
    decreases SOCKETS - i
  {
    if i < SOCKETS {
      HealthyWrite(r, i, wanted[i], 3 * (SOCKETS - i));
      var s := SwitchSocket(r, i, wanted[i]);
      var slept := s.(line := s.line.Sleep(1));
      HealthyRound(slept, wanted, i + 1);
      OneMoreAsWanted(SwitchSockets(slept, wanted, i + 1).line.relays, r.line.relays, wanted, i);
    }
  }

  lemma HealthyWrite(r: Roof, socket: nat, on: bool, n: nat)
    requires Healthy(r.line, n) && n >= 3
    ensures var s := SwitchSocket(r, socket, on);
            && s.line.relays == (if on then r.line.relays - {socket} else r.line.relays + {socket})
            && Healthy(s.line.Sleep(1), n - 3)
  {
    HealthyRewrite(r.line, {socket}, n);
  }

  lemma OneMoreAsWanted(relays: Port, before: Port, wanted: seq<bool>, i: nat)
    requires |wanted| == SOCKETS && i < SOCKETS
    requires AsWanted(relays, if wanted[i] then before - {i} else before + {i}, wanted, i + 1)
    ensures AsWanted(relays, before, wanted, i)
  {
  }

  /** A socket write changes that socket or nothing: never motor, direction or another socket. */
  lemma SocketWritesSpareTheRoof(r: Roof, socket: nat, on: bool)
    requires Sound(r.line, r.alarms) && socket < SOCKETS
    ensures var r' := SwitchSocket(r, socket, on);
            && r' == r.(line := r'.line)
            && Sound(r'.line, r'.alarms)
            && r'.line.relays - {socket} == r.line.relays - {socket}
            && MotorOn(r') == MotorOn(r) && TowardsClosed(r') == TowardsClosed(r)
  {
    if on {
      ClearPinsEffect(r.line, {socket});
      var l' := ClearPins(r.line, {socket}).0;
      if !Idle(r.line, l') {
        SoundRewrite(r.line, l', r.line.relays - {socket}, r.alarms);
      }
    } else {
      SetPinsEffect(r.line, {socket});
      var l' := SetPins(r.line, {socket}).0;
      if !Idle(r.line, l') {
        SoundRewrite(r.line, l', r.line.relays + {socket}, r.alarms);
      }
    }
  }

  /** The driver itself: two timeouts beside the connection, updated in place. */
  class BartRoof {
    const conn: FordConn
    var openTimeout: int
    var closeTimeout: int
    ghost var stopFailed: bool
    ghost var alarms: nat

    ghost predicate Valid()
      reads this, conn
    {
      conn.Valid()
    }

    ghost function Model(): Roof
      requires Valid()
      reads this, conn, conn.stav
    {
      Roof(conn.Model(), openTimeout, closeTimeout, stopFailed, alarms)
    }

    constructor (conn: FordConn)
      requires conn.Valid()
      ensures this.conn == conn && Valid()
      ensures Model() == Roof(conn.Model(), 0, 0, false, 0)
    {
      this.conn := conn;
      openTimeout, closeTimeout, stopFailed, alarms := 0, 0, false, 0;
    }

    method TryToStop() returns (ok: bool)
      requires Valid()
      modifies conn, conn.stav
      ensures Valid() && (conn.Model(), ok) == StopOnce(old(conn.Model()))
    {
      ok := conn.SwitchOff({MOTOR});
      if ok {
        var on := conn.ReadOutput(MOTOR);
        ok := on == 1;
      }
    }

    method Stop() returns (ok: bool)
      requires Valid()
      modifies this, conn, conn.stav
      ensures Valid() && (Model(), ok) == StopMotor(old(Model()))
    {
      ok := false;
      for i := 0 to 3
        invariant Valid() && !ok
        invariant Model() == old(Model()).(line := conn.Model())
        invariant StopTries(conn.Model(), 3 - i) == StopTries(old(conn.Model()), 3)
      {
        ok := TryToStop();
        if ok {
          stopFailed := false;
          return;
        }
        conn.Sleep(1);
      }
      stopFailed, alarms := true, alarms + 1;
    }

    method IsRunning(closing: bool) returns (running: bool)
      requires Valid()
      modifies conn, conn.stav
      ensures Valid() && (conn.Model(), running) == MotorRunning(old(conn.Model()), closing)
    {
      running := conn.ReadPorts();
      if running {
        running := MOTOR in conn.stav[1] && (SMER in conn.stav[1]) == closing;
      }
    }

    method SwitchMotor(closing: bool) returns (running: bool)
      requires Valid()
      modifies conn, conn.stav
      ensures Valid() && (conn.Model(), running) == SwitchMotorOn(old(conn.Model()), closing)
    {
      running := conn.SwitchOn({MOTOR});
      if running {
        running := IsRunning(closing);
      }
    }

    method SetDirection(closing: bool) returns (ok: bool)
      requires Valid()
      modifies conn, conn.stav
      ensures Valid() && (conn.Model(), ok) == Turn(old(conn.Model()), closing)
    {
      if closing {
        ok := conn.SwitchOn({SMER});
      } else {
        ok := conn.SwitchOff({SMER});
      }
      if ok {
        var dir := conn.ReadOutput(SMER);
        ok := dir == if closing then 0 else 1;
      }
    }

    method StartMotor(closing: bool) returns (ret: int)
      requires Valid()
      modifies this, conn, conn.stav
      ensures Valid() && (Model(), ret) == PowerUp(old(Model()), closing)
    {
      conn.Sleep(1);
      var running := SwitchMotor(closing);
      if !running {
        var _ := Stop();
        return -1;
      }
      if closing {
        openTimeout, closeTimeout := 0, conn.now + TRAVEL_TIME;
      } else {
        closeTimeout, openTimeout := 0, conn.now + TRAVEL_TIME;
      }
      ret := 0;
    }

    method FinishOpening() returns (ret: int)
      requires Valid()
      modifies this, conn, conn.stav
      ensures Valid() && (Model(), ret) == EndOpen(old(Model()))
    {
      var ok := Stop();
      var _ := conn.ReadPorts();
      openTimeout := 0;
      ret := if ok then 0 else -1;
    }

    method FinishClosing() returns (ret: int)
      requires Valid()
      modifies this, conn, conn.stav
      ensures Valid() && (Model(), ret) == EndClose(old(Model()))
    {
      closeTimeout := 0;
      var ok := Stop();
      conn.Sleep(1);
      var _ := conn.SwitchOff({SMER});
      var _ := conn.ReadPorts();
      ret := if ok then 0 else -1;
    }

    method Open() returns (ret: int)
      requires Valid()
      modifies this, conn, conn.stav
      ensures Valid() && (Model(), ret) == StartOpen(old(Model()))
    {
      var notOpened := conn.ReadInput(OPENED_SWITCH);
      if notOpened < 0 {
        return -1;
      }
      if notOpened == 0 {
        ret := FinishOpening();
        return;
      }
      var off := Stop();
      if !off {
        return -1;
      }
      conn.Sleep(1);
      var ok := SetDirection(false);
      if !ok {
        return -1;
      }
      ret := StartMotor(false);
    }

    method Close() returns (ret: int)
      requires Valid()
      modifies this, conn, conn.stav
      ensures Valid() && (Model(), ret) == StartClose(old(Model()))
    {
      var notClosed := conn.ReadInput(CLOSED_SWITCH);
      if notClosed < 0 {
        return -1;
      }
      if notClosed == 0 {
        ret := FinishClosing();
        return;
      }
      var motor := conn.ReadOutput(MOTOR);
      var smer := conn.ReadOutput(SMER);
      if motor == -1 || smer == -1 {
        return -1;
      }
      if motor == 0 {
        if smer == 0 {
          if closeTimeout == 0 {
            closeTimeout := conn.now + TRAVEL_TIME;
          }
          return 0;
        }
        return -1;
      }
      var ok := SetDirection(true);
      if !ok {
        return -1;
      }
      ret := StartMotor(true);
    }

    method PollOpened() returns (ret: int)
      requires Valid()
      modifies conn, conn.stav
      ensures Valid() && (Model(), ret) == IsOpened(old(Model()))
    {
      var ok := conn.ReadPorts();
      if ok && OPENED_SWITCH in conn.stav[0] {
        return -2;
      }
      if openTimeout != 0 && openTimeout < conn.now {
        return -2;
      }
      ret := USEC_SEC;
    }

    method PollClosed() returns (ret: int)
      requires Valid()
      modifies conn, conn.stav
      ensures Valid() && (Model(), ret) == IsClosed(old(Model()))
    {
      var ok := conn.ReadPorts();
      if ok && CLOSED_SWITCH in conn.stav[0] {
        return -2;
      }
      if closeTimeout != 0 && closeTimeout < conn.now {
        return -1;
      }
      ret := USEC_SEC;
    }

    /** handle_zasuvky: all six sockets, one after the other. */
    method HandleSockets(wanted: seq<bool>)
      requires Valid() && |wanted| == SOCKETS
      modifies conn, conn.stav
      ensures Valid() && Model() == SwitchSockets(old(Model()), wanted, 0)
    {
      for i := 0 to SOCKETS
        invariant Valid() && SwitchSockets(Model(), wanted, i) == SwitchSockets(old(Model()), wanted, 0)
      {
        if wanted[i] {
          var _ := conn.SwitchOff({i});
        } else {
          var _ := conn.SwitchOn({i});
        }
        conn.Sleep(1);
      }
    }
  }
}
