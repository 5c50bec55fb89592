/**
  The regulation of a cooled camera (base/camd/src/cooler.cpp): a ramp of setpoints driven
  by a timer, and the flag that says the temperature has settled. Temperatures are exact.
*/
module Cooler {
  datatype Option<+T> = None | Some(value: T)

  const RAMP_INTERVAL := 60
  const STABLE_SEC := 120

  /** A setpoint sent, the cooler switched (on from off: a fresh start), or the temperature checked. */
  datatype Entry =
    | SetPoint(from: real, to: real, goal: real, step: Option<real>)
    | PowerOn(afresh: bool)
    | PowerOff(on: bool)
    | Checked(now: int, within: bool)

  datatype Log = Nothing | After(earlier: Log, last: Entry)

  /** CCD_SET, nightcool, TERAMP, temp_tol and CCD_TEMP, empty where not a number; COOLING. */
  datatype Settings = Settings(set_: Option<real>, night: Option<real>, ramp: Option<real>,
                               tolerance: Option<real>, ccd: Option<real>, on: bool)

  /** `target` is TETAR, `timers` the delays of the ramp events in flight. */
  datatype State = State(c: Settings, offTemp: real, target: Option<real>, since: Option<int>,
                         stable: bool, timers: seq<int>, log: Log)

  // ----- The cooler

  function Abs(x: real): real {
    if x < 0.0 then -x else x
  }

  /** Cooling, at the setpoint wanted, and the chip close to it. */
  predicate Within(s: State) {
    && s.c.on && s.target.Some? && s.target == s.c.set_
    && s.c.ccd.Some? && s.c.tolerance.Some? && Abs(s.c.ccd.value - s.c.set_.value) <= s.c.tolerance.value
  }

  function CheckStable(s: State, now: int): State {
    var within := Within(s);
    var since := if !within then None else if s.since.None? then Some(now) else s.since;
    s.(since := since, stable := within && now - since.value >= STABLE_SEC, log := After(s.log, Checked(now, within)))
  }

  function StartRamp(s: State, now: int): State {
    CheckStable(s.(timers := [1]), now)
  }

  function SetTarget(s: State, temp: Option<real>, now: int): State {
    var s := s.(c := s.c.(set_ := temp));
    if s.c.on then StartRamp(s, now) else s
  }

  /** `powered` when the hardware could be switched on. */
  function SwitchCooling(s: State, on: bool, powered: bool, now: int): (State, int) {
    if !on then (StartRamp(s.(c := s.c.(on := false)), now), 0)
    else if s.c.set_.None? && s.c.night.None? then (s, -1)
    else
      var s := if s.c.set_.None? then s.(c := s.c.(set_ := s.c.night)) else s;
      var s := s.(log := After(s.log, PowerOn(powered && !s.c.on)));
      if !powered then (s, -1)
      else
        var s := if !s.c.on then s.(target := None) else s;
        (StartRamp(s.(c := s.c.(on := true)), now), 0)
  }

  /** What one step may change, empty for no limit. */
  function StepOf(ramp: Option<real>): Option<real> {
    if ramp.Some? && ramp.value * RAMP_INTERVAL as real / 60.0 > 0.0 then
      Some(ramp.value * RAMP_INTERVAL as real / 60.0)
    else None
  }

  function Next(cur: real, goal: real, step: Option<real>): real {
    if step.None? || Abs(goal - cur) <= step.value then goal
    else if goal > cur then cur + step.value else cur - step.value
  }

  function Goal(s: State): Option<real> {
    if s.c.on then s.c.set_ else Some(s.offTemp)
  }

  /** One setpoint from `cur` towards `goal`, and what follows it. */
  function Approach(s: State, cur: real, goal: real): State {
    var step := StepOf(s.c.ramp);
    var next := Next(cur, goal, step);
    var s := s.(target := Some(next), log := After(s.log, SetPoint(cur, next, goal, step)));
    if next != goal then s.(timers := s.timers + [RAMP_INTERVAL])
    else if !s.c.on then s.(log := After(s.log, PowerOff(s.c.on))) else s
  }

  /** rampStep: the event in flight has fired, and is sent again or not. */
  function RampStep(s: State, busy: bool, now: int): State {
    if s.timers == [] then s
    else
      var s := s.(timers := s.timers[1..]);
      if busy then s.(timers := s.timers + [5])
      else if Goal(s).None? then s
      else
        var cur := if s.target.Some? then s.target else s.c.ccd;
        if cur.None? then s.(timers := s.timers + [10]) else CheckStable(Approach(s, cur.value, Goal(s).value), now)
  }

  // ----- What the log tells

  /**
    The setpoint sent just now and the last one since the cooler came on, the time
    from which every check found the temperature within, the last check, and whether
    setpoints and switching kept their rules.
  */
  datatype Story = Story(justSet: Option<real>, previous: Option<real>,
                         good: Option<int>, checked: Option<int>, proper: bool)

  /** Between the last setpoint and the goal, and no further than one step. */
  predicate Bounded(e: Entry)
    requires e.SetPoint?
  {
    && (e.from <= e.to <= e.goal || e.goal <= e.to <= e.from)
    && (e.step.Some? ==> Abs(e.to - e.from) <= e.step.value)
    && (e.to != e.goal ==> e.step.Some? && Abs(e.to - e.from) == e.step.value)
  }

  function Continue(t: Story, off: real, e: Entry): Story {
    match e
    case SetPoint(from, to, _, _) =>
      t.(justSet := Some(to), previous := Some(to),
         proper := t.proper && Bounded(e) && (t.previous.Some? ==> from == t.previous.value))
    case PowerOn(afresh) => t.(justSet := None, previous := if afresh then None else t.previous)
    case PowerOff(on) => t.(justSet := None, proper := t.proper && !on && t.justSet == Some(off))
    case Checked(now, within) =>
      t.(justSet := None, checked := Some(now),
         good := if !within then None else if t.good.None? then Some(now) else t.good)
  }

  function Tell(log: Log, off: real): Story {
    match log
    case Nothing => Story(None, None, None, None, true)
    case After(earlier, last) => Continue(Tell(earlier, off), off, last)
  }

  /** All that is kept but for the flag, which the next check will set. */
  predicate Regular(s: State) {
    var t := Tell(s.log, s.offTemp);
    && |s.timers| <= 1
    && t.proper && s.since == t.good && (t.previous.Some? ==> s.target == t.previous)
  }

  predicate Inv(s: State) {
    var t := Tell(s.log, s.offTemp);
    && Regular(s)
    && (s.stable <==> t.good.Some? && t.checked.Some? && t.checked.value >= t.good.value + 120)
  }

  lemma CheckStableKeeps(s: State, now: int)
    requires Regular(s)
    ensures Inv(CheckStable(s, now))
  {
    var r := CheckStable(s, now);
    assert Tell(r.log, s.offTemp) == Continue(Tell(s.log, s.offTemp), s.offTemp, r.log.last);
  }

  lemma NextIsBounded(cur: real, goal: real, step: Option<real>)
    requires step.Some? ==> step.value > 0.0
    ensures Bounded(SetPoint(cur, Next(cur, goal, step), goal, step))
  {
  }

  lemma RampStepKeeps(s: State, busy: bool, now: int)
    requires Inv(s)
    ensures Inv(RampStep(s, busy, now))
  {
    var cur := if s.target.Some? then s.target else s.c.ccd;
    if s.timers != [] && !busy && Goal(s).Some? && cur.Some? {
      var goal, step := Goal(s).value, StepOf(s.c.ramp);
      var next := Next(cur.value, goal, step);
      NextIsBounded(cur.value, goal, step);
      var sent := SetPoint(cur.value, next, goal, step);
      var a := s.(timers := s.timers[1..], target := Some(next), log := After(s.log, sent));
      assert Tell(a.log, s.offTemp) == Continue(Tell(s.log, s.offTemp), s.offTemp, sent);
      var b := if next != goal then a.(timers := a.timers + [RAMP_INTERVAL])
               else if !s.c.on then a.(log := After(a.log, PowerOff(s.c.on))) else a;
      if next == goal && !s.c.on {
        assert Tell(b.log, s.offTemp) == Continue(Tell(a.log, s.offTemp), s.offTemp, PowerOff(s.c.on));
      }
      CheckStableKeeps(b, now);
    }
  }

  // ----- Runs

  datatype Event =
    | Target(temp: Option<real>, now: int)
    | Switch(on: bool, powered: bool, now: int)
    | Fires(busy: bool, now: int)
    | Check(now: int)                                     // with every reading of the temperature
    | Read(ccd: Option<real>)
    | Written(night: Option<real>, ramp: Option<real>, tolerance: Option<real>)

  function Step(s: State, e: Event): State {
    match e
    case Target(temp, now) => SetTarget(s, temp, now)
    case Switch(on, powered, now) => SwitchCooling(s, on, powered, now).0
    case Fires(busy, now) => RampStep(s, busy, now)
    case Check(now) => CheckStable(s, now)
    case Read(ccd) => s.(c := s.c.(ccd := ccd))
    case Written(night, ramp, tolerance) => s.(c := s.c.(night := night, ramp := ramp, tolerance := tolerance))
  }

  function Run(s: State, events: seq<Event>): State {
    if events == [] then s else Step(Run(s, events[..|events| - 1]), events[|events| - 1])
  }

  lemma StepKeeps(s: State, e: Event)
    requires Inv(s)
    ensures Inv(Step(s, e)) && Step(s, e).offTemp == s.offTemp
  {
    match e
    case Target(temp, now) =>
      if s.c.on {
        CheckStableKeeps(s.(c := s.c.(set_ := temp), timers := [1]), now);
      }
    case Switch(on, powered, now) => SwitchKeeps(s, on, powered, now);
    case Fires(busy, now) => RampStepKeeps(s, busy, now);
    case Check(now) => CheckStableKeeps(s, now);
    case Read(_) =>
    case Written(_, _, _) =>
  }

  lemma SwitchKeeps(s: State, on: bool, powered: bool, now: int)
    requires Inv(s)
    ensures Inv(SwitchCooling(s, on, powered, now).0)
  {
    if !on {
      CheckStableKeeps(s.(c := s.c.(on := false), timers := [1]), now);
    } else if s.c.set_.Some? || s.c.night.Some? {
      var a := if s.c.set_.None? then s.(c := s.c.(set_ := s.c.night)) else s;
      var b := a.(log := After(a.log, PowerOn(powered && !a.c.on)));
      assert Tell(b.log, s.offTemp) == Continue(Tell(s.log, s.offTemp), s.offTemp, b.log.last);
      if powered {
        var d := if !b.c.on then b.(target := None) else b;
        CheckStableKeeps(d.(c := d.c.(on := true), timers := [1]), now);
      }
    }
  }

  predicate Fresh(s: State) {
    s.timers == [] && s.since == None && !s.stable && s.log == Nothing
  }

  /**
    In every run at most one ramp event is in flight; each setpoint lies between the one
    before, also when cooling is asked for once more, and the goal, at most one step away;
    the cooler is switched off only with cooling off, right after the off setpoint was
    sent; and a temperature shown as stable was within at every check for at least the
    last 120 seconds.
  */
  lemma {:induction false} RampsAreOrderly(s: State, events: seq<Event>)
    requires Fresh(s)
    ensures Inv(Run(s, events)) && Run(s, events).offTemp == s.offTemp
  {
    if events != [] {
      var before := events[..|events| - 1];
      RampsAreOrderly(s, before);
      StepKeeps(Run(s, before), events[|events| - 1]);
    }
  }

  // ----- What stable means

  /** Every check after t found the temperature within. */
  predicate WithinSince(log: Log, t: int) {
    log.After? ==> WithinSince(log.earlier, t) && (log.last.Checked? && log.last.now > t ==> log.last.within)
  }

  /** The clock does not run backwards. */
  predicate Ordered(log: Log, off: real) {
    log.After? ==>
      && Ordered(log.earlier, off)
      && (log.last.Checked? && Tell(log.earlier, off).checked.Some? ==>
            Tell(log.earlier, off).checked.value <= log.last.now)
  }

  lemma {:induction false} NoCheckSince(log: Log, off: real, t: int)
    requires Ordered(log, off) && (Tell(log, off).checked.Some? ==> Tell(log, off).checked.value <= t)
    ensures WithinSince(log, t)
  {
    if log.After? {
      NoCheckSince(log.earlier, off, t);
    }
  }

  lemma {:induction false} StreakCovers(log: Log, off: real, t: int)
    requires Ordered(log, off) && Tell(log, off).good.Some? && Tell(log, off).good.value <= t
    ensures WithinSince(log, t)
  {
    if log.After? {
      if Tell(log.earlier, off).good.Some? {
        StreakCovers(log.earlier, off, t);
      } else {
        NoCheckSince(log.earlier, off, t);
      }
    }
  }

  /** Shown as stable, every check of the last 120 seconds found the temperature within. */
  lemma StableMeansWithin(s: State, events: seq<Event>)
    requires Fresh(s)
    ensures var r := Run(s, events);
            r.stable && Ordered(r.log, r.offTemp) ==>
              && Tell(r.log, r.offTemp).checked.Some?
              && WithinSince(r.log, Tell(r.log, r.offTemp).checked.value - STABLE_SEC)
  {
    RampsAreOrderly(s, events);
    var r := Run(s, events);
    var t := Tell(r.log, r.offTemp);
    if r.stable && Ordered(r.log, r.offTemp) {
      StreakCovers(r.log, r.offTemp, t.checked.value - STABLE_SEC);
    }
  }

  /**
    And exactly then: the flag is shown if and only if the unbroken row of checks within,
    up to the last one, spans 120 seconds.
  */
  lemma StableExactly(s: State, events: seq<Event>)
    requires Fresh(s)
    ensures var r := Run(s, events);
            var t := Tell(r.log, r.offTemp);
            r.stable <==> t.good.Some? && t.checked.Some? && t.checked.value >= t.good.value + 120
  {
    RampsAreOrderly(s, events);
  }

  /** Within: cooling, at the wanted setpoint, and the chip no further from it than the tolerance. */
  lemma WithinMeans(s: State)
    ensures Within(s) <==>
            && s.c.on && s.target.Some? && s.c.set_.Some? && s.c.ccd.Some? && s.c.tolerance.Some?
            && s.target.value == s.c.set_.value
            && s.c.set_.value - s.c.tolerance.value <= s.c.ccd.value <= s.c.set_.value + s.c.tolerance.value
  {
  }

  // ----- What requests do

  /** The ramp begins anew in one second, and the temperature is checked. */
  predicate Restarted(r: State, s: State, now: int) {
    && r.timers == [1] && r.c == s.c && r.target == s.target && r.offTemp == s.offTemp
    && r.log == After(s.log, Checked(now, Within(s)))
  }

  /** The wanted setpoint is taken over; a cooler that is on goes there. */
  lemma TargetIsTaken(s: State, temp: Option<real>, now: int)
    ensures var r := SetTarget(s, temp, now);
            var taken := s.(c := s.c.(set_ := temp));
            if s.c.on then Restarted(r, taken, now) else r == taken
  {
  }

  /**
    The cooler is switched on to its setpoint, or to that of the night if it has none, and
    not without either; from off the ramp starts at the temperature of the chip. Switching
    it off ramps it back first; the power goes at the end.
  */
  lemma SwitchDoes(s: State, on: bool, powered: bool, now: int)
    ensures var (r, ret) := SwitchCooling(s, on, powered, now);
            !on ==> ret == 0 && Restarted(r, s.(c := s.c.(on := false)), now)
    ensures var (r, ret) := SwitchCooling(s, on, powered, now);
            on && s.c.set_ == None && s.c.night == None ==> ret == -1 && r == s
    ensures var (r, ret) := SwitchCooling(s, on, powered, now);
            var wanted := s.c.(set_ := if s.c.set_ == None then s.c.night else s.c.set_);
            on && (s.c.set_ != None || s.c.night != None) ==>
              if powered then
                && ret == 0
                && Restarted(r, s.(c := wanted.(on := true), target := if s.c.on then s.target else None,
                                   log := After(s.log, PowerOn(!s.c.on))), now)
              else ret == -1 && r == s.(c := wanted, log := After(s.log, PowerOn(false)))
  {
  }

  /** A rate in degrees per minute is the step of one minute; none, or none above zero, is no limit. */
  lemma StepIsTheRate(ramp: Option<real>)
    ensures StepOf(ramp) == if ramp.Some? && ramp.value > 0.0 then ramp else None
  {
  }

  /**
    An event that comes to a busy camera is sent again in 5 s, one without any temperature
    to start from in 10 s, one without a goal not at all; else the goal is the setpoint, or
    the temperature to leave the cooler at when it is off.
  */
  lemma RampWaits(s: State, busy: bool, now: int)
    requires |s.timers| == 1
    ensures var r := RampStep(s, busy, now);
            && (busy ==> r == s.(timers := [5]))
            && (!busy && s.c.on && s.c.set_ == None ==> r == s.(timers := []))
            && (!busy && (!s.c.on || s.c.set_ != None) && s.target == None && s.c.ccd == None ==>
                  r == s.(timers := [10]))
            && (!busy && (s.target != None || s.c.ccd != None) && (!s.c.on || s.c.set_ != None) ==>
                  r.target == Some(Next(if s.target != None then s.target.value else s.c.ccd.value,
                                        if s.c.on then s.c.set_.value else s.offTemp, StepOf(s.c.ramp))))
  {
    assert s.timers[1..] == [];
    assert [] + [5] == [5] && [] + [10] == [10];
  }

  // ----- A ramp left alone

  function Ceil(x: real): int {
    -(-x).Floor
  }

  /** How many setpoints a ramp over this distance takes. */
  function StepsNeeded(distance: real, step: Option<real>): int
    requires step.Some? ==> step.value > 0.0
  {
    if step.None? || Ceil(distance / step.value) < 1 then 1 else Ceil(distance / step.value)
  }

  lemma SameQuotient(x: real, y: real, step: real)
    requires step > 0.0 && x * step == y * step
    ensures x == y
  {
    assert x == (x * step) / step;
    assert y == (y * step) / step;
  }

  lemma OneStepLess(d: real, step: real)
    requires step > 0.0
    ensures d <= step ==> StepsNeeded(d, Some(step)) == 1
    ensures d > step ==> StepsNeeded(d, Some(step)) == StepsNeeded(d - step, Some(step)) + 1
  {
    var q, r := d / step, (d - step) / step;
    assert q * step == d && r * step == d - step;
    SameQuotient(r, q - 1.0, step);
    if d <= step {
      assert q <= 1.0;
    } else {
      assert q > 1.0;
    }
  }

  /** The ramp event fires, and the camera is never busy. */
  function Ramp(s: State, nows: seq<int>): State
    decreases |nows|
  {
    if nows == [] then s else Ramp(RampStep(s, false, nows[0]), nows[1..])
  }

  function Current(s: State): Option<real> {
    if s.target.Some? then s.target else s.c.ccd
  }

  /**
    With the settings left alone a ramp takes exactly the steps its distance needs: before
    the last the event is always in flight, with it the goal is the setpoint and no event
    is; cooling off, the cooler has then been switched off.
  */
  lemma {:induction false} RampEnds(s: State, nows: seq<int>)
    requires |s.timers| == 1 && Goal(s).Some? && Current(s).Some?
    requires 0 < |nows| <= StepsNeeded(Abs(Goal(s).value - Current(s).value), StepOf(s.c.ramp))
    ensures var r := Ramp(s, nows);
            var needed := StepsNeeded(Abs(Goal(s).value - Current(s).value), StepOf(s.c.ramp));
            && r.c == s.c && r.offTemp == s.offTemp
            && (|nows| < needed ==> |r.timers| == 1 && r.target != Goal(s))
            && (|nows| == needed ==> r.timers == [] && r.target == Goal(s))
            && (|nows| == needed && !s.c.on ==>
                  r.log.After? && r.log.earlier.After? && r.log.earlier.last == PowerOff(false))
    decreases |nows|
  {
    var goal, cur, step := Goal(s).value, Current(s).value, StepOf(s.c.ramp);
    var d := Abs(goal - cur);
    var a := RampStep(s, false, nows[0]);
    if step.Some? {
      OneStepLess(d, step.value);
      if d > step.value {
        assert Abs(goal - Next(cur, goal, step)) == d - step.value;
        assert a.target == Some(Next(cur, goal, step)) && a.c == s.c;
        if |nows| > 1 {
          RampEnds(a, nows[1..]);
        } else {
          assert Ramp(a, nows[1..]) == a;
        }
        return;
      }
    }
    assert |nows| == 1 && Ramp(a, nows[1..]) == a;
    assert Next(cur, goal, step) == goal;
  }

  // ----- The cooler itself

  /** The fields of the Cooler class and of its camera; every method does what its function says. */
  class CoolerDevice {
    var tempSet: Option<real>
    var nightCoolTemp: Option<real>
    var tempRamp: Option<real>
    var tolerance: Option<real>
    var tempCCD: Option<real>
    var coolingOnOff: bool
    const offTemp: real
    var tempTarget: Option<real>
    var stableSince: Option<int>
    var stable: bool
    var timers: seq<int>
    ghost var log: Log

    ghost function Model(): State
      reads this
    {
      State(Settings(tempSet, nightCoolTemp, tempRamp, tolerance, tempCCD, coolingOnOff), offTemp,
            tempTarget, stableSince, stable, timers, log)
    }

    constructor (offTemp: real)
      ensures Fresh(Model()) && this.offTemp == offTemp && tempTarget == None && !coolingOnOff
      ensures tolerance == Some(1.0) && tempRamp == Some(100.0)
    {
      tempSet, nightCoolTemp, tempRamp, tolerance := None, None, Some(100.0), Some(1.0);
      tempCCD, coolingOnOff := None, false;
      this.offTemp := offTemp;
      tempTarget, stableSince, stable, timers, log := None, None, false, [], Nothing;
    }

    method Target(temp: Option<real>, now: int)
      modifies this
      ensures Model() == SetTarget(old(Model()), temp, now)
    {
      tempSet := temp;
      if coolingOnOff {
        BeginRamp(now);
      }
    }

    method Switch(on: bool, powered: bool, now: int) returns (ret: int)
      modifies this
      ensures (Model(), ret) == SwitchCooling(old(Model()), on, powered, now)
    {
      if on {
        if tempSet.None? {
          if nightCoolTemp.None? {
            return -1;
          }
          tempSet := nightCoolTemp;
        }
        log := After(log, PowerOn(powered && !coolingOnOff));
        if !powered {
          return -1;
        }
        if !coolingOnOff {
          tempTarget := None;
        }
      }
      coolingOnOff := on;
      BeginRamp(now);
      ret := 0;
    }

    method BeginRamp(now: int)
      modifies this
      ensures Model() == StartRamp(old(Model()), now)
    {
      timers := [];
      timers := timers + [1];
      Check(now);
    }

    method StepRamp(busy: bool, now: int)
      modifies this
      ensures Model() == RampStep(old(Model()), busy, now)
    {
      if timers == [] {
        return;
      }
      timers := timers[1..];
      if busy {
        timers := timers + [5];
        return;
      }
      var on := coolingOnOff;
      var goal := if on then tempSet else Some(offTemp);
      if goal.None? {
        return;
      }
      var cur := tempTarget;
      if cur.None? {
        cur := tempCCD;
        if cur.None? {
          timers := timers + [10];
          return;
        }
      }
      MoveSetPoint(cur.value, goal.value);
      Check(now);
    }

    method MoveSetPoint(cur: real, goal: real)
      modifies `tempTarget, `timers, `log
      ensures Model() == Approach(old(Model()), cur, goal)
    {
      var step := StepOf(tempRamp);
      var next := goal;
      if !(step.None? || Abs(goal - cur) <= step.value) {
        next := cur + (if goal > cur then step.value else -step.value);
      }
      log := After(log, SetPoint(cur, next, goal, step));
      tempTarget := Some(next);
      if next != goal {
        timers := timers + [RAMP_INTERVAL];
      } else if !coolingOnOff {
        log := After(log, PowerOff(coolingOnOff));
      }
    }

    method Check(now: int)
      modifies `stableSince, `stable, `log
      ensures Model() == CheckStable(old(Model()), now)
    {
      var within := coolingOnOff && tempTarget.Some? && tempTarget == tempSet
                    && tempCCD.Some? && tolerance.Some? && Abs(tempCCD.value - tempSet.value) <= tolerance.value;
      if !within {
        stableSince := None;
      } else if stableSince.None? {
        stableSince := Some(now);
      }
      var s := within && now - stableSince.value >= STABLE_SEC;
      if s != stable {
        stable := s;
      }
      log := After(log, Checked(now, within));
    }
  }
}
