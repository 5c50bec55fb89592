/**
  The BART roof as a whole: the dome state machine with the BART driver under it
  and the board under that (base/dome/src/dome.cpp, base/dome/bart/bart.cpp).
*/
module BartSystem {
  import Ford
  import Bart
  import Dome

  datatype System = System(dome: Dome.State, roof: Bart.Roof)

  /** domeOpenStart with the driver's own answers. */
  function Open(s: System, good: bool): (System, int) {
    var (probed, probe) := Bart.IsOpened(s.roof);
    var (roof, started) := if probe != -2 && good then Bart.StartOpen(probed) else (probed, 0);
    var (dome, ret) := Dome.OpenStart(s.dome, probe, good, started);
    (System(dome, roof), ret)
  }

  /** domeCloseStart with the driver's own answers. */
  function Close(s: System, quiet: bool): (System, int) {
    var (probed, probe) := Bart.IsClosed(s.roof);
    var (roof, started) := if probe != -2 then Bart.StartClose(probed) else (probed, 0);
    var (dome, ret) := Dome.CloseStart(s.dome, quiet, probe, started, roof.line.now);
    (System(dome, roof), ret)
  }

  /** checkOpening with the driver's own answers. */
  function Check(s: System): System {
    if s.dome.word.phase == Dome.Opening then
      var (polled, poll) := Bart.IsOpened(s.roof);
      var (roof, ended) := if poll < 0 then Bart.EndOpen(polled) else (polled, 0);
      System(Dome.Check(s.dome, poll, ended), roof)
    else if s.dome.word.phase == Dome.Closing then
      var (polled, poll) := Bart.IsClosed(s.roof);
      var (roof, ended) := if poll < 0 then Bart.EndClose(polled) else (polled, 0);
      System(Dome.Check(s.dome, poll, ended), roof)
    else s
  }

  /**
    The check of a roof that should be closed, in Bart's idle. `due` stands for the
    clock, auto_close and the weather; a roof found open at rest is closed quietly.
  */
  function CheckClosedRoof(s: System, due: bool): System {
    if Dome.MayCloseQuietly(s.dome) && due then
      var (seen, ok) := Ford.Poll(s.roof.line);
      var s := s.(roof := s.roof.(line := seen));
      if ok && Bart.CLOSED_SWITCH !in seen.cacheA && Bart.MOTOR !in seen.cacheB then Close(s, true).0 else s
    else s
  }

  datatype Event =
    | OpenAsked(good: bool)
    | CloseAsked
    | RetryFires
    | StopAsked
    | Checked
    | IdleRoofCheck(due: bool)
    | SocketsAsked(wanted: seq<bool>)
    | SocketWritten(socket: nat, on: bool)

  predicate Possible(e: Event) {
    && (e.SocketsAsked? ==> |e.wanted| == Bart.SOCKETS)
    && (e.SocketWritten? ==> e.socket < Bart.SOCKETS)
  }

  function SocketsSwitched(s: System, wanted: seq<bool>): System
    requires |wanted| == Bart.SOCKETS
  {
    s.(roof := Bart.SwitchSockets(s.roof, wanted, 0))
  }

  function Step(s: System, e: Event): System
    requires Possible(e)
  {
    match e
    case OpenAsked(good) => Open(s, good).0
    case CloseAsked => Close(s, false).0
    case RetryFires => if s.dome.timers > 0 then Close(s.(dome := s.dome.(timers := s.dome.timers - 1)), false).0 else s
    case StopAsked => s.(dome := Dome.Stop(s.dome, -1).0)   // BART does not override stop
    case Checked => Check(s)
    case IdleRoofCheck(due) => CheckClosedRoof(s, due)
    case SocketsAsked(wanted) => SocketsSwitched(s, wanted)
    case SocketWritten(socket, on) => s.(roof := Bart.SwitchSocket(s.roof, socket, on))
  }

  function Run(s: System, events: seq<Event>): System
    requires forall e :: e in events ==> Possible(e)
  {
    if events == [] then s else Step(Run(s, events[..|events| - 1]), events[|events| - 1])
  }

  /** After init: the board is in any state, the phase read off the end switches. */
  predicate Initial(s: System) {
    && s.roof.line.history == [s.roof.line.relays] && s.roof.line.now > 0
    && s.roof == Bart.Roof(s.roof.line, 0, 0, false, 0)
    && (s.dome.word.phase == Dome.Unknown || s.dome.word.phase == Dome.Closed || s.dome.word.phase == Dome.Opened)
    && s.dome == Dome.START.(word := Dome.START.word.(phase := s.dome.word.phase))
  }

  /** An opening roof is driven open and a closing one closed, under the matching timeout. */
  predicate Directed(phase: Dome.Phase, roof: Bart.Roof) {
    Bart.MotorOn(roof) && !roof.stopFailed ==>
      && (phase == Dome.Opening ==> !Bart.TowardsClosed(roof) && roof.openTimeout != 0)
      && (phase == Dome.Closing ==> Bart.TowardsClosed(roof) && roof.closeTimeout != 0)
  }

  ghost predicate Inv(s: System) {
    && Dome.Inv(s.dome)
    && Bart.Sound(s.roof.line, s.roof.alarms)
    && Directed(s.dome.word.phase, s.roof)
  }

  lemma OpenKeeps(s: System, good: bool)
    requires Inv(s)
    ensures Inv(Open(s, good).0)
  {
    var (probed, probe) := Bart.IsOpened(s.roof);
    Bart.PollsRespectTheTimeouts(s.roof);
    Bart.StartOpenEffect(probed);
    var (roof, started) := if probe != -2 && good then Bart.StartOpen(probed) else (probed, 0);
    Dome.OpenStartKeeps(s.dome, probe, good, started);
  }

  lemma CloseKeeps(s: System, quiet: bool)
    requires Inv(s) && (quiet ==> Dome.MayCloseQuietly(s.dome))
    ensures Inv(Close(s, quiet).0)
  {
    var (probed, probe) := Bart.IsClosed(s.roof);
    Bart.PollsRespectTheTimeouts(s.roof);
    Bart.StartCloseEffect(probed);
    var (roof, started) := if probe != -2 then Bart.StartClose(probed) else (probed, 0);
    Dome.CloseStartKeeps(s.dome, quiet, probe, started, roof.line.now);
  }

  lemma CheckKeeps(s: System)
    requires Inv(s)
    ensures Inv(Check(s))
  {
    Bart.PollsRespectTheTimeouts(s.roof);
    if s.dome.word.phase == Dome.Opening {
      var (polled, poll) := Bart.IsOpened(s.roof);
      Bart.EndOpenEffect(polled);
      Dome.CheckKeeps(s.dome, poll, if poll < 0 then Bart.EndOpen(polled).1 else 0);
    } else if s.dome.word.phase == Dome.Closing {
      var (polled, poll) := Bart.IsClosed(s.roof);
      Bart.EndCloseEffect(polled);
      Dome.CheckKeeps(s.dome, poll, if poll < 0 then Bart.EndClose(polled).1 else 0);
    }
  }

  // ----- The dome under this driver

  /** What the dome hears of a close that this driver answers. */
  function CloseAnswers(roof: Bart.Roof): (int, int, int) {
    var (probed, probe) := Bart.IsClosed(roof);
    var (r, started) := if probe != -2 then Bart.StartClose(probed) else (probed, 0);
    (probe, started, r.line.now)
  }

  function OpeningHeard(roof: Bart.Roof): (e: Dome.Event)
    ensures e.CheckMove?
  {
    var (polled, poll) := Bart.IsOpened(roof);
    Dome.CheckMove(poll, Bart.EndOpen(polled).1)
  }

  function ClosingHeard(roof: Bart.Roof): (e: Dome.Event)
    ensures e.CheckMove?
  {
    var (polled, poll) := Bart.IsClosed(roof);
    Dome.CheckMove(poll, Bart.EndClose(polled).1)
  }

  /** The roof is seen open, with its motor off. */
  predicate SeenOpen(roof: Bart.Roof) {
    var (seen, ok) := Ford.Poll(roof.line);
    ok && Bart.CLOSED_SWITCH !in seen.cacheA && Bart.MOTOR !in seen.cacheB
  }

  /** The calls of the dome that an event comes to, with the answers of this driver. */
  function Heard(s: System, e: Event): (calls: seq<Dome.Event>)
    ensures |calls| <= 1
  {
    match e
    case OpenAsked(good) =>
      var (probed, probe) := Bart.IsOpened(s.roof);
      [Dome.OpenAsk(probe, good, if probe != -2 && good then Bart.StartOpen(probed).1 else 0)]
    case CloseAsked =>
      var (probe, started, now) := CloseAnswers(s.roof);
      [Dome.CloseAsk(probe, started, now)]
    case RetryFires =>
      var (probe, started, now) := CloseAnswers(s.roof);
      [Dome.RetryFires(probe, started, now)]
    case StopAsked => [Dome.StopAsk(-1)]
    case Checked =>
      if s.dome.word.phase == Dome.Opening then [OpeningHeard(s.roof)] else [ClosingHeard(s.roof)]
    case IdleRoofCheck(due) =>
      if due && SeenOpen(s.roof) then
        var (probe, started, now) := CloseAnswers(s.roof.(line := Ford.Poll(s.roof.line).0));
        [Dome.QuietAsk(probe, started, now)]
      else []
    case SocketsAsked(_) => []
    case SocketWritten(_, _) => []
  }

  function AllHeard(s: System, events: seq<Event>): seq<Dome.Event>
    requires forall e :: e in events ==> Possible(e)
  {
    if events == [] then []
    else AllHeard(s, events[..|events| - 1]) + Heard(Run(s, events[..|events| - 1]), events[|events| - 1])
  }

  lemma OpenIsHeard(s: System, good: bool)
    ensures Open(s, good).0.dome == Dome.Step(s.dome, Heard(s, OpenAsked(good))[0])
  {
  }

  lemma CloseIsHeard(s: System, quiet: bool)
    ensures var (probe, started, now) := CloseAnswers(s.roof);
            Close(s, quiet).0.dome == Dome.CloseStart(s.dome, quiet, probe, started, now).0
  {
  }

  lemma OpeningIsHeard(s: System)
    requires s.dome.word.phase == Dome.Opening
    ensures var e := OpeningHeard(s.roof); Check(s).dome == Dome.Check(s.dome, e.poll, e.ended)
  {
  }

  lemma ClosingIsHeard(s: System)
    requires s.dome.word.phase == Dome.Closing
    ensures var e := ClosingHeard(s.roof); Check(s).dome == Dome.Check(s.dome, e.poll, e.ended)
  {
  }

  lemma CheckIsHeard(s: System)
    ensures Check(s).dome
            == Dome.Step(s.dome, if s.dome.word.phase == Dome.Opening then OpeningHeard(s.roof)
                                 else ClosingHeard(s.roof))
  {
    if s.dome.word.phase == Dome.Opening {
      OpeningIsHeard(s);
      Dome.StepChecks(s.dome, OpeningHeard(s.roof));
    } else if s.dome.word.phase == Dome.Closing {
      ClosingIsHeard(s);
      Dome.StepChecks(s.dome, ClosingHeard(s.roof));
    } else {
      Dome.RestIsNotChecked(s.dome, ClosingHeard(s.roof));
    }
  }

  lemma RetryIsHeard(s: System)
    ensures Step(s, RetryFires).dome == Dome.Step(s.dome, Heard(s, RetryFires)[0])
  {
    if s.dome.timers > 0 {
      CloseIsHeard(s.(dome := s.dome.(timers := s.dome.timers - 1)), false);
    }
  }

  lemma IdleIsHeard(s: System, due: bool)
    ensures var heard := Heard(s, IdleRoofCheck(due));
            CheckClosedRoof(s, due).dome == if heard == [] then s.dome else Dome.Step(s.dome, heard[0])
  {
    CloseIsHeard(s.(roof := s.roof.(line := Ford.Poll(s.roof.line).0)), true);
  }

  lemma StepIsHeard(s: System, e: Event)
    requires Possible(e)
    ensures Step(s, e).dome == if Heard(s, e) == [] then s.dome else Dome.Step(s.dome, Heard(s, e)[0])
  {
    match e
    case OpenAsked(good) => OpenIsHeard(s, good);
    case CloseAsked => CloseIsHeard(s, false);
    case RetryFires => RetryIsHeard(s);
    case StopAsked =>
    case Checked => CheckIsHeard(s);
    case IdleRoofCheck(due) => IdleIsHeard(s, due);
    case SocketsAsked(_) =>
    case SocketWritten(_, _) =>
  }

  /**
    Every run of this roof is a run of the dome with the answers of its driver, so what
    holds of the dome with any driver holds of it.
  */
  lemma {:induction false} RunIsHeard(s: System, events: seq<Event>)
    requires forall e :: e in events ==> Possible(e)
    ensures Run(s, events).dome == Dome.Run(s.dome, AllHeard(s, events))
  {
    if events != [] {
      var before, e := events[..|events| - 1], events[|events| - 1];
      RunIsHeard(s, before);
      var m := Run(s, before);
      StepIsHeard(m, e);
      Dome.RunOn(s.dome, AllHeard(s, before), Heard(m, e));
    }
  }

  /**
    With a board that answers, the roof is closed quietly if and only if that is due, the
    roof should be closed, no ordinary close is failing, and it is seen open with its motor
    off; nothing else changes the dome.
  */
  lemma ClosedQuietlyExactly(s: System, due: bool)
    requires Ford.Healthy(s.roof.line, 1)
    ensures var r := Step(s, IdleRoofCheck(due));
            var asked := Dome.After(s.dome.log, Dome.QuietAsked);
            if due && s.dome.word.phase == Dome.Closed && s.dome.retries == 0 && s.dome.reported == 0
               && Bart.CLOSED_SWITCH !in s.roof.line.script[0].inputs && !Bart.MotorOn(s.roof)
            then r.dome.log == asked || r.dome.log.earlier == asked
            else r.dome == s.dome && r.roof.line.relays == s.roof.line.relays
  {
    Ford.HealthyPoll(s.roof.line, 1);
  }

  lemma {:induction false} SocketsSpareTheRoof(r: Bart.Roof, wanted: seq<bool>, i: nat)
    requires Bart.Sound(r.line, r.alarms) && |wanted| == Bart.SOCKETS && i <= Bart.SOCKETS
    ensures var r' := Bart.SwitchSockets(r, wanted, i);
            && r' == r.(line := r'.line)
            && Bart.Sound(r'.line, r'.alarms)
            && Bart.MotorOn(r') == Bart.MotorOn(r) && Bart.TowardsClosed(r') == Bart.TowardsClosed(r)
    decreases Bart.SOCKETS - i
  {
    if i < Bart.SOCKETS {
      Bart.SocketWritesSpareTheRoof(r, i, wanted[i]);
      var s := Bart.SwitchSocket(r, i, wanted[i]);
      Bart.SoundIdle(s.line, s.line.Sleep(1), s.alarms);
      SocketsSpareTheRoof(s.(line := s.line.Sleep(1)), wanted, i + 1);
    }
  }

  /** On a line that does what it should the sockets follow what is asked for, and nothing else does. */
  lemma SocketsFollow(s: System, wanted: seq<bool>)
    requires |wanted| == Bart.SOCKETS && Ford.Healthy(s.roof.line, 18)
    ensures var r := Step(s, SocketsAsked(wanted));
            r.dome == s.dome && Bart.AsWanted(r.roof.line.relays, s.roof.line.relays, wanted, 0)
  {
    assert 3 * (Bart.SOCKETS - 0) == 18;
    Bart.HealthyRound(s.roof, wanted, 0);
    StepIsRound(s, wanted);
  }

  lemma StepIsRound(s: System, wanted: seq<bool>)
    requires |wanted| == Bart.SOCKETS
    ensures Step(s, SocketsAsked(wanted)) == SocketsSwitched(s, wanted)
  {
  }

  lemma SocketFollows(s: System, socket: nat, on: bool)
    requires socket < Bart.SOCKETS && Ford.Healthy(s.roof.line, 3)
    ensures var r := Step(s, SocketWritten(socket, on));
            && r.dome == s.dome
            && r.roof.line.relays == if on then s.roof.line.relays - {socket} else s.roof.line.relays + {socket}
  {
    Bart.HealthySocket(s.roof, socket, on);
  }

  /** This driver cannot stop: a stop only withdraws the retries. */
  lemma StopWithdrawsRetries(s: System)
    ensures var r := Step(s, StopAsked);
            r.roof == s.roof && r.dome.word == s.dome.word && r.dome.timers == 0
  {
  }

  lemma StepKeeps(s: System, e: Event)
    requires Inv(s) && Possible(e)
    ensures Inv(Step(s, e))
  {
    match e
    case OpenAsked(good) => OpenKeeps(s, good);
    case CloseAsked => CloseKeeps(s, false);
    case RetryFires =>
      if s.dome.timers > 0 {
        assert Close(s.(dome := s.dome.(timers := s.dome.timers - 1)), false) == Close(s, false);
        CloseKeeps(s, false);
      }
    case StopAsked => Dome.StepKeeps(s.dome, Dome.StopAsk(-1));
    case Checked => CheckKeeps(s);
    case IdleRoofCheck(due) =>
      Bart.SoundPoll(s.roof.line, s.roof.alarms);
      var seen := Ford.Poll(s.roof.line).0;
      if Dome.MayCloseQuietly(s.dome) && due {
        CloseKeeps(s.(roof := s.roof.(line := seen)), true);
      }
    case SocketsAsked(wanted) => SocketsSpareTheRoof(s.roof, wanted, 0);
    case SocketWritten(socket, on) => Bart.SocketWritesSpareTheRoof(s.roof, socket, on);
  }

  lemma {:induction false} RunKeeps(s: System, events: seq<Event>)
    requires Initial(s) && forall e :: e in events ==> Possible(e)
    ensures Inv(Run(s, events))
  {
    if events != [] {
      var n := |events| - 1;
      RunKeeps(s, events[..n]);
      StepKeeps(Run(s, events[..n]), events[n]);
    }
  }

  /**
    Direction safety, in every run, with reads that fail and writes that get lost:
    while the roof opens with the motor on, the direction output is off, while it
    closes with the motor on, it is on, and the timeout that will end the move is
    armed - unless the last attempt to stop the motor failed. Until such a failure
    raised its CRITICAL, the motor was never reversed while running.
  */
  lemma MotorFollowsTheState(s: System, events: seq<Event>)
    requires Initial(s) && forall e :: e in events ==> Possible(e)
    ensures var s' := Run(s, events);
            var relays := s'.roof.line.relays;
            && (s'.dome.word.phase == Dome.Opening && Bart.MOTOR in relays && !s'.roof.stopFailed
                ==> Bart.SMER !in relays && s'.roof.openTimeout != 0)
            && (s'.dome.word.phase == Dome.Closing && Bart.MOTOR in relays && !s'.roof.stopFailed
                ==> Bart.SMER in relays && s'.roof.closeTimeout != 0)
            && (s'.roof.alarms == 0 ==> Bart.NeverReversed(s'.roof.line.history))
  {
    RunKeeps(s, events);
  }

  /**
    No ordinary close of the BART roof is forgotten, and its own quiet re-close of a
    roof found open stays out of the way of one.
  */
  lemma NoCloseForgotten(s: System, events: seq<Event>, due: bool)
    requires Initial(s) && forall e :: e in events ==> Possible(e)
    ensures var s' := Run(s, events);
            var t := Dome.Tell(s'.dome.log);
            && t.earned
            && (t.closePending ==>
                  && ((s'.dome.word.phase == Dome.Closing && !s'.dome.quiet) || s'.dome.timers > 0 || t.gaveUp)
                  && CheckClosedRoof(s', due) == s')
  {
    RunKeeps(s, events);
  }

  // ----- A motor nobody watches

  /** The motor runs only in a phase whose poll will end the move. */
  predicate Watched(s: System) {
    Bart.MotorOn(s.roof) && !s.roof.stopFailed ==>
      s.dome.word.phase == Dome.Opening || s.dome.word.phase == Dome.Closing
  }

  /**
    A close request leaves a running motor unwatched in one case only: its probe
    finds the closed switch made, and the dome is marked closed without endClose.
  */
  lemma CloseRequestAbandonsMotor(s: System)
    requires Inv(s) && Watched(s)
    ensures Watched(Close(s, false).0)
            <==> !(Bart.MotorOn(s.roof) && !s.roof.stopFailed && Bart.SwitchSeen(s.roof.line, Bart.CLOSED_SWITCH))
  {
    Bart.PollsRespectTheTimeouts(s.roof);
    Bart.StartCloseEffect(Bart.IsClosed(s.roof).0);
  }

  /**
    Likewise an open request, when its probe finds the open switch made or the
    opening overdue: the dome is marked opened without endOpen.
  */
  lemma OpenRequestAbandonsMotor(s: System, good: bool)
    requires Inv(s) && Watched(s)
    ensures var overdue := s.roof.openTimeout != 0 && s.roof.openTimeout < s.roof.line.Used().now;
            Watched(Open(s, good).0)
            <==> !(Bart.MotorOn(s.roof) && !s.roof.stopFailed
                   && (Bart.SwitchSeen(s.roof.line, Bart.OPENED_SWITCH) || overdue))
  {
    Bart.PollsRespectTheTimeouts(s.roof);
    Bart.StartOpenEffect(Bart.IsOpened(s.roof).0);
  }

  /** The dome's own poll never does: it ends the move and the motor with it. */
  lemma PollNeverAbandonsMotor(s: System)
    requires Inv(s) && Watched(s)
    ensures Watched(Check(s))
  {
    Bart.PollsRespectTheTimeouts(s.roof);
    Bart.EndOpenEffect(Bart.IsOpened(s.roof).0);
    Bart.EndCloseEffect(Bart.IsClosed(s.roof).0);
  }

  // ----- It does happen

  /** An answer of the board with these end switches made. */
  function Answering(inputs: Ford.Port): Ford.Exchange {
    Ford.Exchange(true, inputs, true, true, 0)
  }

  /** A daemon started while the roof closes; the board answers, the fifth time with this end switch made. */
  function FoundClosing(switch: nat): System {
    var none := Answering({});
    var running := {Bart.MOTOR, Bart.SMER};
    var line := Ford.Line(running, {}, {}, 1, [none, none, none, none, Answering({switch})], [running]);
    System(Dome.START.(word := Dome.START.word.(phase := Dome.Unknown)), Bart.Roof(line, 0, 0, false, 0))
  }

  lemma AdoptedClose(switch: nat)
    ensures var s := Close(FoundClosing(switch), false).0;
            && s.roof.line.relays == {Bart.MOTOR, Bart.SMER} && s.roof.line.script == [Answering({switch})]
            && !s.roof.stopFailed && s.dome.word.phase == Dome.Closing && s.roof.openTimeout == 0
  {
    var s := FoundClosing(switch);
    var none := Answering({});
    var (probed, probe) := Bart.IsClosed(s.roof);
    assert probed.line.script == [none, none, none, Answering({switch})] && probe == Bart.USEC_SEC;
    var (asked, notClosed) := Ford.InputOn(probed.line, Bart.CLOSED_SWITCH);
    assert asked.script == [none, none, Answering({switch})] && notClosed == 1;
    var (motorRead, motor) := Ford.OutputOn(asked, Bart.MOTOR);
    assert motorRead.script == [none, Answering({switch})] && motor == 0;
    var (smerRead, smer) := Ford.OutputOn(motorRead, Bart.SMER);
    assert smerRead.script == [Answering({switch})] && smer == 0;
  }

  /**
    A roof found closing at the start of the daemon is asked to close, and so watched;
    asked again just as its switch is made, it is marked closed with the motor on. Asked
    to open instead with the other switch made, it is marked opened with the motor on.
  */
  lemma RequestsDoAbandonTheMotor()
    ensures Initial(FoundClosing(Bart.CLOSED_SWITCH)) && Initial(FoundClosing(Bart.OPENED_SWITCH))
    ensures var s := Run(FoundClosing(Bart.CLOSED_SWITCH), [CloseAsked]);
            var s' := Run(FoundClosing(Bart.CLOSED_SWITCH), [CloseAsked, CloseAsked]);
            && Inv(s) && Watched(s) && !Watched(s')
            && s'.dome.word.phase == Dome.Closed && Bart.MotorOn(s'.roof)
    ensures var s := Run(FoundClosing(Bart.OPENED_SWITCH), [CloseAsked]);
            var s' := Run(FoundClosing(Bart.OPENED_SWITCH), [CloseAsked, OpenAsked(true)]);
            && Inv(s) && Watched(s) && !Watched(s')
            && s'.dome.word.phase == Dome.Opened && Bart.MotorOn(s'.roof)
  {
    RunOfTwo(FoundClosing(Bart.CLOSED_SWITCH), CloseAsked, CloseAsked);
    RunOfTwo(FoundClosing(Bart.OPENED_SWITCH), CloseAsked, OpenAsked(true));
    AdoptedClose(Bart.CLOSED_SWITCH);
    AdoptedClose(Bart.OPENED_SWITCH);
    RunKeeps(FoundClosing(Bart.CLOSED_SWITCH), [CloseAsked]);
    RunKeeps(FoundClosing(Bart.OPENED_SWITCH), [CloseAsked]);
    CloseRequestAbandonsMotor(Run(FoundClosing(Bart.CLOSED_SWITCH), [CloseAsked]));
    OpenRequestAbandonsMotor(Run(FoundClosing(Bart.OPENED_SWITCH), [CloseAsked]), true);
  }

  lemma RunOfTwo(s: System, first: Event, second: Event)
    requires Possible(first) && Possible(second)
    ensures Run(s, [first]) == Step(s, first)
    ensures Run(s, [first, second]) == Step(Step(s, first), second)
  {
    assert [first, second][..1] == [first] && [first][..0] == [];
    assert Run(s, []) == s;
  }

  // ----- A move that nothing ends

  /** A roof that opens or closes has the timeout armed that ends the move. */
  predicate Timed(s: System) {
    && (s.dome.word.phase == Dome.Opening ==> s.roof.openTimeout != 0)
    && (s.dome.word.phase == Dome.Closing ==> s.roof.closeTimeout != 0)
  }

  /**
    The probe misses the end switch, the next reading sees it. The driver then ends a move
    that has not begun, and disarms its timeout; the dome takes a motor verified off for a
    motor started.
  */
  predicate SeenLate(s: System, switch: nat, phase: Dome.Phase) {
    var l := s.roof.line;
    && !Bart.SwitchSeen(l, switch) && Bart.SwitchSeen(l.Used(), switch)
    && (s.dome.word.phase == phase || Bart.StopMotor(Bart.Polled(Bart.Polled(s.roof))).1)
  }

  predicate Overdue(timeout: int, now: int) {
    timeout != 0 && timeout < now
  }

  /** The roof is seen neither closed nor moving, and is to be closed quietly. */
  predicate FoundOpen(s: System) {
    var e := s.roof.line.Next();
    && Dome.MayCloseQuietly(s.dome)
    && e.answered && Bart.CLOSED_SWITCH !in e.inputs && Bart.MOTOR !in s.roof.line.relays
  }

  predicate LeavesUntimed(s: System, e: Event) {
    match e
    case OpenAsked(good) =>
      good && !Overdue(s.roof.openTimeout, s.roof.line.Used().now) && SeenLate(s, Bart.OPENED_SWITCH, Dome.Opening)
    case CloseAsked => SeenLate(s, Bart.CLOSED_SWITCH, Dome.Closing)
    case RetryFires => s.dome.timers > 0 && SeenLate(s, Bart.CLOSED_SWITCH, Dome.Closing)
    case IdleRoofCheck(due) =>
      due && FoundOpen(s) && SeenLate(s.(roof := Bart.Polled(s.roof)), Bart.CLOSED_SWITCH, Dome.Closing)
    case _ => false
  }

  lemma OpenTimed(s: System, good: bool)
    requires Inv(s) && Timed(s)
    ensures Timed(Open(s, good).0) <==> !LeavesUntimed(s, OpenAsked(good))
  {
    Bart.PollsRespectTheTimeouts(s.roof);
    Bart.StartOpenTimes(Bart.IsOpened(s.roof).0);
    Bart.StartOpenEffect(Bart.IsOpened(s.roof).0);
  }

  lemma CloseTimed(s: System, quiet: bool)
    requires Inv(s) && Timed(s)
    ensures Timed(Close(s, quiet).0) <==> !SeenLate(s, Bart.CLOSED_SWITCH, Dome.Closing)
  {
    Bart.PollsRespectTheTimeouts(s.roof);
    Bart.StartCloseTimes(Bart.IsClosed(s.roof).0);
    Bart.StartCloseEffect(Bart.IsClosed(s.roof).0);
  }

  lemma IdleTimed(s: System, due: bool)
    requires Inv(s) && Timed(s)
    ensures Timed(CheckClosedRoof(s, due)) <==> !LeavesUntimed(s, IdleRoofCheck(due))
  {
    IdleCloses(s, due);
    if due && FoundOpen(s) {
      Bart.SoundPoll(s.roof.line, s.roof.alarms);
      CloseTimed(s.(roof := Bart.Polled(s.roof)), true);
    }
  }

  lemma IdleCloses(s: System, due: bool)
    ensures var polled := s.(roof := Bart.Polled(s.roof));
            var r := CheckClosedRoof(s, due);
            if due && FoundOpen(s) then r == Close(polled, true).0 else r == s || r == polled
  {
  }

  lemma CheckTimed(s: System)
    requires Timed(s)
    ensures Timed(Check(s))
  {
  }

  lemma RetryTimed(s: System)
    requires Inv(s) && Timed(s)
    ensures Timed(Step(s, RetryFires)) <==> !LeavesUntimed(s, RetryFires)
  {
    if s.dome.timers > 0 {
      assert Close(s.(dome := s.dome.(timers := s.dome.timers - 1)), false) == Close(s, false);
      CloseTimed(s, false);
    }
  }

  /** A step leaves a roof that moves without a timeout if and only if it sees the end switch late. */
  lemma StepTimed(s: System, e: Event)
    requires Inv(s) && Timed(s) && Possible(e)
    ensures Timed(Step(s, e)) <==> !LeavesUntimed(s, e)
  {
    match e
    case OpenAsked(good) => OpenTimed(s, good);
    case CloseAsked => CloseTimed(s, false);
    case RetryFires => RetryTimed(s);
    case StopAsked =>
    case Checked => CheckTimed(s);
    case IdleRoofCheck(due) => IdleTimed(s, due);
    case SocketsAsked(wanted) => SocketsSpareTheRoof(s.roof, wanted, 0);
    case SocketWritten(socket, on) => Bart.SocketWritesSpareTheRoof(s.roof, socket, on);
  }

  predicate NoneUntimed(s: System, events: seq<Event>)
    requires forall e :: e in events ==> Possible(e)
  {
    events == [] ||
    (var before := events[..|events| - 1];
     NoneUntimed(s, before) && !LeavesUntimed(Run(s, before), events[|events| - 1]))
  }

  /** So in every run without such a step a roof that opens or closes has its timeout. */
  lemma {:induction false} MovesAreTimed(s: System, events: seq<Event>)
    requires Initial(s) && (forall e :: e in events ==> Possible(e)) && NoneUntimed(s, events)
    ensures Timed(Run(s, events))
  {
    if events != [] {
      var before := events[..|events| - 1];
      MovesAreTimed(s, before);
      RunKeeps(s, before);
      StepTimed(Run(s, before), events[|events| - 1]);
    }
  }

  /** Once overdue, a timeout ends its move at the next check. */
  lemma TimeoutEndsTheMove(s: System)
    requires s.dome.word.phase == Dome.Opening || s.dome.word.phase == Dome.Closing
    requires Timed(s)
    requires var timeout := if s.dome.word.phase == Dome.Opening then s.roof.openTimeout else s.roof.closeTimeout;
             timeout < s.roof.line.Used().now
    ensures Check(s).dome.word.phase == if s.dome.word.phase == Dome.Opening then Dome.Opened else Dome.Closed
  {
  }

  /** No answer still to come shows the switch. */
  predicate NeverSeen(l: Ford.Line, switch: nat) {
    forall i :: 0 <= i < |l.script| && l.script[i].answered ==> switch !in l.script[i].inputs
  }

  function Checks(n: nat): (events: seq<Event>)
    ensures forall e :: e in events ==> Possible(e)
  {
    if n == 0 then [] else Checks(n - 1) + [Checked]
  }

  /** A move without a timeout, whose end switch will not be seen. */
  predicate Stuck(s: System) {
    || (s.dome.word.phase == Dome.Opening && s.roof.openTimeout == 0 && NeverSeen(s.roof.line, Bart.OPENED_SWITCH))
    || (s.dome.word.phase == Dome.Closing && s.roof.closeTimeout == 0 && NeverSeen(s.roof.line, Bart.CLOSED_SWITCH))
  }

  lemma CheckStaysStuck(s: System)
    requires Stuck(s)
    ensures Stuck(Check(s)) && Check(s).dome == s.dome
  {
    PollNeverSees(s.roof.line, if s.dome.word.phase == Dome.Opening then Bart.OPENED_SWITCH else Bart.CLOSED_SWITCH);
  }

  lemma PollNeverSees(l: Ford.Line, switch: nat)
    requires NeverSeen(l, switch)
    ensures NeverSeen(Ford.Poll(l).0, switch) && NeverSeen(l.Used(), switch) && !Bart.SwitchSeen(l, switch)
  {
    if l.script != [] {
      assert forall i :: 0 <= i < |l.script| - 1 ==> l.script[1..][i] == l.script[i + 1];
    }
  }

  /** Nothing ends it then, however often it is checked and however late. */
  lemma {:induction false} NothingEndsTheMove(s: System, n: nat)
    requires Stuck(s)
    ensures Stuck(Run(s, Checks(n))) && Run(s, Checks(n)).dome == s.dome
  {
    if n > 0 {
      NothingEndsTheMove(s, n - 1);
      CheckStaysStuck(Run(s, Checks(n - 1)));
      CheckedOnce(s, n);
    }
  }

  lemma CheckedOnce(s: System, n: nat)
    requires n > 0
    ensures Run(s, Checks(n)) == Check(Run(s, Checks(n - 1)))
  {
    assert Checks(n)[..|Checks(n)| - 1] == Checks(n - 1);
  }

  /** A roof open at rest; the board answers once without the closed switch, five times with it, then without. */
  function OpenAtRest(rest: seq<Ford.Exchange>): System {
    var line := Ford.Line({}, {}, {}, 1, [Answering({})] + ([MADE] + Four(rest)), [{}]);
    System(Dome.START.(word := Dome.START.word.(phase := Dome.Opened)), Bart.Roof(line, 0, 0, false, 0))
  }

  const MADE := Answering({Bart.CLOSED_SWITCH})

  function Four(rest: seq<Ford.Exchange>): seq<Ford.Exchange> {
    [MADE] + ([MADE] + ([MADE] + ([MADE] + rest)))
  }

  /** So a close that sees its switch late, and then never again, closes on without end. */
  lemma CloseSeenLateNeverEnds(rest: seq<Ford.Exchange>, n: nat)
    requires forall i :: 0 <= i < |rest| && rest[i].answered ==> Bart.CLOSED_SWITCH !in rest[i].inputs
    ensures Initial(OpenAtRest(rest)) && LeavesUntimed(OpenAtRest(rest), CloseAsked)
    ensures var s := Step(OpenAtRest(rest), CloseAsked);
            !Bart.MotorOn(s.roof) && s.dome.word.phase == Dome.Closing && Run(s, Checks(n)).dome == s.dome
  {
    LateClose(rest);
    NothingEndsTheMove(Step(OpenAtRest(rest), CloseAsked), n);
  }

  lemma LateClose(rest: seq<Ford.Exchange>)
    requires forall i :: 0 <= i < |rest| && rest[i].answered ==> Bart.CLOSED_SWITCH !in rest[i].inputs
    ensures LeavesUntimed(OpenAtRest(rest), CloseAsked)
    ensures var s := Close(OpenAtRest(rest), false).0;
            !Bart.MotorOn(s.roof) && s.dome.word.phase == Dome.Closing && Stuck(s)
  {
    var s := OpenAtRest(rest);
    LateEnd(rest);
    LateStop(Bart.Polled(Bart.Polled(s.roof)), rest);
    assert Bart.IsClosed(s.roof) == (Bart.Polled(s.roof), Bart.USEC_SEC);
  }

  /** One use of a line whose next exchange is known. */
  lemma UseOne(l: Ford.Line, e: Ford.Exchange, rest: seq<Ford.Exchange>)
    requires l.script == [e] + rest
    ensures l.Next() == e && l.Used().script == rest
  {
  }

  /** The motor that is off is verified off. */
  lemma LateStop(r: Bart.Roof, rest: seq<Ford.Exchange>)
    requires r.line.relays == {} && r.line.script == Four(rest)
    ensures var (stopped, ok) := Bart.StopMotor(r);
            ok && stopped.line.script == rest && stopped.line.relays == {} && stopped.closeTimeout == r.closeTimeout
  {
    var l := r.line;
    UseOne(l, MADE, [MADE] + ([MADE] + ([MADE] + rest)));
    var l1 := Ford.Poll(l).0;
    UseOne(l1, MADE, [MADE] + ([MADE] + rest));
    var l2 := Ford.Poll(l1).0;
    UseOne(l2, MADE, [MADE] + rest);
    assert Ford.StableRead(l) == (l2, true) && l2.cacheB - {Bart.MOTOR} == {};
    var l3 := Ford.Write(l2, {}).0;
    UseOne(l3, MADE, rest);
    assert Ford.ClearPins(l, {Bart.MOTOR}) == (l3, true);
    assert Bart.StopOnce(l) == (Ford.Poll(l3).0, true);
  }

  lemma ClearNeverSees(l: Ford.Line, pins: Ford.Port, switch: nat)
    requires NeverSeen(l, switch)
    ensures NeverSeen(Ford.ClearPins(l, pins).0, switch)
  {
    PollNeverSees(l, switch);
    PollNeverSees(Ford.Poll(l).0, switch);
    PollNeverSees(Ford.Poll(Ford.Poll(l).0).0, switch);
  }

  /** So startClose ends at once what it did not begin. */
  lemma LateEnd(rest: seq<Ford.Exchange>)
    requires forall i :: 0 <= i < |rest| && rest[i].answered ==> Bart.CLOSED_SWITCH !in rest[i].inputs
    ensures var p := Bart.Polled(OpenAtRest(rest).roof);
            var (r, ret) := Bart.StartClose(p);
            && p.line.script == [MADE] + Four(rest) && Bart.Polled(p).line.script == Four(rest)
            && ret == 0 && r.closeTimeout == 0 && !Bart.MotorOn(r) && NeverSeen(r.line, Bart.CLOSED_SWITCH)
  {
    UseOne(OpenAtRest(rest).roof.line, Answering({}), [MADE] + Four(rest));
    var p := Bart.Polled(OpenAtRest(rest).roof);
    UseOne(p.line, MADE, Four(rest));
    assert Bart.StartClose(p) == Bart.EndClose(Bart.Polled(p));
    LateStop(Bart.Polled(p).(closeTimeout := 0), rest);
    EndNeverSees(Bart.Polled(p), rest);
  }

  lemma EndNeverSees(r: Bart.Roof, rest: seq<Ford.Exchange>)
    requires forall i :: 0 <= i < |rest| && rest[i].answered ==> Bart.CLOSED_SWITCH !in rest[i].inputs
    requires var (stopped, ok) := Bart.StopMotor(r.(closeTimeout := 0));
             ok && stopped.line.script == rest && stopped.line.relays == {} && stopped.closeTimeout == 0
    ensures var (r', ret) := Bart.EndClose(r);
            ret == 0 && r'.closeTimeout == 0 && !Bart.MotorOn(r') && NeverSeen(r'.line, Bart.CLOSED_SWITCH)
  {
    var l := Bart.StopMotor(r.(closeTimeout := 0)).0.line.Sleep(1);
    ClearNeverSees(l, {Bart.SMER}, Bart.CLOSED_SWITCH);
    Ford.ClearPinsEffect(l, {Bart.SMER});
    PollNeverSees(Ford.ClearPins(l, {Bart.SMER}).0, Bart.CLOSED_SWITCH);
  }
}
