/**
  The D50 roof as a whole: the dome state machine with the D50 driver under it and
  the board under that (base/dome/src/dome.cpp, base/dome/d50/d50.cpp).
*/
module D50System {
  import Ford
  import D50
  import Dome

  datatype System = System(dome: Dome.State, roof: D50.Roof)

  /** domeOpenStart with the driver's own answers. */
  function Open(s: System, good: bool): (System, int) {
    var (probed, probe) := D50.IsOpened(s.roof);
    var (roof, started) := if probe != -2 && good then D50.StartOpen(probed) else (probed, 0);
    var (dome, ret) := Dome.OpenStart(s.dome, probe, good, started);
    (System(dome, roof), ret)
  }

  /** domeCloseStart with the driver's own answers. */
  function Close(s: System, ignore: bool, mount: D50.Mount): (System, int) {
    var (probed, probe) := D50.IsClosed(s.roof);
    var (roof, started) := if probe != -2 then D50.StartClose(probed, ignore, mount) else (probed, 0);
    var (dome, ret) := Dome.CloseStart(s.dome, false, probe, started, roof.line.now);
    (System(dome, roof), ret)
  }

  /** checkOpening with the driver's own answers. */
  function Check(s: System): System {
    if s.dome.word.phase == Dome.Opening then
      var (polled, poll) := D50.IsOpened(s.roof);
      var (roof, ended) := if poll < 0 then D50.EndOpen(polled) else (polled, 0);
      System(Dome.Check(s.dome, poll, ended), roof)
    else if s.dome.word.phase == Dome.Closing then
      var (polled, poll) := D50.IsClosed(s.roof);
      var (roof, ended) := if poll < 0 then D50.EndClose(polled) else (polled, 0);
      System(Dome.Check(s.dome, poll, ended), roof)
    else s
  }

  function Stop(s: System): System {
    var (roof, ret) := D50.StopAll(s.roof);
    System(Dome.Stop(s.dome, ret).0, roof)
  }

  datatype Event =
    | OpenAsked(good: bool)
    | CloseAsked(ignore: bool, mount: D50.Mount)
    | RetryFires(ignore: bool, mount: D50.Mount)
    | StopAsked
    | Checked

  function Step(s: System, e: Event): System {
    match e
    case OpenAsked(good) => Open(s, good).0
    case CloseAsked(ignore, mount) => Close(s, ignore, mount).0
    case RetryFires(ignore, mount) =>
      if s.dome.timers > 0 then Close(s.(dome := s.dome.(timers := s.dome.timers - 1)), ignore, mount).0 else s
    case StopAsked => Stop(s)
    case Checked => Check(s)
  }

  function Run(s: System, events: seq<Event>): System {
    if events == [] then s else Step(Run(s, events[..|events| - 1]), events[|events| - 1])
  }

  /** After a successful init: outputs off, the phase read off the end switches. */
  predicate Initial(before: D50.Roof, s: System) {
    && D50.Started(before, s.roof)
    && (s.dome.word.phase == Dome.Unknown || s.dome.word.phase == Dome.Closed || s.dome.word.phase == Dome.Opened)
    && s.dome == Dome.START.(word := Dome.START.word.(phase := s.dome.word.phase))
  }

  ghost predicate Inv(s: System) {
    && Dome.Inv(s.dome)
    && D50.Sound(s.roof.line, D50.Rises(s.roof.line.history))
    && D50.Supervised(s.roof)
  }

  lemma OpenKeeps(s: System, good: bool)
    requires Inv(s)
    ensures Inv(Open(s, good).0)
  {
    var rises := D50.Rises(s.roof.line.history);
    var (probed, probe) := D50.IsOpened(s.roof);
    D50.PollsRespectTheDeadlines(s.roof, rises);
    D50.StartOpenEffect(probed, rises);
    var (roof, started) := if probe != -2 && good then D50.StartOpen(probed) else (probed, 0);
    Dome.OpenStartKeeps(s.dome, probe, good, started);
  }

  lemma CloseKeeps(s: System, ignore: bool, mount: D50.Mount)
    requires Inv(s)
    ensures Inv(Close(s, ignore, mount).0)
  {
    var rises := D50.Rises(s.roof.line.history);
    var (probed, probe) := D50.IsClosed(s.roof);
    D50.PollsRespectTheDeadlines(s.roof, rises);
    D50.StartCloseEffect(probed, ignore, mount, rises);
    var (roof, started) := if probe != -2 then D50.StartClose(probed, ignore, mount) else (probed, 0);
    Dome.CloseStartKeeps(s.dome, false, probe, started, roof.line.now);
  }

  lemma CheckKeeps(s: System)
    requires Inv(s)
    ensures Inv(Check(s))
  {
    var rises := D50.Rises(s.roof.line.history);
    D50.PollsRespectTheDeadlines(s.roof, rises);
    if s.dome.word.phase == Dome.Opening {
      var (polled, poll) := D50.IsOpened(s.roof);
      D50.EndsEffect(polled, rises);
      Dome.CheckKeeps(s.dome, poll, if poll < 0 then D50.EndOpen(polled).1 else 0);
    } else if s.dome.word.phase == Dome.Closing {
      var (polled, poll) := D50.IsClosed(s.roof);
      D50.EndsEffect(polled, rises);
      Dome.CheckKeeps(s.dome, poll, if poll < 0 then D50.EndClose(polled).1 else 0);
    }
  }

  lemma StepKeeps(s: System, e: Event)
    requires Inv(s)
    ensures Inv(Step(s, e))
  {
    match e
    case OpenAsked(good) => OpenKeeps(s, good);
    case CloseAsked(ignore, mount) => CloseKeeps(s, ignore, mount);
    case RetryFires(ignore, mount) =>
      if s.dome.timers > 0 {
        assert Close(s.(dome := s.dome.(timers := s.dome.timers - 1)), ignore, mount) == Close(s, ignore, mount);
        CloseKeeps(s, ignore, mount);
      }
    case StopAsked =>
      D50.StopAllEffect(s.roof, D50.Rises(s.roof.line.history));
      Dome.StepKeeps(s.dome, Dome.StopAsk(D50.StopAll(s.roof).1));
    case Checked => CheckKeeps(s);
  }

  // ----- The dome under this driver

  /** What the dome hears of a close that this driver answers. */
  function CloseAnswers(roof: D50.Roof, ignore: bool, mount: D50.Mount): (int, int, int) {
    var (probed, probe) := D50.IsClosed(roof);
    var (r, started) := if probe != -2 then D50.StartClose(probed, ignore, mount) else (probed, 0);
    (probe, started, r.line.now)
  }

  function OpeningHeard(roof: D50.Roof): (e: Dome.Event)
    ensures e.CheckMove?
  {
    var (polled, poll) := D50.IsOpened(roof);
    Dome.CheckMove(poll, D50.EndOpen(polled).1)
  }

  function ClosingHeard(roof: D50.Roof): (e: Dome.Event)
    ensures e.CheckMove?
  {
    var (polled, poll) := D50.IsClosed(roof);
    Dome.CheckMove(poll, D50.EndClose(polled).1)
  }

  /** The call of the dome that an event comes to, with the answers of this driver. */
  function Heard(s: System, e: Event): Dome.Event {
    match e
    case OpenAsked(good) =>
      var (probed, probe) := D50.IsOpened(s.roof);
      Dome.OpenAsk(probe, good, if probe != -2 && good then D50.StartOpen(probed).1 else 0)
    case CloseAsked(ignore, mount) =>
      var (probe, started, now) := CloseAnswers(s.roof, ignore, mount);
      Dome.CloseAsk(probe, started, now)
    case RetryFires(ignore, mount) =>
      var (probe, started, now) := CloseAnswers(s.roof, ignore, mount);
      Dome.RetryFires(probe, started, now)
    case StopAsked => Dome.StopAsk(D50.StopAll(s.roof).1)
    case Checked =>
      if s.dome.word.phase == Dome.Opening then OpeningHeard(s.roof) else ClosingHeard(s.roof)
  }

  function AllHeard(s: System, events: seq<Event>): seq<Dome.Event> {
    if events == [] then []
    else AllHeard(s, events[..|events| - 1]) + [Heard(Run(s, events[..|events| - 1]), events[|events| - 1])]
  }

  lemma OpenIsHeard(s: System, good: bool)
    ensures Open(s, good).0.dome == Dome.Step(s.dome, Heard(s, OpenAsked(good)))
  {
  }

  lemma CloseIsHeard(s: System, ignore: bool, mount: D50.Mount)
    ensures var (probe, started, now) := CloseAnswers(s.roof, ignore, mount);
            Close(s, ignore, mount).0.dome == Dome.CloseStart(s.dome, false, probe, started, now).0
  {
  }

  lemma OpeningIsHeard(s: System)
    requires s.dome.word.phase == Dome.Opening
    ensures var e := OpeningHeard(s.roof); Check(s).dome == Dome.Check(s.dome, e.poll, e.ended)
  {
  }

  lemma ClosingIsHeard(s: System)
    requires s.dome.word.phase == Dome.Closing
    ensures var e := ClosingHeard(s.roof); Check(s).dome == Dome.Check(s.dome, e.poll, e.ended)
  {
  }

  lemma CheckIsHeard(s: System)
    ensures Check(s).dome
            == Dome.Step(s.dome, if s.dome.word.phase == Dome.Opening then OpeningHeard(s.roof)
                                 else ClosingHeard(s.roof))
  {
    if s.dome.word.phase == Dome.Opening {
      OpeningIsHeard(s);
      Dome.StepChecks(s.dome, OpeningHeard(s.roof));
    } else if s.dome.word.phase == Dome.Closing {
      ClosingIsHeard(s);
      Dome.StepChecks(s.dome, ClosingHeard(s.roof));
    } else {
      Dome.RestIsNotChecked(s.dome, ClosingHeard(s.roof));
    }
  }

  lemma RetryIsHeard(s: System, ignore: bool, mount: D50.Mount)
    ensures Step(s, RetryFires(ignore, mount)).dome == Dome.Step(s.dome, Heard(s, RetryFires(ignore, mount)))
  {
    if s.dome.timers > 0 {
      CloseIsHeard(s.(dome := s.dome.(timers := s.dome.timers - 1)), ignore, mount);
    }
  }

  lemma StepIsHeard(s: System, e: Event)
    ensures Step(s, e).dome == Dome.Step(s.dome, Heard(s, e))
  {
    match e
    case OpenAsked(good) => OpenIsHeard(s, good);
    case CloseAsked(ignore, mount) => CloseIsHeard(s, ignore, mount);
    case RetryFires(ignore, mount) => RetryIsHeard(s, ignore, mount);
    case StopAsked =>
    case Checked => CheckIsHeard(s);
  }

  /**
    Every run of this roof is a run of the dome with the answers of its driver, so what
    holds of the dome with any driver holds of it.
  */
  lemma {:induction false} RunIsHeard(s: System, events: seq<Event>)
    ensures Run(s, events).dome == Dome.Run(s.dome, AllHeard(s, events))
  {
    if events != [] {
      var before, e := events[..|events| - 1], events[|events| - 1];
      RunIsHeard(s, before);
      var m := Run(s, before);
      StepIsHeard(m, e);
      Dome.RunOn(s.dome, AllHeard(s, before), [Heard(m, e)]);
    }
  }

  lemma {:induction false} RunKeeps(before: D50.Roof, s: System, events: seq<Event>)
    requires Initial(before, s)
    ensures Inv(Run(s, events))
  {
    if events == [] {
      D50.StartedIsSound(before, s.roof);
    } else {
      var n := |events| - 1;
      RunKeeps(before, s, events[..n]);
      StepKeeps(Run(s, events[..n]), events[n]);
    }
  }

  /**
    Whatever reads fail, writes get lost or mounts stand in the way, in every run of
    the whole dome: the outputs were never on together, an output that is on has its
    deadline armed unless the last stop failed, and no close is forgotten.
  */
  lemma RoofStaysSafe(before: D50.Roof, s: System, events: seq<Event>)
    requires Initial(before, s)
    ensures var s' := Run(s, events);
            var t := Dome.Tell(s'.dome.log);
            && (forall i :: 0 <= i < |s'.roof.line.history| ==> !D50.BothOn(s'.roof.line.history[i]))
            && (D50.IsOpening(s'.roof) && !s'.roof.stopFailed ==> s'.roof.open.max != 0)
            && (D50.IsClosing(s'.roof) && !s'.roof.stopFailed ==> s'.roof.close.max != 0)
            && t.earned
            && (t.closePending ==>
                  (s'.dome.word.phase == Dome.Closing && !s'.dome.quiet) || s'.dome.timers > 0 || t.gaveUp)
  {
    RunKeeps(before, s, events);
  }

  // ----- A motor nobody watches

  /** An output is on only in the phase whose poll will end the move. */
  predicate Watched(s: System) {
    !s.roof.stopFailed ==>
      && (D50.IsOpening(s.roof) ==> s.dome.word.phase == Dome.Opening)
      && (D50.IsClosing(s.roof) ==> s.dome.word.phase == Dome.Closing)
  }

  /** The next query is answered with this end switch made. */
  predicate SwitchSeen(l: Ford.Line, switch: nat) {
    l.Next().answered && switch in l.Next().inputs
  }

  /** The closing roof is found closed by the probe: marked closed without endClose. */
  predicate FoundClosedRunning(s: System) {
    && D50.IsClosing(s.roof) && SwitchSeen(s.roof.line, D50.CLOSED_SWITCH)
    && s.roof.close.min < s.roof.line.Used().now
  }

  /** The roof opens while the close has to wait for the mount: nothing stops the opening. */
  predicate OpeningLeftForMount(s: System, ignore: bool, mount: D50.Mount) {
    var second := s.roof.line.Used();
    && D50.IsOpening(s.roof) && !ignore && second.Next().answered
    && (D50.MountState(mount, second.Used().now) == 1 || D50.MountState(mount, second.Used().now) == 2)
  }

  /** A close request leaves a running motor unwatched in exactly these two cases. */
  lemma CloseRequestAbandonsMotor(s: System, ignore: bool, mount: D50.Mount)
    requires Inv(s) && Watched(s)
    ensures Watched(Close(s, ignore, mount).0)
            <==> s.roof.stopFailed || !(FoundClosedRunning(s) || OpeningLeftForMount(s, ignore, mount))
  {
    D50.PollsRespectTheDeadlines(s.roof, D50.Rises(s.roof.line.history));
    assert !D50.BothOn(s.roof.line.relays);
    if D50.IsClosed(s.roof).1 != -2 {
      UnprobedClose(s, ignore, mount);
    }
  }

  /** The same, once the probe did not find the roof closed. */
  lemma UnprobedClose(s: System, ignore: bool, mount: D50.Mount)
    requires Inv(s) && Watched(s)
    requires D50.IsClosed(s.roof).1 != -2
    ensures Watched(Close(s, ignore, mount).0) <==> s.roof.stopFailed || !OpeningLeftForMount(s, ignore, mount)
  {
    var rises := D50.Rises(s.roof.line.history);
    D50.PollsRespectTheDeadlines(s.roof, rises);
    var probed := D50.IsClosed(s.roof).0;
    D50.StartCloseEffect(probed, ignore, mount, rises);
    var (roof, started) := D50.StartClose(probed, ignore, mount);
    UnprobedPhase(s, ignore, mount);
    if OpeningLeftForMount(s, ignore, mount) {
      OpeningRoofIsLeft(probed, ignore, mount, rises);
    } else if started == 1 {
      assert !D50.IsOpening(s.roof);
    }
  }

  /** What the dome makes of the driver's answer. */
  lemma UnprobedPhase(s: System, ignore: bool, mount: D50.Mount)
    requires D50.IsClosed(s.roof).1 != -2
    ensures var (roof, started) := D50.StartClose(D50.IsClosed(s.roof).0, ignore, mount);
            var s' := Close(s, ignore, mount).0;
            && s'.roof == roof
            && s'.dome.word.phase == if started < 0 then s.dome.word.phase
                                     else if started > 0 then Dome.WaitClosing else Dome.Closing
  {
  }

  /** With the opening output on and the mount in the way, startClose answers 1 and stops nothing. */
  lemma OpeningRoofIsLeft(r: D50.Roof, ignore: bool, mount: D50.Mount, rises: nat)
    requires D50.Sound(r.line, rises) && D50.Supervised(r)
    requires D50.IsOpening(r) && !ignore && r.line.Next().answered
    requires D50.MountState(mount, r.line.Used().now) == 1 || D50.MountState(mount, r.line.Used().now) == 2
    ensures var (r', ret) := D50.StartClose(r, ignore, mount);
            ret == 1 && D50.IsOpening(r') && r'.stopFailed == r.stopFailed
  {
    D50.StartCloseEffect(r, ignore, mount, rises);
  }

  /** An open request does so when its probe finds the opening roof opened. */
  lemma OpenRequestAbandonsMotor(s: System, good: bool)
    requires Inv(s) && Watched(s)
    ensures Watched(Open(s, good).0)
            <==> !(D50.IsOpening(s.roof) && !s.roof.stopFailed && SwitchSeen(s.roof.line, D50.OPENED_SWITCH)
                   && s.roof.open.min < s.roof.line.Used().now)
  {
    var rises := D50.Rises(s.roof.line.history);
    D50.PollsRespectTheDeadlines(s.roof, rises);
    D50.StartOpenEffect(D50.IsOpened(s.roof).0, rises);
    assert !D50.BothOn(s.roof.line.relays);
  }

  /** Neither the dome's own poll nor a stop ever does: both end with the outputs off. */
  lemma PollAndStopNeverAbandonMotor(s: System)
    requires Inv(s) && Watched(s)
    ensures Watched(Check(s)) && Watched(Stop(s))
  {
    var rises := D50.Rises(s.roof.line.history);
    D50.PollsRespectTheDeadlines(s.roof, rises);
    D50.EndsEffect(D50.IsOpened(s.roof).0, rises);
    D50.EndsEffect(D50.IsClosed(s.roof).0, rises);
    D50.StopAllEffect(s.roof, rises);
  }

  // ----- It does happen

  function Answering(inputs: Ford.Port, elapsed: nat): Ford.Exchange {
    Ford.Exchange(true, inputs, true, true, elapsed)
  }

  const NONE_MADE: Ford.Exchange := Answering({}, 0)

  /** The board at rest, with six answers that show no end switch, then `rest`. */
  function Line(rest: seq<Ford.Exchange>): Ford.Line {
    var none := NONE_MADE;
    Ford.Line({}, {}, {}, 1, [none, none, none, none, none, none] + rest, [{}])
  }

  function AtRest(line: Ford.Line): System {
    System(Dome.START.(word := Dome.START.word.(phase := Dome.Unknown)),
           D50.Roof(line, D50.NONE, D50.NONE, D50.Wait(0, 0, false, 0, 0, 0), false, 0))
  }

  /** The roof before an init that finds it so. */
  function Before(rest: seq<Ford.Exchange>): D50.Roof {
    var line := Line(rest);
    AtRest(line.(script := [NONE_MADE] + line.script)).roof
  }

  lemma AtRestIsInitial(rest: seq<Ford.Exchange>)
    ensures Initial(Before(rest), AtRest(Line(rest)))
  {
    var line := Line(rest);
    assert ([NONE_MADE] + line.script)[1..] == line.script;
    assert D50.Init(Before(rest)).0.line.(history := [{}]) == line;
  }

  /** Both starts, on a board that answers and does as it is told. */
  lemma PowerUpWorks(r: D50.Roof, motor: nat, rest: seq<Ford.Exchange>)
    requires r.line.relays == {} && r.line.script == [NONE_MADE, NONE_MADE, NONE_MADE, NONE_MADE] + rest
    requires motor == D50.OPENING || motor == D50.CLOSING
    ensures var (r', ret) := D50.PowerUp(r, motor);
            && ret == 0 && r'.line.relays == {motor} && r'.line.script == rest && r'.line.now == r.line.now
            && r'.stopFailed == r.stopFailed
            && (motor == D50.OPENING ==> r'.open == D50.Fresh(r.line.now))
            && (motor == D50.CLOSING ==> r'.close == D50.Fresh(r.line.now))
  {
    var l := r.line;
    var none := NONE_MADE;
    assert l.script[1..] == [none, none, none] + rest;
    assert l.script[1..][1..] == [none, none] + rest;
    assert l.script[1..][1..][1..] == [none] + rest;
    assert ([none] + rest)[1..] == rest;
    var (read, ok) := Ford.StableRead(l);
    assert ok && read.script == [none, none] + rest && read.relays == {};
    var (started, acked) := Ford.SetPins(l, {motor});
    assert acked && started.script == [none] + rest && started.relays == {motor};
  }

  lemma StartsWork(rest: seq<Ford.Exchange>, good: bool)
    ensures var s := Close(AtRest(Line(rest)), true, D50.NotOpen).0;
            && s.dome.word.phase == Dome.Closing && s.roof.line.relays == {D50.CLOSING} && !s.roof.stopFailed
            && s.roof.line.script == rest && s.roof.line.now == 1 && s.roof.close == D50.Fresh(1)
    ensures good ==>
            var s := Open(AtRest(Line(rest)), true).0;
            && s.dome.word.phase == Dome.Opening && s.roof.line.relays == {D50.OPENING} && !s.roof.stopFailed
            && s.roof.line.script == rest && s.roof.line.now == 1 && s.roof.open == D50.Fresh(1)
  {
    var s := AtRest(Line(rest));
    var none := NONE_MADE;
    assert s.roof.line.script[1..] == [none, none, none, none, none] + rest;
    assert s.roof.line.script[1..][1..] == [none, none, none, none] + rest;
    var once := Ford.Poll(s.roof.line).0;
    assert once.script == [none, none, none, none, none] + rest;
    var seen := Ford.Poll(once).0;
    var r := s.roof.(line := seen);
    PowerUpWorks(r.(wait := r.wait.(since := 0, reported := false, parkSentAt := 0)), D50.CLOSING, rest);
    PowerUpWorks(r, D50.OPENING, rest);
  }

  lemma RunOfTwo(s: System, first: Event, second: Event)
    ensures Run(s, [first]) == Step(s, first)
    ensures Run(s, [first, second]) == Step(Step(s, first), second)
  {
    assert [first, second][..1] == [first] && [first][..0] == [];
    assert Run(s, []) == s;
  }

  /**
    A closing roof asked to close again as its switch is made, past the dead time, is
    marked closed with the motor on; an opening one asked to open likewise.
  */
  lemma RequestsDoAbandonTheMotor(switch: nat, ask: Event, again: Event)
    requires (switch == D50.CLOSED_SWITCH && ask == again == CloseAsked(true, D50.NotOpen))
             || (switch == D50.OPENED_SWITCH && ask == again == OpenAsked(true))
    ensures Initial(Before([Answering({switch}, 10)]), AtRest(Line([Answering({switch}, 10)])))
    ensures var start := AtRest(Line([Answering({switch}, 10)]));
            var s, s' := Run(start, [ask]), Run(start, [ask, again]);
            && Inv(s) && Watched(s) && !Watched(s') && s'.roof.line.relays != {}
            && s'.dome.word.phase == if ask.CloseAsked? then Dome.Closed else Dome.Opened
  {
    var rest := [Answering({switch}, 10)];
    var start := AtRest(Line(rest));
    RunOfTwo(start, ask, again);
    StartsWork(rest, true);
    AtRestIsInitial(rest);
    RunKeeps(Before(rest), start, [ask]);
    var s := Run(start, [ask]);
    if ask.CloseAsked? {
      CloseRequestAbandonsMotor(s, true, D50.NotOpen);
    } else {
      OpenRequestAbandonsMotor(s, true);
    }
  }

  /** And one that opens while a close has to wait for a moving mount goes on opening unwatched. */
  lemma WaitingCloseDoesAbandonTheOpening()
    ensures Initial(Before([NONE_MADE, NONE_MADE]), AtRest(Line([NONE_MADE, NONE_MADE])))
    ensures var start := AtRest(Line([NONE_MADE, NONE_MADE]));
            var mount := D50.Ready([1], [1], D50.Moving);
            var s := Run(start, [OpenAsked(true)]);
            var s' := Run(start, [OpenAsked(true), CloseAsked(false, mount)]);
            && Inv(s) && Watched(s) && !Watched(s')
            && s'.dome.word.phase == Dome.WaitClosing && D50.IsOpening(s'.roof)
  {
    var rest := [NONE_MADE, NONE_MADE];
    var start := AtRest(Line(rest));
    var mount := D50.Ready([1], [1], D50.Moving);
    RunOfTwo(start, OpenAsked(true), CloseAsked(false, mount));
    StartsWork(rest, true);
    AtRestIsInitial(rest);
    RunKeeps(Before(rest), start, [OpenAsked(true)]);
    var s := Run(start, [OpenAsked(true)]);
    var probed := D50.IsClosed(s.roof).0;
    assert probed.line.script == [NONE_MADE];
    CloseRequestAbandonsMotor(s, false, mount);
    OpeningRoofIsLeft(probed, false, mount, D50.Rises(probed.line.history));
  }
}
