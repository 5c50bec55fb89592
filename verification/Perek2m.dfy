/**
  The dome of the Perek 2m (base/dome/perek2m/perek2m.cpp): the evening and morning
  sequences of power, cover and park commands, advanced one poll at a time.
*/
module Perek2m {
  // raw GLST values
  const OIL_OFF := 0
  const OIL_ON := 4
  const OIL_OFF_DELAY := 5
  const TEL_OFF := 1
  const TEL_OFF_WAIT := 2
  const TEL_STOP := 3
  const TEL_TRACK := 4
  const TEL_SLEW := 6              // this and above: on the way to a target
  const AXIS_POSITION := 1
  const DOME_OFF := 0
  const DOME_STOP := 1
  const COVER_OPEN := 3
  const COVER_CLOSE := 4

  const PARK_TOLERANCE := 0.05
  const DOME_AZ_TOLERANCE := 1.0
  const USEC_SEC := 1000000

  /** The latest telescope_info reply. */
  datatype Info = Info(valid: bool, oil: int, tel: int, ha: int, da: int, dome: int,
                       slit: int, tube: int, mirror: int,
                       haAxis: real, decAxis: real, domeAz: real)
  {
    predicate Ready() { tel == TEL_STOP || tel == TEL_TRACK }

    predicate Slewing() { tel >= TEL_SLEW }

    predicate CoversOpen() { slit == COVER_OPEN && tube == COVER_OPEN && mirror == COVER_OPEN }

    predicate CoversClosed() { slit == COVER_CLOSE && tube == COVER_CLOSE && mirror == COVER_CLOSE }

    predicate Powered() { oil == OIL_ON && Ready() }

    predicate PoweredOff() { oil == OIL_OFF && tel == TEL_OFF }
  }

  /** The writable values; `closeAz` is empty for NaN. */
  datatype Settings = Settings(readOnly: bool, parkHa: real, parkDa: real, closeAz: seq<real>,
                               powerOff: bool, timeout: int)

  function Abs(x: real): real {
    if x < 0.0 then -x else x
  }

  /** ln_range_degrees: into [0, 360). */
  function RangeDegrees(d: real): real {
    d - 360.0 * (d / 360.0).Floor as real
  }

  predicate Parked(i: Info, c: Settings) {
    && i.tel == TEL_STOP && i.ha == AXIS_POSITION && i.da == AXIS_POSITION
    && Abs(i.haAxis - c.parkHa) <= PARK_TOLERANCE
    && Abs(i.decAxis - c.parkDa) <= PARK_TOLERANCE
  }

  predicate DomeStopped(i: Info, c: Settings) {
    && (i.dome == DOME_STOP || i.dome == DOME_OFF)
    && (c.closeAz != [] ==>
          var diff := Abs(RangeDegrees(i.domeAz - c.closeAz[0]));
          diff <= DOME_AZ_TOLERANCE || diff >= 360.0 - DOME_AZ_TOLERANCE)
  }

  datatype Command =
    | OilOn | TelescopeOn | MirrorOpen | TubeOpen | SlitOpen | DomeAuto
    | SlitShut | TubeShut | MirrorShut | DomeHalt | DomeAzimuth(az: real) | DomeGo
    | SlewAbort | TrackingOff | ParkPosition(haAxis: real, decAxis: real) | GoToPark
    | TelescopeOff | OilOff

  datatype Sequence = None | Evening | Morning

  /** What a trace records: a sequence begun, a state seen while connected, a command sent. */
  datatype Entry =
    | Began(seq_: Sequence)
    | Seen(info: Info, settings: Settings)
    | Sent(command: Command, settings: Settings)

  datatype Trace = Empty | Then(earlier: Trace, last: Entry)

  /** `answers` is what the telescope control will say to the next commands (no more: refused). */
  datatype State = State(running: Sequence, step: nat, started: int, info: Info, connected: bool,
                         answers: seq<bool>, trace: Trace)

  // ----- The driver

  /** tcsCommand: refused in read-only mode, otherwise sent and answered. */
  function Send(s: State, c: Settings, cmd: Command): (State, bool) {
    if c.readOnly then (s, false)
    else
      (s.(trace := Then(s.trace, Sent(cmd, c)), answers := if s.answers == [] then [] else s.answers[1..]),
       s.answers != [] && s.answers[0])
  }

  /** info: the snapshot as it is, and whether telescoped answers. */
  function Refresh(s: State, c: Settings, info: Info, connected: bool): State {
    s.(info := info, connected := connected,
       trace := if connected then Then(s.trace, Seen(info, c)) else s.trace)
  }

  function Begin(s: State, which: Sequence, now: int): State {
    s.(running := which, step := 0, started := now, trace := Then(s.trace, Began(which)))
  }

  function Ended(s: State): State {
    s.(running := None)
  }

  predicate Overdue(s: State, c: Settings, now: int) {
    now - s.started > c.timeout
  }

  function StartOpen(s: State, c: Settings, info: Info, connected: bool, now: int): (State, int) {
    if c.readOnly then (s, -1)
    else
      var s := Refresh(s, c, info, connected);
      if !connected then (s, -1) else (Begin(s, Evening, now), 0)
  }

  /** A step that needs `cmd` only when `needed`: true when the sequence goes on. */
  function SendIf(s: State, c: Settings, needed: bool, cmd: Command): (State, bool) {
    if needed then Send(s, c, cmd) else (s, true)
  }

  function OpenCovers(s: State, c: Settings): (State, bool) {
    var (mirror, ok) := SendIf(s, c, s.info.mirror != COVER_OPEN, MirrorOpen);
    if !ok then (mirror, false)
    else
      var (tube, ok) := SendIf(mirror, c, s.info.tube != COVER_OPEN, TubeOpen);
      if !ok then (tube, false) else SendIf(tube, c, s.info.slit != COVER_OPEN, SlitOpen)
  }

  function Advance(s: State, ok: bool, next: nat): (State, int) {
    if ok then (s.(step := next), USEC_SEC) else (Ended(s), -1)
  }

  function OpenStep(s: State, c: Settings): (State, int) {
    match s.step
    case 0 =>
      var (s, ok) := SendIf(s, c, s.info.oil == OIL_OFF || s.info.oil == OIL_OFF_DELAY, OilOn);
      Advance(s, ok, 1)
    case 1 =>
      if s.info.oil != OIL_ON then (s, USEC_SEC)
      else
        var (s, ok) := SendIf(s, c, !s.info.Ready() && !s.info.Slewing(), TelescopeOn);
        Advance(s, ok, 2)
    case 2 =>
      if !s.info.Ready() && !s.info.Slewing() then (s, USEC_SEC)
      else
        var (s, ok) := OpenCovers(s, c);
        Advance(s, ok, 3)
    case 3 =>
      if !s.info.CoversOpen() then (s, USEC_SEC)
      else
        var (s, ok) := Send(s, c, DomeAuto);
        (Ended(s), if ok then -2 else -1)
    case _ => (Ended(s), -1)
  }

  function IsOpened(s: State, c: Settings, info: Info, connected: bool, now: int): (State, int) {
    var s := Refresh(s, c, info, connected);
    if s.running != Evening then (s, if info.valid && info.CoversOpen() && info.Powered() then -2 else 0)
    else if !connected || Overdue(s, c, now) then (Ended(s), -1)
    else OpenStep(s, c)
  }

  /** The part of startClose that turns the dome; a refused command does not hold up the others. */
  function SendDomeHome(s: State, c: Settings): State {
    if c.closeAz == [] then s
    else
      var (aimed, ok) := Send(s, c, DomeAzimuth(RangeDegrees(c.closeAz[0])));
      if ok then Send(aimed, c, DomeGo).0 else aimed
  }

  /** The part of startClose that parks the telescope, unless it is off. */
  function SendTelescopeHome(s: State, c: Settings): State {
    if !s.info.Ready() && !s.info.Slewing() then s
    else
      var s := if s.info.Slewing() then Send(s, c, SlewAbort).0 else s;
      var (still, ok) := Send(s, c, TrackingOff);
      if !ok then still
      else
        var (aimed, ok) := Send(still, c, ParkPosition(c.parkHa, c.parkDa));
        if ok then Send(aimed, c, GoToPark).0 else aimed
  }

  function SendCoversShut(s: State, c: Settings): State {
    Send(Send(Send(s, c, SlitShut).0, c, TubeShut).0, c, MirrorShut).0
  }

  function StartClose(s: State, c: Settings, info: Info, connected: bool, now: int): (State, int) {
    if c.readOnly then (s, -1)
    else
      var s := Refresh(s, c, info, connected);
      if !connected then (s, -1)
      else
        var halted := Send(SendCoversShut(s, c), c, DomeHalt).0;
        (Begin(SendTelescopeHome(SendDomeHome(halted, c), c), Morning, now), 0)
  }

  /** Covers shut, dome home, telescope parked or off: the roof may lose its power. */
  predicate AllHome(i: Info, c: Settings) {
    && i.CoversClosed() && DomeStopped(i, c)
    && (Parked(i, c) || i.tel == TEL_OFF || i.tel == TEL_OFF_WAIT)
  }

  function CloseStep(s: State, c: Settings): (State, int) {
    match s.step
    case 0 =>
      if !AllHome(s.info, c) then (s, USEC_SEC)
      else if !c.powerOff then (Ended(s), -2)
      else
        var (s, ok) := SendIf(s, c, s.info.tel != TEL_OFF && s.info.tel != TEL_OFF_WAIT, TelescopeOff);
        Advance(s, ok, 1)
    case 1 =>
      if s.info.tel != TEL_OFF then (s, USEC_SEC)
      else
        var (s, ok) := SendIf(s, c, s.info.oil != OIL_OFF && s.info.oil != OIL_OFF_DELAY, OilOff);
        Advance(s, ok, 2)
    case 2 => if s.info.oil != OIL_OFF then (s, USEC_SEC) else (Ended(s), -2)
    case _ => (Ended(s), -1)
  }

  function IsClosed(s: State, c: Settings, info: Info, connected: bool, now: int): (State, int) {
    var s := Refresh(s, c, info, connected);
    if s.running != Morning then
      (s, if info.valid && info.CoversClosed() && (!c.powerOff || info.PoweredOff()) then -2 else 0)
    else if !connected || Overdue(s, c, now) then (Ended(s), -1)
    else CloseStep(s, c)
  }

  function Stop(s: State, c: Settings): (State, int) {
    var s := Ended(s);
    if c.readOnly then (s, 0)
    else
      var (s, ok) := Send(s, c, DomeHalt);
      (s, if ok then 0 else -1)
  }

  // ----- What a trace tells, independently of the driver's own step counter

  /**
    The sequence begun last; whether since then the oil was seen on (evening) and
    everything was seen home (morning); what was seen last; and whether every command
    so far was sent in its proper order.
  */
  datatype Story = Story(begun: Sequence, oilSeen: bool, homeSeen: bool, latest: seq<Info>, ordered: bool)

  /** The order the sequences promise, given what was seen before the command. */
  predicate Proper(t: Story, cmd: Command, c: Settings) {
    && !c.readOnly
    && ((cmd.OilOn? || cmd.TelescopeOn? || cmd.MirrorOpen? || cmd.TubeOpen? || cmd.SlitOpen? || cmd.DomeAuto?
         || cmd.TelescopeOff? || cmd.OilOff?) ==> t.latest != [])
    && match cmd
       case TelescopeOn => t.begun == Evening && t.oilSeen
       case MirrorOpen | TubeOpen | SlitOpen =>
         t.begun == Evening && t.oilSeen && (t.latest[0].Ready() || t.latest[0].Slewing())
       case DomeAuto => t.begun == Evening && t.oilSeen && t.latest[0].CoversOpen()
       case OilOn => t.begun == Evening && (t.latest[0].oil == OIL_OFF || t.latest[0].oil == OIL_OFF_DELAY)
       case TelescopeOff =>
         t.begun == Morning && c.powerOff && t.latest[0].CoversClosed() && DomeStopped(t.latest[0], c)
         && Parked(t.latest[0], c)
       case OilOff => t.begun == Morning && t.homeSeen && t.latest[0].tel == TEL_OFF
       case _ => true
  }

  function Continue(t: Story, e: Entry): Story {
    match e
    case Began(which) => t.(begun := which, oilSeen := false, homeSeen := false)
    case Seen(i, c) =>
      t.(latest := [i], oilSeen := t.oilSeen || i.oil == OIL_ON, homeSeen := t.homeSeen || AllHome(i, c))
    case Sent(cmd, c) => t.(ordered := t.ordered && Proper(t, cmd, c))
  }

  function Tell(trace: Trace): Story {
    match trace
    case Empty => Story(None, false, false, [], true)
    case Then(earlier, last) => Continue(Tell(earlier), last)
  }

  predicate Inv(s: State) {
    var t := Tell(s.trace);
    && t.ordered
    && (s.running == Evening ==> t.begun == Evening && s.step <= 3 && (s.step >= 2 ==> t.oilSeen))
    && (s.running == Morning ==> t.begun == Morning && s.step <= 2 && (s.step >= 1 ==> t.homeSeen))
  }

  /** The latest state is the one the trace saw last. */
  predicate UpToDate(s: State) {
    Tell(s.trace).latest == [s.info]
  }

  lemma RefreshKeeps(s: State, c: Settings, info: Info, connected: bool)
    requires Inv(s)
    ensures var s' := Refresh(s, c, info, connected);
            && Inv(s') && (connected ==> UpToDate(s'))
            && (connected && info.oil == OIL_ON ==> Tell(s'.trace).oilSeen)
            && (connected && AllHome(info, c) ==> Tell(s'.trace).homeSeen)
  {
  }

  lemma SendKeeps(s: State, c: Settings, cmd: Command)
    requires Inv(s)
    requires !c.readOnly ==> Proper(Tell(s.trace), cmd, c)
    ensures var (s', ok) := Send(s, c, cmd);
            && Inv(s')
            && s' == s.(trace := s'.trace, answers := s'.answers)
            && Tell(s'.trace) == Tell(s.trace)
  {
  }

  lemma OpenStepKeeps(s: State, c: Settings)
    requires Inv(s) && UpToDate(s) && s.running == Evening
    requires s.info.oil == OIL_ON ==> Tell(s.trace).oilSeen
    ensures var (s', ret) := OpenStep(s, c);
            && Inv(s') && s'.started == s.started
            && (ret == USEC_SEC || ret == -1 || ret == -2)
            && (ret == USEC_SEC <==> s'.running == Evening)
            && (ret == USEC_SEC ==> s'.step == s.step || s'.step == s.step + 1)
            && (ret != USEC_SEC ==> s'.running == None)
            && (ret == -2 ==> s.step == 3 && s.info.CoversOpen())
  {
    if s.step == 0 {
      if s.info.oil == OIL_OFF || s.info.oil == OIL_OFF_DELAY {
        SendKeeps(s, c, OilOn);
      }
    } else if s.step == 1 {
      if s.info.oil == OIL_ON {
        SendKeeps(s, c, TelescopeOn);
      }
    } else if s.step == 2 {
      if s.info.Ready() || s.info.Slewing() {
        OpenCoversKeeps(s, c);
      }
    } else if s.info.CoversOpen() {
      SendKeeps(s, c, DomeAuto);
    }
  }

  lemma OpenCoversKeeps(s: State, c: Settings)
    requires Inv(s) && UpToDate(s) && s.running == Evening && s.step == 2
    requires s.info.Ready() || s.info.Slewing()
    ensures var (s', ok) := OpenCovers(s, c);
            && Inv(s')
            && s' == s.(trace := s'.trace, answers := s'.answers)
            && Tell(s'.trace) == Tell(s.trace)
  {
    SendKeeps(s, c, MirrorOpen);
    var mirror := SendIf(s, c, s.info.mirror != COVER_OPEN, MirrorOpen).0;
    SendKeeps(mirror, c, TubeOpen);
    var tube := SendIf(mirror, c, s.info.tube != COVER_OPEN, TubeOpen).0;
    SendKeeps(tube, c, SlitOpen);
  }

  lemma CloseStepKeeps(s: State, c: Settings)
    requires Inv(s) && UpToDate(s) && s.running == Morning
    requires AllHome(s.info, c) ==> Tell(s.trace).homeSeen
    ensures var (s', ret) := CloseStep(s, c);
            && Inv(s') && s'.started == s.started
            && (ret == USEC_SEC || ret == -1 || ret == -2)
            && (ret == USEC_SEC <==> s'.running == Morning)
            && (ret == USEC_SEC ==> s'.step == s.step || s'.step == s.step + 1)
            && (ret != USEC_SEC ==> s'.running == None)
            && (ret == -2 ==>
                  if s.step == 0 then !c.powerOff && AllHome(s.info, c) else s.step == 2 && s.info.oil == OIL_OFF)
  {
    if s.step == 0 {
      if AllHome(s.info, c) && c.powerOff && s.info.tel != TEL_OFF && s.info.tel != TEL_OFF_WAIT {
        SendKeeps(s, c, TelescopeOff);
      }
    } else if s.step == 1 {
      if s.info.tel == TEL_OFF {
        SendKeeps(s, c, OilOff);
      }
    }
  }

  lemma StartCloseKeeps(s: State, c: Settings, info: Info, connected: bool, now: int)
    requires Inv(s)
    ensures Inv(StartClose(s, c, info, connected, now).0)
  {
    if !c.readOnly && connected {
      RefreshKeeps(s, c, info, connected);
      var s0 := Refresh(s, c, info, connected);
      SendKeeps(s0, c, SlitShut);
      var s1 := Send(s0, c, SlitShut).0;
      SendKeeps(s1, c, TubeShut);
      var s2 := Send(s1, c, TubeShut).0;
      SendKeeps(s2, c, MirrorShut);
      var s3 := SendCoversShut(s0, c);
      SendKeeps(s3, c, DomeHalt);
      var halted := Send(s3, c, DomeHalt).0;
      SendDomeHomeKeeps(halted, c);
      SendTelescopeHomeKeeps(SendDomeHome(halted, c), c);
    }
  }

  lemma SendDomeHomeKeeps(s: State, c: Settings)
    requires Inv(s)
    ensures Inv(SendDomeHome(s, c))
  {
    if c.closeAz != [] {
      var aim := DomeAzimuth(RangeDegrees(c.closeAz[0]));
      SendKeeps(s, c, aim);
      SendKeeps(Send(s, c, aim).0, c, DomeGo);
    }
  }

  lemma SendTelescopeHomeKeeps(s: State, c: Settings)
    requires Inv(s)
    ensures Inv(SendTelescopeHome(s, c))
  {
    SendKeeps(s, c, SlewAbort);
    var s0 := if s.info.Slewing() then Send(s, c, SlewAbort).0 else s;
    SendKeeps(s0, c, TrackingOff);
    var still := Send(s0, c, TrackingOff).0;
    var park := ParkPosition(c.parkHa, c.parkDa);
    SendKeeps(still, c, park);
    SendKeeps(Send(still, c, park).0, c, GoToPark);
  }

  // ----- Runs

  /** Every call of the dome, with the settings and the telescope's state at that moment. */
  datatype Event =
    | AskOpen(c: Settings, info: Info, connected: bool, now: int)
    | PollOpened(c: Settings, info: Info, connected: bool, now: int)
    | AskClose(c: Settings, info: Info, connected: bool, now: int)
    | PollClosed(c: Settings, info: Info, connected: bool, now: int)
    | AskStop(c: Settings)

  function Step(s: State, e: Event): State {
    match e
    case AskOpen(c, info, connected, now) => StartOpen(s, c, info, connected, now).0
    case PollOpened(c, info, connected, now) => IsOpened(s, c, info, connected, now).0
    case AskClose(c, info, connected, now) => StartClose(s, c, info, connected, now).0
    case PollClosed(c, info, connected, now) => IsClosed(s, c, info, connected, now).0
    case AskStop(c) => Stop(s, c).0
  }

  function Run(s: State, events: seq<Event>): State {
    if events == [] then s else Step(Run(s, events[..|events| - 1]), events[|events| - 1])
  }

  lemma StepKeeps(s: State, e: Event)
    requires Inv(s)
    ensures Inv(Step(s, e))
  {
    match e
    case AskOpen(c, info, connected, now) => RefreshKeeps(s, c, info, connected);
    case PollOpened(c, info, connected, now) =>
      RefreshKeeps(s, c, info, connected);
      var s0 := Refresh(s, c, info, connected);
      if s.running == Evening && connected {
        OpenStepKeeps(s0, c);
      }
    case AskClose(c, info, connected, now) => StartCloseKeeps(s, c, info, connected, now);
    case PollClosed(c, info, connected, now) =>
      RefreshKeeps(s, c, info, connected);
      var s0 := Refresh(s, c, info, connected);
      if s.running == Morning && connected {
        CloseStepKeeps(s0, c);
      }
    case AskStop(c) => SendKeeps(Ended(s), c, DomeHalt);
  }

  /**
    In every run, with any answers of the telescope control and settings changed at
    any time: nothing is sent in read-only mode; covers are opened only after the oil
    was seen on in this sequence and the telescope is seen ready or slewing; the
    telescope is switched off only when covers shut, dome home and telescope parked
    are seen together; the oil only after all were seen home in this sequence and the
    telescope is seen OFF.
  */
  lemma {:induction false} CommandsInOrder(s: State, events: seq<Event>)
    requires s.running == None && s.trace == Empty
    ensures Tell(Run(s, events).trace).ordered
    ensures Inv(Run(s, events))
  {
    if events != [] {
      var n := |events| - 1;
      CommandsInOrder(s, events[..n]);
      StepKeeps(Run(s, events[..n]), events[n]);
    }
  }

  /**
    A poll answers "keep waiting" exactly while its sequence goes on, which it never
    does past the timeout; the start time and the sequence itself are left alone, so
    the first poll after the timeout ends it.
  */
  lemma PollsEndTheSequence(s: State, c: Settings, info: Info, connected: bool, now: int)
    requires Inv(s)
    ensures var (s', ret) := IsOpened(s, c, info, connected, now);
            s.running == Evening ==>
              && s'.started == s.started
              && (s'.running == Evening || s'.running == None)
              && (ret >= 0 <==> s'.running == Evening)
              && (ret >= 0 ==> connected && now - s.started <= c.timeout)
              && (ret == -2 ==> info.CoversOpen())
    ensures var (s', ret) := IsClosed(s, c, info, connected, now);
            s.running == Morning ==>
              && s'.started == s.started
              && (s'.running == Morning || s'.running == None)
              && (ret >= 0 <==> s'.running == Morning)
              && (ret >= 0 ==> connected && now - s.started <= c.timeout)
              && (ret == -2 ==> info.oil == OIL_OFF || (!c.powerOff && AllHome(info, c)))
  {
    RefreshKeeps(s, c, info, connected);
    var s0 := Refresh(s, c, info, connected);
    if connected {
      if s.running == Evening {
        OpenStepKeeps(s0, c);
      } else if s.running == Morning {
        CloseStepKeeps(s0, c);
      }
    }
  }

  // ----- What is sent

  /** The commands sent so far. */
  function Commands(trace: Trace): seq<Command> {
    match trace
    case Empty => []
    case Then(earlier, last) => Commands(earlier) + if last.Sent? then [last.command] else []
  }

  /** Of a list of commands those up to the first that is refused. */
  function Told(cmds: seq<Command>, answers: seq<bool>): seq<Command> {
    if cmds == [] then []
    else [cmds[0]] + if answers != [] && answers[0] then Told(cmds[1..], answers[1..]) else []
  }

  predicate AllAccepted(cmds: seq<Command>, answers: seq<bool>) {
    |cmds| <= |answers| && forall i :: 0 <= i < |cmds| ==> answers[i]
  }

  function Left(answers: seq<bool>, n: nat): seq<bool> {
    if n <= |answers| then answers[n..] else []
  }

  /** The list was sent until one was refused; `ok` tells whether none was. In read-only mode nothing goes out. */
  predicate SentUntilRefused(s: State, c: Settings, cmds: seq<Command>, r: State, ok: bool) {
    var told := if c.readOnly then [] else Told(cmds, s.answers);
    && Commands(r.trace) == Commands(s.trace) + told
    && r == s.(trace := r.trace, answers := Left(s.answers, |told|))
    && (ok <==> cmds == [] || (!c.readOnly && AllAccepted(cmds, s.answers)))
  }

  function SendAll(s: State, c: Settings, cmds: seq<Command>): (State, bool)
    decreases |cmds|
  {
    if cmds == [] then (s, true)
    else
      var (m, ok) := Send(s, c, cmds[0]);
      if ok then SendAll(m, c, cmds[1..]) else (m, false)
  }

  lemma {:induction false} SendAllOn(s: State, c: Settings, one: seq<Command>, two: seq<Command>)
    ensures SendAll(s, c, one + two)
            == var (m, ok) := SendAll(s, c, one); if ok then SendAll(m, c, two) else (m, false)
    decreases |one|
  {
    if one == [] {
      assert one + two == two;
    } else {
      assert (one + two)[1..] == one[1..] + two;
      SendAllOn(Send(s, c, one[0]).0, c, one[1..], two);
    }
  }

  lemma SendAllOne(s: State, c: Settings, cmd: Command)
    ensures SendAll(s, c, [cmd]) == Send(s, c, cmd)
  {
    assert [cmd][1..] == [];
  }

  lemma {:induction false} SendAllSends(s: State, c: Settings, cmds: seq<Command>)
    ensures var (r, ok) := SendAll(s, c, cmds); SentUntilRefused(s, c, cmds, r, ok)
    decreases |cmds|
  {
    if cmds != [] && !c.readOnly {
      var (m, ok) := Send(s, c, cmds[0]);
      assert m.answers == Left(s.answers, 1);
      if ok {
        SendAllSends(m, c, cmds[1..]);
        OneMoreAccepted(cmds, s.answers);
      }
    }
  }

  lemma OneMoreAccepted(cmds: seq<Command>, answers: seq<bool>)
    requires cmds != [] && answers != [] && answers[0]
    ensures AllAccepted(cmds, answers) <==> AllAccepted(cmds[1..], answers[1..])
  {
    if AllAccepted(cmds[1..], answers[1..]) {
      forall i | 0 <= i < |cmds| ensures |cmds| <= |answers| && answers[i] {
        assert i > 0 ==> answers[i] == answers[1..][i - 1];
      }
    }
  }

  // ----- The evening

  /** The covers that are not open, in the order they are opened in. */
  function Shut(i: Info): seq<Command> {
    (if i.mirror != 3 then [MirrorOpen] else []) + (if i.tube != 3 then [TubeOpen] else [])
    + (if i.slit != 3 then [SlitOpen] else [])
  }

  /** Whether a step of the evening has what it waits for, and what it then asks for. */
  predicate EveningDue(step: nat, i: Info) {
    match step
    case 0 => true
    case 1 => i.oil == 4
    case 2 => i.tel == 3 || i.tel == 4 || i.tel >= 6
    case _ => i.mirror == 3 && i.tube == 3 && i.slit == 3
  }

  function EveningWants(step: nat, i: Info): seq<Command> {
    match step
    case 0 => if i.oil == 0 || i.oil == 5 then [OilOn] else []
    case 1 => if i.tel == 3 || i.tel == 4 || i.tel >= 6 then [] else [TelescopeOn]
    case 2 => Shut(i)
    case _ => [DomeAuto]
  }

  lemma OpenCoversSends(s: State, c: Settings)
    ensures OpenCovers(s, c) == SendAll(s, c, Shut(s.info))
  {
    var one := if s.info.mirror != 3 then [MirrorOpen] else [];
    var two := if s.info.tube != 3 then [TubeOpen] else [];
    var three := if s.info.slit != 3 then [SlitOpen] else [];
    SendAllOn(s, c, one + two, three);
    SendAllOn(s, c, one, two);
    SendAllOne(s, c, MirrorOpen);
    var mirror := SendAll(s, c, one).0;
    SendAllOne(mirror, c, TubeOpen);
    var tube := SendAll(mirror, c, two).0;
    SendAllOne(tube, c, SlitOpen);
  }

  /**
    The evening waits for the oil, then for the telescope, then for the covers, and sends
    at each step just what is missing, until something is refused; the step after the
    covers hands the dome over and ends it.
  */
  lemma EveningStep(s: State, c: Settings)
    requires s.running == Evening && s.step <= 3
    ensures var (m, ok) := SendAll(s, c, EveningWants(s.step, s.info));
            && SentUntilRefused(s, c, EveningWants(s.step, s.info), m, ok)
            && OpenStep(s, c) == if !EveningDue(s.step, s.info) then (s, 1000000)
                                 else if !ok then (m.(running := None), -1)
                                 else if s.step < 3 then (m.(step := s.step + 1), 1000000)
                                 else (m.(running := None), -2)
  {
    SendAllSends(s, c, EveningWants(s.step, s.info));
    match s.step
    case 0 => SendAllOne(s, c, OilOn);
    case 1 => SendAllOne(s, c, TelescopeOn);
    case 2 => OpenCoversSends(s, c);
    case _ => SendAllOne(s, c, DomeAuto);
  }

  // ----- The morning

  predicate MorningDue(step: nat, i: Info, c: Settings) {
    match step
    case 0 => AllHome(i, c)
    case 1 => i.tel == 1
    case _ => i.oil == 0
  }

  function MorningWants(step: nat, i: Info): seq<Command> {
    match step
    case 0 => if i.tel == 1 || i.tel == 2 then [] else [TelescopeOff]
    case 1 => if i.oil == 0 || i.oil == 5 then [] else [OilOff]
    case _ => []
  }

  /**
    The morning waits until all is home, and ends there when the power is kept; else it
    switches off what is on, the telescope and, once that is off, the oil.
  */
  lemma MorningStep(s: State, c: Settings)
    requires s.running == Morning && s.step <= 2
    ensures var (m, ok) := SendAll(s, c, MorningWants(s.step, s.info));
            && SentUntilRefused(s, c, MorningWants(s.step, s.info), m, ok)
            && CloseStep(s, c) == if !MorningDue(s.step, s.info, c) then (s, 1000000)
                                  else if s.step == 2 || (s.step == 0 && !c.powerOff) then (s.(running := None), -2)
                                  else if !ok then (m.(running := None), -1)
                                  else (m.(step := s.step + 1), 1000000)
  {
    SendAllSends(s, c, MorningWants(s.step, s.info));
    if s.step == 0 {
      SendAllOne(s, c, TelescopeOff);
    } else if s.step == 1 {
      SendAllOne(s, c, OilOff);
    }
  }

  /** Sent whatever is answered. */
  predicate SentAnyway(s: State, c: Settings, cmds: seq<Command>, r: State) {
    && Commands(r.trace) == Commands(s.trace) + cmds
    && r == s.(trace := r.trace, answers := Left(s.answers, |cmds|))
  }

  lemma SendsAnyway(s: State, c: Settings, cmds: seq<Command>, m: State, cmd: Command)
    requires !c.readOnly && SentAnyway(s, c, cmds, m)
    ensures SentAnyway(s, c, cmds + [cmd], Send(m, c, cmd).0)
  {
  }

  /** A close shuts the three covers and halts the dome, even when some of that is refused; */
  lemma CloseSendsCovers(s: State, c: Settings)
    requires !c.readOnly
    ensures SentAnyway(s, c, [SlitShut, TubeShut, MirrorShut, DomeHalt], Send(SendCoversShut(s, c), c, DomeHalt).0)
  {
    assert SentAnyway(s, c, [], s);
    SendsAnyway(s, c, [], s, SlitShut);
    var slit := Send(s, c, SlitShut).0;
    SendsAnyway(s, c, [SlitShut], slit, TubeShut);
    var tube := Send(slit, c, TubeShut).0;
    SendsAnyway(s, c, [SlitShut, TubeShut], tube, MirrorShut);
    SendsAnyway(s, c, [SlitShut, TubeShut, MirrorShut], Send(tube, c, MirrorShut).0, DomeHalt);
    assert [] + [SlitShut] == [SlitShut] && [SlitShut] + [TubeShut] == [SlitShut, TubeShut];
    assert [SlitShut, TubeShut] + [MirrorShut] == [SlitShut, TubeShut, MirrorShut];
    assert [SlitShut, TubeShut, MirrorShut] + [DomeHalt] == [SlitShut, TubeShut, MirrorShut, DomeHalt];
  }

  function TurnHome(c: Settings): seq<Command> {
    if c.closeAz == [] then [] else [DomeAzimuth(RangeDegrees(c.closeAz[0])), DomeGo]
  }

  /** then turns it home, if there is a home; */
  lemma CloseTurnsDome(s: State, c: Settings)
    ensures var (r, ok) := SendAll(s, c, TurnHome(c));
            SendDomeHome(s, c) == r && SentUntilRefused(s, c, TurnHome(c), r, ok)
  {
    SendAllSends(s, c, TurnHome(c));
    if c.closeAz != [] {
      var aim := DomeAzimuth(RangeDegrees(c.closeAz[0]));
      SendAllOn(s, c, [aim], [DomeGo]);
      assert [aim] + [DomeGo] == TurnHome(c);
      SendAllOne(s, c, aim);
      SendAllOne(Send(s, c, aim).0, c, DomeGo);
    }
  }

  function Park(c: Settings): seq<Command> {
    [TrackingOff, ParkPosition(c.parkHa, c.parkDa), GoToPark]
  }

  /** and parks a telescope that is on, whose slew it aborts first. */
  lemma CloseParksTelescope(s: State, c: Settings)
    requires !c.readOnly
    ensures var m := if s.info.tel >= 6 then Send(s, c, SlewAbort).0 else s;
            var (r, ok) := SendAll(m, c, Park(c));
            && (s.info.tel >= 6 ==> SentAnyway(s, c, [SlewAbort], m))
            && SentUntilRefused(m, c, Park(c), r, ok)
            && SendTelescopeHome(s, c) == if s.info.tel >= 6 || s.info.tel == 3 || s.info.tel == 4 then r else s
  {
    var m := if s.info.tel >= 6 then Send(s, c, SlewAbort).0 else s;
    SendAllSends(m, c, Park(c));
    var aim := ParkPosition(c.parkHa, c.parkDa);
    assert [TrackingOff] + [aim] + [GoToPark] == Park(c);
    SendAllOn(m, c, [TrackingOff] + [aim], [GoToPark]);
    SendAllOn(m, c, [TrackingOff], [aim]);
    SendAllOne(m, c, TrackingOff);
    var still := Send(m, c, TrackingOff).0;
    SendAllOne(still, c, aim);
    SendAllOne(Send(still, c, aim).0, c, GoToPark);
    assert SentAnyway(s, c, [], s);
    SendsAnyway(s, c, [], s, SlewAbort);
    assert [] + [SlewAbort] == [SlewAbort];
  }

  // ----- Requests and polls

  /** A request needs a connection and leave to send; a close sends all of the above at once. */
  lemma RequestsBegin(s: State, c: Settings, info: Info, connected: bool, now: int)
    ensures var (r, ret) := StartOpen(s, c, info, connected, now);
            && (ret == 0 <==> !c.readOnly && connected) && (ret == 0 || ret == -1)
            && Commands(r.trace) == Commands(s.trace)
            && (if ret == 0 then r.running == Evening && r.step == 0 && r.started == now
                                  && r.info == info && r.connected
                else r.running == s.running && r.step == s.step && r.started == s.started)
    ensures var (r, ret) := StartClose(s, c, info, connected, now);
            && (ret == 0 <==> !c.readOnly && connected) && (ret == 0 || ret == -1)
            && (if ret == 0 then r.running == Morning && r.step == 0 && r.started == now
                                  && r.info == info && r.connected
                else && r.running == s.running && r.step == s.step && r.started == s.started
                     && Commands(r.trace) == Commands(s.trace))
    ensures !c.readOnly && connected ==>
              var halted := Send(SendCoversShut(Refresh(s, c, info, true), c), c, DomeHalt).0;
              StartClose(s, c, info, connected, now).0
              == Begin(SendTelescopeHome(SendDomeHome(halted, c), c), Morning, now)
  {
    if !c.readOnly && connected {
      var s0 := Refresh(s, c, info, true);
      CloseSendsCovers(s0, c);
      var halted := Send(SendCoversShut(s0, c), c, DomeHalt).0;
      CloseTurnsDome(halted, c);
      CloseParksTelescope(SendDomeHome(halted, c), c);
    }
  }

  /** A stop ends the sequence and halts the dome, and fails only when that is refused. */
  lemma StopHalts(s: State, c: Settings)
    ensures var (r, ret) := Stop(s, c);
            && r.running == None && r.step == s.step && r.started == s.started
            && Commands(r.trace) == Commands(s.trace) + (if c.readOnly then [] else [DomeHalt])
            && (ret == 0 <==> c.readOnly || AllAccepted([DomeHalt], s.answers)) && (ret == 0 || ret == -1)
  {
  }

  /**
    Outside its sequence a poll tells from the state alone whether the dome is opened, all
    covers open and the telescope powered, or closed, all covers shut and, unless the power
    is kept, all off; inside it a sequence without connection or out of time ends there.
  */
  lemma PollsTell(s: State, c: Settings, info: Info, connected: bool, now: int)
    ensures var (r, ret) := IsOpened(s, c, info, connected, now);
            var s0 := Refresh(s, c, info, connected);
            if s.running != Evening then
              && r == s0
              && ret == if info.valid && info.slit == info.tube == info.mirror == 3 && info.oil == 4
                           && (info.tel == 3 || info.tel == 4) then -2 else 0
            else if !connected || now > s.started + c.timeout then r == s0.(running := None) && ret == -1
            else (r, ret) == OpenStep(s0, c)
    ensures var (r, ret) := IsClosed(s, c, info, connected, now);
            var s0 := Refresh(s, c, info, connected);
            if s.running != Morning then
              && r == s0
              && ret == if info.valid && info.slit == info.tube == info.mirror == 4
                           && (!c.powerOff || (info.oil == 0 && info.tel == 1)) then -2 else 0
            else if !connected || now > s.started + c.timeout then r == s0.(running := None) && ret == -1
            else (r, ret) == CloseStep(s0, c)
    ensures var s0 := Refresh(s, c, info, connected);
            s0 == s.(info := info, connected := connected, trace := s0.trace) && Commands(s0.trace) == Commands(s.trace)
  {
  }

  // ----- Where home is

  /** ln_range_degrees: the same direction, in [0, 360). */
  lemma RangeDegreesIsSame(d: real)
    ensures 0.0 <= RangeDegrees(d) < 360.0
    ensures RangeDegrees(d) == d - 360.0 * (Turns(d) as real)
  {
  }

  function Turns(d: real): int {
    (d / 360.0).Floor
  }

  /** As near to home as a degree, whichever way round. */
  predicate NearHome(az: real, home: real, turns: int) {
    -1.0 <= az - home - 360.0 * (turns as real) <= 1.0
  }

  /** The dome stands still, at home if it has one. */
  lemma DomeStoppedMeans(i: Info, c: Settings)
    ensures DomeStopped(i, c) <==>
            && (i.dome == 0 || i.dome == 1)
            && (c.closeAz != [] ==> exists turns :: NearHome(i.domeAz, c.closeAz[0], turns))
  {
    if c.closeAz != [] {
      var d := i.domeAz - c.closeAz[0];
      var turns := Turns(d);
      RangeDegreesIsSame(d);
      if RangeDegrees(d) <= 1.0 {
        assert NearHome(i.domeAz, c.closeAz[0], turns);
      } else if RangeDegrees(d) >= 359.0 {
        assert NearHome(i.domeAz, c.closeAz[0], turns + 1);
      }
      forall other | NearHome(i.domeAz, c.closeAz[0], other)
        ensures RangeDegrees(d) <= 1.0 || RangeDegrees(d) >= 359.0
      {
        TurnsBetween(d, turns, other);
      }
    }
  }

  lemma TurnsBetween(d: real, turns: int, other: int)
    requires turns == Turns(d) && -1.0 <= d - 360.0 * (other as real) <= 1.0
    ensures RangeDegrees(d) <= 1.0 || RangeDegrees(d) >= 359.0
  {
    RangeDegreesIsSame(d);
    assert other == turns || other == turns + 1;
  }

  /**
    All is home: covers shut, dome home, the telescope off, on its way off, or stopped
    within 0.05 of its park position.
  */
  lemma AllHomeMeans(i: Info, c: Settings)
    ensures AllHome(i, c) <==>
            && i.slit == i.tube == i.mirror == 4 && DomeStopped(i, c)
            && (|| i.tel == 1 || i.tel == 2
                || (i.tel == 3 && i.ha == 1 && i.da == 1
                    && c.parkHa - 0.05 <= i.haAxis <= c.parkHa + 0.05
                    && c.parkDa - 0.05 <= i.decAxis <= c.parkDa + 0.05))
  {
  }

  // ----- The driver itself

  /** The fields of the driver class; every method does exactly what its function says. */
  class Perek2mDome {
    var running: Sequence
    var step: nat
    var started: int
    var info: Info
    var connected: bool
    var answers: seq<bool>
    ghost var trace: Trace

    ghost function Model(): State
      reads this
    {
      State(running, step, started, info, connected, answers, trace)
    }

    constructor (info: Info, answers: seq<bool>)
      ensures Model() == State(None, 0, 0, info, false, answers, Empty)
    {
      running, step, started, connected := None, 0, 0, false;
      this.info, this.answers, trace := info, answers, Empty;
    }

    method TcsCommand(c: Settings, cmd: Command) returns (ok: bool)
      modifies `answers, `trace
      ensures (Model(), ok) == Send(old(Model()), c, cmd)
    {
      if c.readOnly {
        return false;
      }
      trace := Then(trace, Sent(cmd, c));
      ok := answers != [] && answers[0];
      answers := if answers == [] then [] else answers[1..];
    }

    method GetInfo(c: Settings, reply: Info, answered: bool)
      modifies `info, `connected, `trace
      ensures Model() == Refresh(old(Model()), c, reply, answered)
    {
      info, connected := reply, answered;
      if answered {
        trace := Then(trace, Seen(reply, c));
      }
    }

    method BeginSequence(which: Sequence, now: int)
      modifies `running, `step, `started, `trace
      ensures Model() == Begin(old(Model()), which, now)
    {
      running, step, started := which, 0, now;
      trace := Then(trace, Began(which));
    }

    method Open(c: Settings, reply: Info, answered: bool, now: int) returns (ret: int)
      modifies this
      ensures (Model(), ret) == StartOpen(old(Model()), c, reply, answered, now)
    {
      if c.readOnly {
        return -1;
      }
      GetInfo(c, reply, answered);
      if !connected {
        return -1;
      }
      BeginSequence(Evening, now);
      ret := 0;
    }

    /** isOpened, up to and including the switch over the step. */
    method PollOpen(c: Settings, reply: Info, answered: bool, now: int) returns (ret: int)
      modifies this
      ensures (Model(), ret) == IsOpened(old(Model()), c, reply, answered, now)
    {
      GetInfo(c, reply, answered);
      if running != Evening {
        return if info.valid && info.CoversOpen() && info.Powered() then -2 else 0;
      }
      if !connected || now - started > c.timeout {
        running := None;
        return -1;
      }
      ret := NextOpenStep(c);
    }

    method NextOpenStep(c: Settings) returns (ret: int)
      modifies this
      ensures (Model(), ret) == OpenStep(old(Model()), c)
    {
      var ok := false;
      if step == 0 {
        ok := true;
        if info.oil != OIL_ON && (info.oil == OIL_OFF || info.oil == OIL_OFF_DELAY) {
          ok := TcsCommand(c, OilOn);
        }
        if ok {
          step := 1;
          return USEC_SEC;
        }
      } else if step == 1 {
        if info.oil != OIL_ON {
          return USEC_SEC;
        }
        ok := true;
        if !info.Ready() && !info.Slewing() {
          ok := TcsCommand(c, TelescopeOn);
        }
        if ok {
          step := 2;
          return USEC_SEC;
        }
      } else if step == 2 {
        if !info.Ready() && !info.Slewing() {
          return USEC_SEC;
        }
        ok := AskCovers(c);
        if ok {
          step := 3;
          return USEC_SEC;
        }
      } else if step == 3 {
        if !info.CoversOpen() {
          return USEC_SEC;
        }
        ok := TcsCommand(c, DomeAuto);
        if ok {
          running := None;
          return -2;
        }
      }
      running := None;
      ret := -1;
    }

    method AskCovers(c: Settings) returns (ok: bool)
      modifies `answers, `trace
      ensures (Model(), ok) == OpenCovers(old(Model()), c)
    {
      ok := true;
      if info.mirror != COVER_OPEN {
        ok := TcsCommand(c, MirrorOpen);
      }
      if ok && info.tube != COVER_OPEN {
        ok := TcsCommand(c, TubeOpen);
      }
      if ok && info.slit != COVER_OPEN {
        ok := TcsCommand(c, SlitOpen);
      }
    }

    method Close(c: Settings, reply: Info, answered: bool, now: int) returns (ret: int)
      modifies this
      ensures (Model(), ret) == StartClose(old(Model()), c, reply, answered, now)
    {
      if c.readOnly {
        return -1;
      }
      GetInfo(c, reply, answered);
      if !connected {
        return -1;
      }
      var _ := TcsCommand(c, SlitShut);
      var _ := TcsCommand(c, TubeShut);
      var _ := TcsCommand(c, MirrorShut);
      var _ := TcsCommand(c, DomeHalt);
      TurnDomeHome(c);
      ParkTelescope(c);
      BeginSequence(Morning, now);
      ret := 0;
    }

    method TurnDomeHome(c: Settings)
      modifies `answers, `trace
      ensures Model() == SendDomeHome(old(Model()), c)
    {
      if c.closeAz != [] {
        var ok := TcsCommand(c, DomeAzimuth(RangeDegrees(c.closeAz[0])));
        if ok {
          var _ := TcsCommand(c, DomeGo);
        }
      }
    }

    method ParkTelescope(c: Settings)
      modifies `answers, `trace
      ensures Model() == SendTelescopeHome(old(Model()), c)
    {
      if info.Ready() || info.Slewing() {
        if info.Slewing() {
          var _ := TcsCommand(c, SlewAbort);
        }
        var ok := TcsCommand(c, TrackingOff);
        if ok {
          ok := TcsCommand(c, ParkPosition(c.parkHa, c.parkDa));
        }
        if ok {
          var _ := TcsCommand(c, GoToPark);
        }
      }
    }

    method PollClose(c: Settings, reply: Info, answered: bool, now: int) returns (ret: int)
      modifies this
      ensures (Model(), ret) == IsClosed(old(Model()), c, reply, answered, now)
    {
      GetInfo(c, reply, answered);
      if running != Morning {
        return if info.valid && info.CoversClosed() && (!c.powerOff || info.PoweredOff()) then -2 else 0;
      }
      if !connected || now - started > c.timeout {
        running := None;
        return -1;
      }
      ret := NextCloseStep(c);
    }

    method NextCloseStep(c: Settings) returns (ret: int)
      modifies this
      ensures (Model(), ret) == CloseStep(old(Model()), c)
    {
      var ok := true;
      if step == 0 {
        var telDone := Parked(info, c) || info.tel == TEL_OFF || info.tel == TEL_OFF_WAIT;
        if !info.CoversClosed() || !DomeStopped(info, c) || !telDone {
          return USEC_SEC;
        }
        if !c.powerOff {
          running := None;
          return -2;
        }
        if info.tel != TEL_OFF && info.tel != TEL_OFF_WAIT {
          ok := TcsCommand(c, TelescopeOff);
        }
        if ok {
          step := 1;
          return USEC_SEC;
        }
      } else if step == 1 {
        if info.tel != TEL_OFF {
          return USEC_SEC;
        }
        if info.oil != OIL_OFF && info.oil != OIL_OFF_DELAY {
          ok := TcsCommand(c, OilOff);
        }
        if ok {
          step := 2;
          return USEC_SEC;
        }
      } else if step == 2 {
        if info.oil != OIL_OFF {
          return USEC_SEC;
        }
        running := None;
        return -2;
      }
      running := None;
      ret := -1;
    }

    method Halt(c: Settings) returns (ret: int)
      modifies this
      ensures (Model(), ret) == Stop(old(Model()), c)
    {
      running := None;
      if c.readOnly {
        return 0;
      }
      var ok := TcsCommand(c, DomeHalt);
      ret := if ok then 0 else -1;
    }
  }
}
