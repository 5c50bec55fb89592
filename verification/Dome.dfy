/**
  The roof state machine every dome driver inherits (base/dome/src/dome.cpp).

  The driver's pure virtual calls are answered from outside: an operation takes
  what isOpened, isClosed, startOpen, startClose, endOpen, endClose or stop
  returned, so whatever is proved here holds with any driver.
*/
module Dome {
  /** The bits of DOME_DOME_MASK: one of them is set, or none. */
  datatype Phase = Unknown | Closed | Opening | Opened | Closing | WaitClosing

  /** What an operation logs, asks for or schedules, in order. */
  datatype Note =
    | OpenAsked | OpenStarted | CloseAsked | QuietAsked | CloseStarted | StopAsked
    | ClosedConfirmed | RetryScheduled | Emergency | CloseFailReport(now: int)

  /** A log grows at its end. */
  datatype Log = Nothing | After(earlier: Log, last: Note)

  const MAX_RETRIES: nat := 3       // DOME_CLOSE_MAX_RETRIES
  const FAIL_REPEAT: int := 300     // DOME_CLOSE_FAIL_REPEAT

  /** The state word as the bit fields it is made of. */
  datatype Word = Word(phase: Phase, bopExposure: bool, bopTelMove: bool,
                       blockOpen: bool, blockClose: bool, stopped: bool)

  /**
    The state word, the retry bookkeeping (`reported` is closeFailReported, 0 when no
    close failure is being reported) and the number of EVENT_DOMECLOSE_RETRY timers
    pending.
  */
  datatype State = State(word: Word, retries: nat, reported: int, quiet: bool,
                         timers: nat, log: Log)
  {
    function Noted(n: Note): State {
      this.(log := After(log, n))
    }

    function Marked(phase: Phase, bop: bool, blockOpen: bool, blockClose: bool): State {
      this.(word := Word(phase, bop, bop, blockOpen, blockClose, word.stopped))
    }

    /** An ordinary close failed: retried still, or given up. */
    predicate CloseFailing() {
      retries > 0 || reported != 0
    }
  }

  const START := State(Word(Unknown, false, false, false, false, false), 0, 0, false, 0, Nothing)

  /** domeOpenStart; `started` answers startOpen, asked only if it comes to that. */
  function OpenStart(s: State, probe: int, good: bool, started: int): (State, int) {
    var s := s.(timers := 0).Noted(OpenAsked);
    if probe == -2 then (s.Marked(Opened, false, false, true), 0)
    else if !good || started != 0 then (s, -1)
    else (s.(reported := 0, retries := 0).Noted(OpenStarted).Marked(Opening, true, true, true), 0)
  }

  /** domeCloseStart; `started` answers startClose, asked only if it comes to that. */
  function CloseStart(s: State, quiet: bool, probe: int, started: int, now: int): (State, int) {
    var s := s.(timers := 0, quiet := quiet).Noted(if quiet then QuietAsked else CloseAsked);
    if probe == -2 then (s.(retries := 0).Noted(ClosedConfirmed).Marked(Closed, false, true, false), 0)
    else if started < 0 then
      var report := s.reported == 0 || now - s.reported >= FAIL_REPEAT;
      var s := if report then s.(reported := now).Noted(CloseFailReport(now)) else s;
      (s.(timers := 1), -1)
    else if started > 0 then
      (s.(word := s.word.(phase := WaitClosing, bopExposure := false, bopTelMove := false), timers := 1), 0)
    else (s.(reported := 0).Noted(CloseStarted).Marked(Closing, false, true, true), 0)
  }

  /** closeFailed: another retry, or the call for a human. */
  function CloseFailed(s: State): State {
    if s.retries < MAX_RETRIES then
      s.(retries := s.retries + 1, timers := s.timers + 1).Noted(RetryScheduled)
    else s.Noted(Emergency)
  }

  function Stop(s: State, ret: int): (State, int) {
    var s := s.(timers := 0).Noted(StopAsked);
    if ret < 0 then (s, -1)
    else (s.(word := s.word.(stopped := true, bopExposure := false, bopTelMove := false)), 0)
  }

  /** checkOpening; `poll` answers isOpened or isClosed, `ended` endOpen or endClose. */
  function Check(s: State, poll: int, ended: int): State {
    if s.word.phase == Opening then
      if poll == -1 || poll == -2 then s.Marked(Opened, false, false, true) else s
    else if s.word.phase == Closing then
      if poll == -1 then
        var s := s.(word := s.word.(phase := Closed, blockOpen := true, blockClose := false));
        if s.quiet then s.(quiet := false) else CloseFailed(s)
      else if poll == -2 then
        var s := s.(word := s.word.(phase := Closed, blockOpen := true, blockClose := false));
        if ended != 0 then CloseFailed(s) else s.(retries := 0).Noted(ClosedConfirmed)
      else s
    else s
  }

  /** Whether Bart's idle may close a roof found open: a failing ordinary close is left to the dome. */
  predicate MayCloseQuietly(s: State) {
    s.word.phase == Closed && !s.CloseFailing()
  }

  // ----- Runs

  /**
    Everything that can happen to a dome, with the driver's answers. `CloseAsk`
    stands for every ordinary close: a command, bad weather, standby, off.
  */
  datatype Event =
    | OpenAsk(probe: int, good: bool, started: int)
    | CloseAsk(probe: int, started: int, now: int)
    | QuietAsk(probe: int, started: int, now: int)
    | RetryFires(probe: int, started: int, now: int)
    | StopAsk(ret: int)
    | CheckMove(poll: int, ended: int)

  function Step(s: State, e: Event): State {
    match e
    case OpenAsk(probe, good, started) => OpenStart(s, probe, good, started).0
    case CloseAsk(probe, started, now) => CloseStart(s, false, probe, started, now).0
    case QuietAsk(probe, started, now) =>
      if MayCloseQuietly(s) then CloseStart(s, true, probe, started, now).0 else s
    case RetryFires(probe, started, now) =>
      if s.timers > 0 then CloseStart(s.(timers := s.timers - 1), false, probe, started, now).0 else s
    case StopAsk(ret) => Stop(s, ret).0
    case CheckMove(poll, ended) => Check(s, poll, ended)
  }

  function Run(s: State, events: seq<Event>): State {
    if events == [] then s else Step(Run(s, events[..|events| - 1]), events[|events| - 1])
  }

  /** Every clock reading in the events is a Unix time. */
  predicate Timed(events: seq<Event>) {
    forall e :: e in events && (e.CloseAsk? || e.QuietAsk? || e.RetryFires?) ==> e.now > 0
  }

  // ----- What the log says, independently of the state

  /**
    The story a log tells: an ordinary close was asked for and since then neither
    confirmed nor superseded by an opening or a stop; EMERGENCY was logged after the
    last ordinary close was asked for; so many retries were scheduled since the roof
    was last confirmed closed or started to open; every EMERGENCY came when exactly
    three of them had been spent; a close failure was reported last then (0 = not since
    a move was started); and no two such reports were less than 300 s apart.
  */
  datatype Story = Story(closePending: bool, gaveUp: bool, retries: nat, earned: bool, reportedAt: int, spaced: bool)

  predicate ReportDue(reportedAt: int, now: int) {
    reportedAt == 0 || now >= reportedAt + 300
  }

  function Continue(t: Story, n: Note): Story {
    match n
    case CloseAsked => t.(closePending := true, gaveUp := false)
    case OpenAsked | StopAsked => t.(closePending := false)
    case ClosedConfirmed => t.(closePending := false, retries := 0)
    case OpenStarted => t.(retries := 0, reportedAt := 0)
    case CloseStarted => t.(reportedAt := 0)
    case RetryScheduled => t.(retries := t.retries + 1)
    case Emergency => t.(gaveUp := true, earned := t.earned && t.retries == MAX_RETRIES)
    case CloseFailReport(now) => t.(reportedAt := now, spaced := t.spaced && ReportDue(t.reportedAt, now))
    case QuietAsked => t
  }

  function Tell(log: Log): Story {
    match log
    case Nothing => Story(false, false, 0, true, 0, true)
    case After(earlier, last) => Continue(Tell(earlier), last)
  }

  predicate Inv(s: State) {
    var t := Tell(s.log);
    // the log explains the bookkeeping
    && t.retries == s.retries <= MAX_RETRIES
    && t.earned && t.spaced && t.reportedAt == s.reported
    // a pending close is looked after
    && (t.closePending ==> s.word.phase == Closing || s.timers > 0 || t.gaveUp)
    && (t.closePending && s.word.phase == Closing ==> !s.quiet)
    // and cannot be displaced by a quiet one
    && (s.timers > 0 ==> s.reported != 0 || s.word.phase == WaitClosing || (s.retries > 0 && s.word.phase == Closed))
    && (t.closePending && t.gaveUp ==> s.retries == MAX_RETRIES)
    // blocks go up and come down together, and only for an opening
    && s.word.bopExposure == s.word.bopTelMove
    && (s.word.bopExposure ==> s.word.phase == Opening)
    && (s.word.phase == Opening && !s.word.stopped ==> s.word.bopExposure)
  }

  lemma OpenStartKeeps(s: State, probe: int, good: bool, started: int)
    requires Inv(s)
    ensures Inv(OpenStart(s, probe, good, started).0)
  {
    var t := Continue(Tell(s.log), OpenAsked);
    var s' := OpenStart(s, probe, good, started).0;
    if probe != -2 && good && started == 0 {
      assert Tell(s'.log) == Continue(t, OpenStarted);
    } else {
      assert Tell(s'.log) == t;
    }
  }

  lemma CloseStartKeeps(s: State, quiet: bool, probe: int, started: int, now: int)
    requires Inv(s) && now > 0
    requires quiet ==> MayCloseQuietly(s)
    ensures Inv(CloseStart(s, quiet, probe, started, now).0)
  {
    var t := Continue(Tell(s.log), if quiet then QuietAsked else CloseAsked);
    var s' := CloseStart(s, quiet, probe, started, now).0;
    if probe == -2 {
      assert Tell(s'.log) == Continue(t, ClosedConfirmed);
    } else if started < 0 && ReportDue(s.reported, now) {
      assert Tell(s'.log) == Continue(t, CloseFailReport(now));
    } else if started == 0 {
      assert Tell(s'.log) == Continue(t, CloseStarted);
    } else {
      assert Tell(s'.log) == t;
    }
  }

  lemma CheckKeeps(s: State, poll: int, ended: int)
    requires Inv(s)
    ensures Inv(Check(s, poll, ended))
  {
    var t := Tell(s.log);
    var s' := Check(s, poll, ended);
    if s.word.phase == Closing && (poll == -1 || poll == -2) {
      if poll == -1 && s.quiet {
        assert Tell(s'.log) == t;
      } else if poll == -2 && ended == 0 {
        assert Tell(s'.log) == Continue(t, ClosedConfirmed);
      } else if s.retries < MAX_RETRIES {
        assert Tell(s'.log) == Continue(t, RetryScheduled);
      } else {
        assert Tell(s'.log) == Continue(t, Emergency);
      }
    } else {
      assert s'.log == s.log;
    }
  }

  lemma StepKeeps(s: State, e: Event)
    requires Inv(s) && Timed([e])
    ensures Inv(Step(s, e))
  {
    assert e in [e];
    match e
    case OpenAsk(probe, good, started) => OpenStartKeeps(s, probe, good, started);
    case CloseAsk(probe, started, now) => CloseStartKeeps(s, false, probe, started, now);
    case QuietAsk(probe, started, now) =>
      if MayCloseQuietly(s) {
        CloseStartKeeps(s, true, probe, started, now);
      }
    case RetryFires(probe, started, now) =>
      if s.timers > 0 {
        CloseStartKeeps(s, false, probe, started, now);
      }
    case StopAsk(ret) =>
    case CheckMove(poll, ended) => CheckKeeps(s, poll, ended);
  }

  lemma {:induction false} RunKeeps(events: seq<Event>)
    requires Timed(events)
    ensures Inv(Run(START, events))
  {
    if events != [] {
      var n := |events| - 1;
      RunKeeps(events[..n]);
      StepKeeps(Run(START, events[..n]), events[n]);
    }
  }

  lemma StepChecks(s: State, e: Event)
    requires e.CheckMove?
    ensures Step(s, e) == Check(s, e.poll, e.ended)
  {
  }

  /** A roof that does not move is not checked. */
  lemma RestIsNotChecked(s: State, e: Event)
    requires e.CheckMove? && s.word.phase != Opening && s.word.phase != Closing
    ensures Step(s, e) == s
  {
  }

  /** At most one call more. */
  lemma RunOn(s: State, events: seq<Event>, more: seq<Event>)
    requires |more| <= 1
    ensures Run(s, events + more) == if more == [] then Run(s, events) else Step(Run(s, events), more[0])
  {
    if more == [] {
      assert events + more == events;
    } else {
      assert (events + more)[..|events|] == events;
    }
  }

  /**
    No ordinary close is forgotten, in any run with any driver: until the closed
    switch is confirmed or an opening or a stop is asked for, the roof is closing
    under watch, a retry is pending, or EMERGENCY was logged - and that only after
    exactly three retries. A quiet close never gets in the way of one.
  */
  lemma NoCloseForgotten(events: seq<Event>)
    requires Timed(events)
    ensures var s := Run(START, events);
            var t := Tell(s.log);
            && (t.closePending ==> (s.word.phase == Closing && !s.quiet) || s.timers > 0 || t.gaveUp)
            && (t.closePending ==> !MayCloseQuietly(s))
            && t.earned && t.retries <= MAX_RETRIES
  {
    RunKeeps(events);
  }

  /**
    The three retries are counted since the roof was last confirmed closed or
    started to open, not per close. An open request renews them exactly when it
    gets as far as starting the motor: answered "already opened", in bad weather or
    refused by the driver, it leaves the count where it was.
  */
  lemma OpenRenewsRetries(s: State, probe: int, good: bool, started: int)
    ensures OpenStart(s, probe, good, started).0.retries == 0
            <==> s.retries == 0 || (probe != -2 && good && started == 0)
  {
  }

  /** So once the retries are spent, a close of a roof found opened is given up at its first failure. */
  lemma CloseGivenUpAtOnce(s: State, good: bool, now: int)
    requires s.retries == MAX_RETRIES
    ensures var found := OpenStart(s, -2, good, 0).0;
            var closing := CloseStart(found, false, 0, 0, now).0;
            var failed := Check(closing, -1, 0);
            && found.word.phase == Opened && closing.word.phase == Closing
            && failed.log == After(After(After(found.log, CloseAsked), CloseStarted), Emergency)
            && failed.timers == 0
  {
  }

  /** Such states are reached: a close that fails four times in a row. */
  lemma RetriesGetSpent()
    ensures var fail := CheckMove(-1, 0);
            Run(START, [CloseAsk(0, 0, 1), fail, RetryFires(0, 0, 2), fail, RetryFires(0, 0, 3), fail]).retries
            == MAX_RETRIES
  {
    var fail := CheckMove(-1, 0);
    var events := [CloseAsk(0, 0, 1), fail, RetryFires(0, 0, 2), fail, RetryFires(0, 0, 3), fail];
    RunPrefix(events, 0);
    RunPrefix(events, 1);
    RunPrefix(events, 2);
    RunPrefix(events, 3);
    RunPrefix(events, 4);
    RunPrefix(events, 5);
    assert events[..6] == events;
  }

  lemma RunPrefix(events: seq<Event>, i: nat)
    requires i < |events|
    ensures Run(START, events[..i + 1]) == Step(Run(START, events[..i]), events[i])
  {
    assert events[..i + 1][..i] == events[..i];
  }

  /**
    While the roof opens, exposures and telescope moves are blocked together, unless
    a stop was once accepted; they are blocked at no other time, and a stop lifts both.
  */
  lemma OpeningBlocksTelescope(events: seq<Event>, ret: int)
    requires Timed(events)
    ensures var s := Run(START, events);
            && (s.word.bopExposure <==> s.word.bopTelMove)
            && (s.word.bopTelMove ==> s.word.phase == Opening)
            && (s.word.phase == Opening && !s.word.bopTelMove ==> s.word.stopped)
            && (ret >= 0 ==> !Stop(s, ret).0.word.bopExposure && !Stop(s, ret).0.word.bopTelMove)
  {
    RunKeeps(events);
  }

  // ----- What the other devices see

  /**
    An opened roof is to be closed before the devices ahead of it, a closed one to be
    opened before those after it; a roof that moves holds up both.
  */
  predicate Blocking(w: Word) {
    match w.phase
    case Opened => w.blockClose && !w.blockOpen
    case Closed => w.blockOpen && !w.blockClose
    case Opening | Closing => w.blockOpen && w.blockClose
    case Unknown | WaitClosing => true
  }

  lemma CloseBlocks(s: State, quiet: bool, probe: int, started: int, now: int)
    requires Blocking(s.word)
    ensures var w := CloseStart(s, quiet, probe, started, now).0.word;
            && Blocking(w)
            && (w.phase == WaitClosing || w.phase == s.word.phase ==>
                  w.blockOpen == s.word.blockOpen && w.blockClose == s.word.blockClose)
  {
  }

  lemma CheckBlocks(s: State, poll: int, ended: int)
    requires Blocking(s.word)
    ensures var w := Check(s, poll, ended).word;
            && Blocking(w)
            && (w.phase == WaitClosing || w.phase == s.word.phase ==>
                  w.blockOpen == s.word.blockOpen && w.blockClose == s.word.blockClose)
  {
  }

  /** A wait for the mount and a stop leave both bits as they were, and so does all that moves nothing. */
  lemma StepBlocks(s: State, e: Event)
    requires Blocking(s.word)
    ensures var w := Step(s, e).word;
            && Blocking(w)
            && (w.phase == WaitClosing || w.phase == s.word.phase || e.StopAsk? ==>
                  w.blockOpen == s.word.blockOpen && w.blockClose == s.word.blockClose)
  {
    match e
    case OpenAsk(probe, good, started) =>
    case CloseAsk(probe, started, now) => CloseBlocks(s, false, probe, started, now);
    case QuietAsk(probe, started, now) => CloseBlocks(s, true, probe, started, now);
    case RetryFires(probe, started, now) =>
      if s.timers > 0 {
        CloseBlocks(s.(timers := s.timers - 1), false, probe, started, now);
      }
    case StopAsk(ret) =>
    case CheckMove(poll, ended) => CheckBlocks(s, poll, ended);
  }

  /** So in every run the blocks tell the other devices where the roof is. */
  lemma {:induction false} BlocksFollowThePhase(events: seq<Event>)
    ensures Blocking(Run(START, events).word)
  {
    if events != [] {
      var n := |events| - 1;
      BlocksFollowThePhase(events[..n]);
      StepBlocks(Run(START, events[..n]), events[n]);
    }
  }

  // ----- What the answers mean

  /**
    A request to open or close succeeds if and only if the roof is where it should be, on
    the way there or waiting to go; a roof is never set to opening in bad weather; any
    request withdraws the retries that were pending.
  */
  lemma AnswersTellThePhase(s: State, quiet: bool, probe: int, good: bool, started: int, now: int)
    ensures var (r, ret) := OpenStart(s, probe, good, started);
            && r.timers == 0
            && (if ret == 0 then r.word.phase == (if probe == -2 then Opened else Opening)
                else ret == -1 && r == s.(timers := 0).Noted(OpenAsked))
            && (ret == 0 && probe != -2 <==> r.log == After(After(s.log, OpenAsked), OpenStarted))
            && (r.log == After(After(s.log, OpenAsked), OpenStarted) ==> good && started == 0)
            && (ret == -1 ==> !good || started != 0)
    ensures var (r, ret) := CloseStart(s, quiet, probe, started, now);
            && r.quiet == quiet
            && (ret == 0 || ret == -1)
            && (ret == 0 <==> probe == -2 || started >= 0)
            && (ret == 0 ==> r.word.phase == if probe == -2 then Closed
                                             else if started > 0 then WaitClosing else Closing)
            && (ret == -1 ==> r.word == s.word)
            && r.timers == if probe != -2 && started != 0 then 1 else 0
  {
  }

  /**
    In every run a close that the driver refuses is reported as critical, unless one was
    reported less than 300 s ago and no move was started since; it is tried again.
  */
  lemma RefusedCloseIsReported(events: seq<Event>, quiet: bool, probe: int, started: int, now: int)
    requires Timed(events) && probe != -2 && started < 0
    ensures var s := Run(START, events);
            var r := CloseStart(s, quiet, probe, started, now).0;
            var asked := After(s.log, if quiet then QuietAsked else CloseAsked);
            && Tell(s.log).spaced
            && r.timers == 1
            && r.log == if ReportDue(Tell(s.log).reportedAt, now) then After(asked, CloseFailReport(now)) else asked
  {
    RunKeeps(events);
    RefusedClose(Run(START, events), quiet, probe, started, now);
  }

  lemma RefusedClose(s: State, quiet: bool, probe: int, started: int, now: int)
    requires Inv(s) && probe != -2 && started < 0
    ensures var r := CloseStart(s, quiet, probe, started, now).0;
            var asked := After(s.log, if quiet then QuietAsked else CloseAsked);
            && r.timers == 1
            && r.log == if ReportDue(Tell(s.log).reportedAt, now) then After(asked, CloseFailReport(now)) else asked
  {
    assert Tell(s.log).reportedAt == s.reported;
  }

  /** A stop that the driver refuses changes nothing but the pending retries. */
  lemma StopAnswers(s: State, ret: int)
    ensures var (r, answer) := Stop(s, ret);
            && r.timers == 0 && answer == (if ret < 0 then -1 else 0)
            && r.word.phase == s.word.phase
            && r.word.blockOpen == s.word.blockOpen && r.word.blockClose == s.word.blockClose
            && (ret < 0 ==> r.word == s.word)
            && (ret >= 0 ==> r.word.stopped && !r.word.bopExposure && !r.word.bopTelMove)
            && r.retries == s.retries && r.reported == s.reported && r.quiet == s.quiet
  {
  }

  /**
    A move ends at the first negative answer of its poll. A close is confirmed only if the
    driver saw the switch and stopped; else another retry is scheduled, or the third was
    spent, unless it was a quiet one that ran out of time.
  */
  lemma MovesEnd(s: State, poll: int, ended: int)
    requires s.word.phase == Opening || s.word.phase == Closing
    ensures var r := Check(s, poll, ended);
            && (poll >= 0 ==> r == s)
            && (poll == -1 || poll == -2 ==> r.word.phase == if s.word.phase == Opening then Opened else Closed)
            && (s.word.phase == Opening ==> r.log == s.log && r.timers == s.timers && r.retries == s.retries)
    ensures var r := Check(s, poll, ended);
            s.word.phase == Closing ==>
              && (poll == -2 && ended == 0 ==>
                    r.log == After(s.log, ClosedConfirmed) && r.timers == s.timers && r.retries == 0)
              && (poll == -1 && s.quiet ==>
                    !r.quiet && r.log == s.log && r.timers == s.timers && r.retries == s.retries)
              && ((poll == -1 && !s.quiet) || (poll == -2 && ended != 0) ==>
                    if s.retries < 3
                    then r.log == After(s.log, RetryScheduled) && r.timers == s.timers + 1 && r.retries == s.retries + 1
                    else r.log == After(s.log, Emergency) && r.timers == s.timers && r.retries == s.retries)
  {
  }

  /** The object: the fields the source keeps, updated step by step. */
  class Dome {
    var word: Word
    var closeRetries: nat
    var closeFailReported: int
    var quietClose: bool
    var retryTimers: nat
    ghost var log: Log

    ghost function Model(): State
      reads this
    {
      State(word, closeRetries, closeFailReported, quietClose, retryTimers, log)
    }

    constructor ()
      ensures Model() == START
    {
      word := START.word;
      closeRetries, closeFailReported, quietClose, retryTimers, log := 0, 0, false, 0, Nothing;
    }

    method DomeOpenStart(probe: int, good: bool, started: int) returns (ret: int)
      modifies this
      ensures (Model(), ret) == OpenStart(old(Model()), probe, good, started)
    {
      retryTimers, log := 0, After(log, OpenAsked);
      if probe == -2 {
        word := Word(Opened, false, false, false, true, word.stopped);
        return 0;
      }
      if !good || started != 0 {
        return -1;
      }
      closeFailReported, closeRetries := 0, 0;
      log := After(log, OpenStarted);
      word := Word(Opening, true, true, true, true, word.stopped);
      ret := 0;
    }

    method DomeCloseStart(quiet: bool, probe: int, started: int, now: int) returns (ret: int)
      modifies this
      ensures (Model(), ret) == CloseStart(old(Model()), quiet, probe, started, now)
    {
      retryTimers, quietClose := 0, quiet;
      log := After(log, if quiet then QuietAsked else CloseAsked);
      if probe == -2 {
        word := Word(Closed, false, false, true, false, word.stopped);
        closeRetries, log := 0, After(log, ClosedConfirmed);
        return 0;
      }
      if started < 0 {
        if closeFailReported == 0 || now - closeFailReported >= FAIL_REPEAT {
          log := After(log, CloseFailReport(now));
          closeFailReported := now;
        }
        retryTimers := 1;
        return -1;
      }
      if started > 0 {
        word := word.(phase := WaitClosing, bopExposure := false, bopTelMove := false);
        retryTimers := 1;
        return 0;
      }
      closeFailReported, log := 0, After(log, CloseStarted);
      word := Word(Closing, false, false, true, true, word.stopped);
      ret := 0;
    }

    method CloseDidFail()
      modifies this
      ensures Model() == CloseFailed(old(Model()))
    {
      if closeRetries < MAX_RETRIES {
        closeRetries := closeRetries + 1;
        log := After(log, RetryScheduled);
        retryTimers := retryTimers + 1;
      } else {
        log := After(log, Emergency);
      }
    }

    method DomeStop(stopRet: int) returns (ret: int)
      modifies this
      ensures (Model(), ret) == Stop(old(Model()), stopRet)
    {
      retryTimers, log := 0, After(log, StopAsked);
      if stopRet < 0 {
        return -1;
      }
      word := word.(stopped := true, bopExposure := false, bopTelMove := false);
      ret := 0;
    }

    method CheckOpening(poll: int, ended: int)
      modifies this
      ensures Model() == Check(old(Model()), poll, ended)
    {
      if word.phase == Opening {
        if poll == -1 || poll == -2 {
          word := Word(Opened, false, false, false, true, word.stopped);
        }
      } else if word.phase == Closing {
        if poll == -1 {
          word := word.(phase := Closed, blockOpen := true, blockClose := false);
          if quietClose {
            quietClose := false;
          } else {
            CloseDidFail();
          }
        } else if poll == -2 {
          word := word.(phase := Closed, blockOpen := true, blockClose := false);
          if ended != 0 {
            CloseDidFail();
          } else {
            log := After(log, ClosedConfirmed);
            closeRetries := 0;
          }
        }
      }
    }
  }
}
