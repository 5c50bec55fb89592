/**
  The exposures a camera shows and those that wait in its queue: when the state word shows
  one the hardware does not make, and when one is lost (base/camd/src/camd.cpp).
*/
module CameraExposures {
  import opened Camera

  // ----- An exposure that is shown, but not made

  lemma CamStartHonest(s: State, careBlock: bool)
    requires Honest(s)
    ensures Honest(CamStartExposure(s, careBlock).0)
  {
    if Blocked(s, careBlock) {
      var n := s.(waits := s.waits.(qued := s.waits.qued + 1, notBop := true));
      MaskHonest(n, n.chip.(willExpose := true, fault := NoFault));
    } else {
      MaskHonest(s, s.chip.(willExpose := true, fault := NoFault));
      var waits := s.setting.dark && (s.blocks.full.trigger || s.blocks.master.trigger);
      StartHonest(if waits then WillExpose(s) else s);
    }
  }

  lemma CamExposeHonest(s: State, client: bool, chip: Chip, fromQue: bool, careBlock: bool)
    requires Honest(s)
    ensures Honest(CamExpose(s, client, chip, fromQue, careBlock).0)
  {
    CamStartHonest(Taken(s, client), careBlock);
  }

  /** The end of an exposure finds the next one to start, and the driver refuses it. */
  predicate Vain(s: State) {
    NextTried(s) && Refused(s.hw.answers)
  }

  /** The other way: the abort of a failed exposure ends what the mask has started meanwhile. */
  predicate StartAborted(s: State) {
    (s.chip.exposing || s.chip.noImage) && Restarts(s)
  }

  predicate InVain(s: State, e: Event) {
    e.PollExposure? && ((e.ret == -2 && Vain(s)) || (e.ret == -1 && e.code == 0 && StartAborted(s)))
  }

  lemma TransferInVain(s: State, code: int, readable: bool)
    requires s.setting.frameTransfer && s.chip.exposing && s.waits.qued > 0 && s.waits.client
    ensures Honest(CheckExposures(s, -2, code, readable)) <==> !Vain(s)
  {
    var h := s.(hw := s.hw.(exposing := false));
    assert Released(h) == Released(s).(hw := h.hw);
    TransferBegins(h);
    UnreadableShows(ReadoutBegun(h), readable);
    var r := CamReadout(h, readable);
    if r.number == h.number {
      MaskHonest(r, Unexposed(r.chip).(transfer := false, telMove := false, fault := NoFault));
    } else {
      ExposingMask(r, r.chip.(transfer := false, fault := NoFault));
    }
  }

  /** Without frame transfer, or with no exposure or no client waiting, none is shown in vain. */
  lemma ReadoutIsHonest(s: State, readable: bool)
    requires !(s.setting.frameTransfer && s.waits.qued > 0 && s.waits.client)
    ensures Honest(CamReadout(s, readable))
  {
    var h := s.(hw := s.hw.(reading := true));
    MaskHonest(h, Unexposed(h.chip).(reading := true, telMove := false, fault := NoFault));
    UnreadableIsHonest(ReadoutBegun(s), readable);
  }

  lemma UnreadIsHonest(s: State, ret: int, code: int, readable: bool)
    requires !s.waits.client && (s.chip.exposing || s.chip.noImage) && ret != -5
    ensures Honest(EndExposure(s, ret, code, readable))
  {
    var h := if ret != -4 then StopHardware(s, code) else s;
    var m := h.(waits := h.waits.(qued := 0));
    MaskHonest(m, Cleared(m.chip, NoFault));
  }

  lemma FinishedIsHonest(s: State)
    ensures Honest(Finished(s))
  {
    MaskHonest(s, Unexposed(s.chip).(transfer := false, telMove := false, fault := NoFault));
  }

  lemma UnreadExposureHonest(s: State, code: int, readable: bool)
    ensures Honest(UnreadExposure(s, code, readable))
  {
    var e := EndExposure(s.(waits := s.waits.(client := false)), -4, code, readable);
    FinishedIsHonest(e);
    var f := Finished(e);
    CamExposeHonest(f, f.waits.client, Unexposed(f.chip), true, f.setting.careBlock);
  }

  lemma FailedIsHonest(s: State, code: int)
    requires Synced(s) && (s.chip.exposing || s.chip.noImage)
    ensures Honest(ExposureFailed(s, code)) <==> !(code == 0 && Restarts(s))
  {
    MaskHonest(s, FailedChip(s.chip));
    FailureExactly(s);
    var m := FailureMasked(s);
    CamExposeHonest(m, m.waits.client, Unexposed(m.chip), true, m.setting.careBlock);
  }

  lemma CheckExposuresHonest(s: State, ret: int, code: int, readable: bool)
    requires Honest(s) && Synced(s)
    ensures Honest(CheckExposures(s, ret, code, readable)) <==> !InVain(s, PollExposure(ret, code, readable))
  {
    if (s.chip.exposing || s.chip.noImage) && -5 <= ret < 0 {
      var h := s.(hw := s.hw.(exposing := false));
      if ret == -5 {
        FinishedIsHonest(EndExposure(h, ret, code, readable));
      } else if ret == -4 {
        UnreadExposureHonest(h, code, readable);
      } else if ret == -3 {
        UnreadIsHonest(h.(waits := h.waits.(client := false)), ret, code, readable);
      } else if ret == -2 {
        EndIsHonest(s, code, readable);
      } else {
        FailedIsHonest(h, code);
      }
    }
  }

  lemma EndIsHonest(s: State, code: int, readable: bool)
    requires Honest(s) && (s.chip.exposing || s.chip.noImage)
    ensures Honest(CheckExposures(s, -2, code, readable)) <==> !Vain(s)
  {
    var h := s.(hw := s.hw.(exposing := false));
    if s.setting.frameTransfer && s.chip.exposing && s.waits.qued > 0 && s.waits.client {
      TransferInVain(s, code, readable);
    } else {
      var r := EndExposure(h, -2, code, readable);
      if !s.waits.client {
        UnreadIsHonest(h, -2, code, readable);
      } else if s.setting.frameTransfer && s.waits.qued > 0 {
        TransferIsHonest(h, readable);
      } else {
        ReadoutIsHonest(h, readable);
      }
      FinishedIsHonest(r);
      MaskHonest(r, r.chip.(transfer := false, fault := NoFault));
    }
  }

  lemma TransferIsHonest(s: State, readable: bool)
    requires Honest(s) && s.setting.frameTransfer && s.waits.qued > 0 && s.waits.client && !s.chip.exposing
    ensures Honest(CamReadout(s, readable))
  {
    CheckHonest(s, Unexposed(s.chip));
    var q := CheckQueue(s, Unexposed(s.chip));
    var g := q.(hw := q.hw.(reading := true));
    MaskHonest(g, g.chip.(reading := true, transfer := true, fault := NoFault));
    var m := Transferred(s);
    CamExposeHonest(m, m.waits.client, Unexposed(m.chip), true, m.setting.careBlock);
    UnreadableIsHonest(ReadoutBegun(s), readable);
  }

  lemma UnreadableIsHonest(s: State, readable: bool)
    requires Honest(s)
    ensures var h := s.(hw := s.hw.(reading := false));
            Honest(if readable then s else Mask(h, h.chip.(reading := false, fault := Broken)))
  {
    var h := s.(hw := s.hw.(reading := false));
    MaskHonest(h, h.chip.(reading := false, fault := Broken));
  }

  /**
    Every step shows only exposures that are made, but for these two, exactly; no driver,
    queue or order of events adds another.
  */
  lemma StepIsHonest(s: State, e: Event)
    requires Honest(s) && Synced(s)
    ensures Honest(Step(s, e)) <==> !InVain(s, e)
  {
    match e
    case Expose(careBlock) =>
      CamExposeHonest(s.(setting := s.setting.(careBlock := careBlock)), true, s.chip, false, careBlock);
    case PollExposure(ret, code, readable) => CheckExposuresHonest(s, ret, code, readable);
    case PollReadout(ret) => CheckReadoutsHonest(s, ret);
    case StopCommand(code) =>
      var h := StopHardware(s, code);
      MaskHonest(h, Cleared(h.chip, if code == 0 then Killed else KilledAndBroken));
    case Kill(code, scriptEnds) => KillAllHonest(s, code, scriptEnds);
    case BopSent(bop) => BopHonest(s, bop);
    case Surroundings(_, _, _, _) =>
    case OpticsSettled =>
      if s.waits.qued > 0 {
        var m := s.(waits := s.waits.(qued := s.waits.qued - 1));
        CamExposeHonest(m, m.waits.client, m.chip, false, m.setting.careBlock);
      }
    case ClientLeft =>
    case QuedWritten(_) =>
    case ValueQueued(_) =>
    case HardwareWill(_) =>
  }

  lemma CheckReadoutsHonest(s: State, ret: int)
    requires Honest(s)
    ensures Honest(CheckReadouts(s, ret))
  {
    var h := s.(hw := s.hw.(reading := false));
    var seen := h.chip.(reading := false, transfer := false, image := false);
    CamExposeHonest(h, true, seen, true, h.setting.careBlock);
    var m := if s.waits.qued > 0 && s.waits.client then CamExpose(h, true, seen, true, h.setting.careBlock).0 else h;
    MaskHonest(m, if ret == -2 then m.chip.(reading := false, image := true, fault := NoFault)
                  else m.chip.(reading := false, fault := Broken));
  }

  lemma KillAllHonest(s: State, code: int, scriptEnds: bool)
    ensures Honest(KillAll(s, code, scriptEnds))
  {
    var h := StopHardware(s.(waits := s.waits.(notBop := false, emptyQue := false)), code);
    var chip := Cleared(h.chip, Killed);
    MaskHonest(h, chip);
    var m := Mask(h, chip);
    var n := m.(waits := m.waits.(queue := [], qued := if scriptEnds then 0 else m.waits.qued));
    MaskHonest(n, n.chip.(fault := Killed));
  }

  predicate NoneInVain(s: State, events: seq<Event>) {
    events == [] ||
    (NoneInVain(s, events[..|events| - 1]) && !InVain(Run(s, events[..|events| - 1]), events[|events| - 1]))
  }

  /** So in every run the exposure the camera shows is one the hardware makes, until one of the two. */
  lemma {:induction false} ShownExposuresAreMade(frameTransfer: bool, events: seq<Event>)
    requires NoneInVain(Initial(frameTransfer), events)
    ensures Honest(Run(Initial(frameTransfer), events))
  {
    if events != [] {
      var before := events[..|events| - 1];
      ShownExposuresAreMade(frameTransfer, before);
      ExposuresExclude(frameTransfer, before);
      StepIsHonest(Run(Initial(frameTransfer), before), events[|events| - 1]);
    }
  }

  lemma {:induction false} NoneInVainWithoutPolls(s: State, events: seq<Event>)
    requires forall i :: 0 <= i < |events| ==> !events[i].PollExposure?
    ensures NoneInVain(s, events)
  {
    if events != [] {
      NoneInVainWithoutPolls(s, events[..|events| - 1]);
    }
  }

  /** Two exposures asked of a driver that makes one. */
  function Pair(): seq<Event> {
    [HardwareWill([0])] + [Expose(false)] + [QuedWritten(1)]
  }

  lemma PairRuns()
    ensures Run(Initial(true), Pair())
            == State(Chip(true, false, false, false, false, false, false, NoFault), Waits(1, false, false, true, []),
                     Blocks(Bop(false, false), Bop(false, false), Bop(false, false)),
                     Setting(true, false, false, false, false), Hardware(true, false, false, []), 1)
  {
    var s, will := Initial(true), [HardwareWill([0])];
    RunOn(s, [], will[0]);
    assert [] + will == will;
    RunOn(s, will, Expose(false));
    var a := Run(s, will);
    QuietStart(Taken(a.(setting := a.setting.(careBlock := false)), true));
    RunOn(s, will + [Expose(false)], QuedWritten(1));
  }

  /** Runs that reach them: a start refused at the end of an exposure, */
  lemma RefusedStartIsShown()
    ensures NoneInVain(Initial(true), Pair())
    ensures !Honest(Run(Initial(true), Pair() + [PollExposure(-2, 0, true)]))
  {
    NoneInVainWithoutPolls(Initial(true), Pair());
    PairRuns();
    RunOn(Initial(true), Pair(), PollExposure(-2, 0, true));
    StepIsHonest(Run(Initial(true), Pair()), PollExposure(-2, 0, true));
  }

  /** and the abort of a failed exposure, which works. */
  lemma AbortedStartIsShown()
    ensures NoneInVain(Initial(false), Crowd())
    ensures !Honest(Run(Initial(false), Crowd() + [PollExposure(-1, 0, true)]))
  {
    NoneInVainWithoutPolls(Initial(false), Crowd());
    CrowdRuns();
    RunOn(Initial(false), Crowd(), PollExposure(-1, 0, true));
    CrowdRestarts();
    StepIsHonest(Crowded(), PollExposure(-1, 0, true));
  }

  // ----- How a readout ends

  /** The bits that tell of the image and of the driver. */
  predicate Outcome(r: Chip, image: bool, fault: Fault) {
    r.image == image && r.fault == fault && !r.reading
  }

  /**
    With nothing waiting a final answer of the readout shows an image and no error if and
    only if it is -2; any other shows a hardware error and leaves the image flag.
  */
  lemma ReadoutTellsTheImage(s: State, ret: int)
    requires s.chip.reading && s.waits.qued <= 0
    ensures var r := CheckReadouts(s, ret);
            && (ret >= 0 ==> r == s)
            && (ret == -2 ==> Outcome(r.chip, true, NoFault))
            && (ret < 0 && ret != -2 ==> Outcome(r.chip, s.chip.image, Broken))
            && (ret < 0 ==> r.chip == s.chip.(reading := false, image := r.chip.image, fault := r.chip.fault))
            && (ret < 0 ==> r.hw == s.hw.(reading := false) && r.number == s.number)
  {
    if ret < 0 {
      var h := s.(hw := s.hw.(reading := false));
      NoneQueued(h, if ret == -2 then h.chip.(reading := false, image := true, fault := NoFault)
                    else h.chip.(reading := false, fault := Broken));
      IdleNumber(h, if ret == -2 then h.chip.(reading := false, image := true, fault := NoFault)
                    else h.chip.(reading := false, fault := Broken));
    }
  }

  /** Nor does a change of state begin an exposure then. */
  lemma IdleNumber(s: State, chip: Chip)
    requires s.waits.qued <= 0
    ensures Mask(s, chip).number == s.number
  {
    var left := StillHeld(s.waits.queue, chip, s.blocks.full.trigger);
    var t := s.(chip := chip, waits := s.waits.(queue := left));
    CheckUnfolds(s.(chip := chip), chip);
    assert SetFullBop(t, t.blocks.sent) == WithBop(t, t.blocks.sent);
  }

  /**
    When the next exposure starts as the readout ends, and more wait, the outcome is shown
    beside it: the image flag, which the start had cleared, if and only if the readout was
    good, and the error of one that was not.
  */
  lemma ReadoutTellsTheImageBeside(s: State, ret: int)
    requires s.chip.reading && s.waits.qued > 0 && s.waits.client && ret < 0
    requires var h := s.(hw := s.hw.(reading := false));
             var seen := h.chip.(reading := false, transfer := false, image := false);
             var m := CamExpose(h, true, seen, true, h.setting.careBlock).0;
             m.chip.exposing && m.waits.qued > 0
    ensures var h := s.(hw := s.hw.(reading := false));
            var seen := h.chip.(reading := false, transfer := false, image := false);
            var m := CamExpose(h, true, seen, true, h.setting.careBlock).0;
            CheckReadouts(s, ret).chip
            == if ret == -2 then m.chip.(reading := false, image := true, fault := NoFault)
               else m.chip.(reading := false, fault := Broken)
  {
    var h := s.(hw := s.hw.(reading := false));
    var seen := h.chip.(reading := false, transfer := false, image := false);
    var m := CamExpose(h, true, seen, true, h.setting.careBlock).0;
    BusyMask(m, if ret == -2 then m.chip.(reading := false, image := true, fault := NoFault)
                else m.chip.(reading := false, fault := Broken));
  }

  /** An exposure that starts clears the image flag and any error, and says what it is. */
  lemma StartClearsTheImage(s: State, ret: int)
    ensures var c := Answered(s, ret);
            if ret == 0 || ret == 1 then
              && c.exposing && (c.noImage <==> ret == 1) && !c.image && !c.willExpose && c.fault == NoFault
              && (c.telMove <==> s.setting.careBlock) && c.reading == s.chip.reading && c.transfer == s.chip.transfer
            else c == s.chip.(telMove := false, fault := NoFault)
  {
  }

  /**
    With nothing else waiting the readout begins as the exposure ends; an image that cannot
    be sent ends it at once, with an error.
  */
  lemma UnreadableImageFails(s: State, readable: bool)
    requires s.waits.qued <= 0 && (s.chip.exposing || s.chip.noImage)
    requires s.waits.queue == [] && !s.waits.emptyQue
    ensures CamReadout(s, readable)
            == s.(chip := Unexposed(s.chip).(reading := readable, telMove := false,
                                             fault := if readable then NoFault else Broken),
                  hw := s.hw.(reading := readable))
  {
    var h := s.(hw := s.hw.(reading := true));
    EmptyMask(h, Unexposed(h.chip).(reading := true, telMove := false, fault := NoFault));
    var b := ReadoutBegun(s);
    var u := b.(hw := b.hw.(reading := false));
    EmptyMask(u, u.chip.(reading := false, fault := Broken));
  }

  // ----- With nothing queued

  /** No value is queued and none was waited for, so no change of state sets off another. */
  predicate Plain(s: State) {
    s.waits.queue == [] && !s.waits.emptyQue
  }

  /** The driver starts exactly when it answers 0 or 1; a start during an exposure or a readout is a clash. */
  lemma DriverAnswers(s: State)
    ensures var (r, ret) := StartHardware(s);
            && r == s.(hw := r.hw) && r.hw.reading == s.hw.reading
            && ret == (if s.hw.answers == [] then -1 else s.hw.answers[0])
            && r.hw.answers == (if s.hw.answers == [] then [] else s.hw.answers[1..])
            && (r.hw.exposing <==> s.hw.exposing || !Refused(s.hw.answers))
            && (r.hw.clash <==> s.hw.clash || s.hw.exposing || (s.hw.reading && !s.setting.frameTransfer))
  {
  }

  /** A camera that exits refuses every request; one with values queued refuses it until they are gone. */
  lemma RequestsAreRefused(s: State, client: bool, careBlock: bool)
    ensures s.setting.exiting ==> CamExpose(s, client, s.chip, false, careBlock) == (s, -1)
    ensures !s.setting.exiting && s.waits.queue != [] ==>
              CamExpose(s, client, s.chip, false, careBlock) == (s.(waits := s.waits.(emptyQue := true)), -1)
  {
  }

  /** What a request is answered: queued, held back, or what the driver says. */
  lemma PlainExpose(s: State, client: bool, careBlock: bool)
    requires Plain(s) && !s.setting.exiting
    ensures var (r, ret) := CamExpose(s, client, s.chip, false, careBlock);
            Busy(s) ==> ret == 0 && r == s.(waits := s.waits.(qued := s.waits.qued + 1))
    ensures var (r, ret) := CamExpose(s, client, s.chip, false, careBlock);
            var rest := if s.waits.qued > 0 then s.waits.qued - 1 else s.waits.qued;
            var blocks := s.blocks.full.exposure || s.blocks.master.exposure;
            var triggers := s.blocks.full.trigger || s.blocks.master.trigger;
            var held := careBlock && !s.setting.dark && (blocks || triggers || s.setting.moving);
            !Busy(s) && held ==>
              && ret == 0 && r.number == s.number && r.hw == s.hw
              && r.waits == s.waits.(client := client, qued := rest + 1, notBop := true)
              && r.chip == if !blocks && triggers then s.chip.(willExpose := true, fault := NoFault) else s.chip
    ensures var (r, ret) := CamExpose(s, client, s.chip, false, careBlock);
            var rest := if s.waits.qued > 0 then s.waits.qued - 1 else s.waits.qued;
            var held := Blocked(s, careBlock);
            !Busy(s) && !held ==>
              && ret == (if !Refused(s.hw.answers) then 0 else if s.hw.answers == [] then -1 else s.hw.answers[0])
              && r.number == s.number + 1
              && r.waits == s.waits.(client := client, qued := rest)
              && (r.chip.exposing <==> !Refused(s.hw.answers))
              && (r.hw.exposing <==> s.hw.exposing || !Refused(s.hw.answers))
  {
    if !Busy(s) {
      PlainStart(Taken(s, client), careBlock);
    }
  }

  lemma PlainStart(s: State, careBlock: bool)
    requires Plain(s) && !s.chip.exposing
    ensures var (r, ret) := CamStartExposure(s, careBlock);
            Blocked(s, careBlock) ==>
              && ret == 0
              && r == s.(waits := s.waits.(qued := s.waits.qued + 1, notBop := true), chip := r.chip)
              && r.chip == if !(s.blocks.full.exposure || s.blocks.master.exposure)
                              && (s.blocks.full.trigger || s.blocks.master.trigger)
                           then s.chip.(willExpose := true, fault := NoFault) else s.chip
    ensures var (r, ret) := CamStartExposure(s, careBlock);
            !Blocked(s, careBlock) ==>
              && ret == (if !Refused(s.hw.answers) then 0 else if s.hw.answers == [] then -1 else s.hw.answers[0])
              && r.number == s.number + 1 && r.waits == s.waits
              && (r.chip.exposing <==> !Refused(s.hw.answers))
              && (r.hw.exposing <==> s.hw.exposing || !Refused(s.hw.answers))
  {
    var m := if Blocked(s, careBlock) then s.(waits := s.waits.(qued := s.waits.qued + 1, notBop := true)) else s;
    EmptyMask(m, m.chip.(willExpose := true, fault := NoFault));
    if !Blocked(s, careBlock) {
      var waits := s.setting.dark && (s.blocks.full.trigger || s.blocks.master.trigger);
      StartAnswers(if waits then WillExpose(s) else s);
    }
  }

  lemma StartAnswers(s: State)
    requires Plain(s) && !s.chip.exposing
    ensures var (r, ret) := StartUnchecked(s);
            && ret == (if !Refused(s.hw.answers) then 0 else if s.hw.answers == [] then -1 else s.hw.answers[0])
            && r.number == s.number + 1 && r.waits == s.waits
            && (r.chip.exposing <==> !Refused(s.hw.answers))
            && (r.hw.exposing <==> s.hw.exposing || !Refused(s.hw.answers))
  {
    QuietStart(s);
    StartAnswer(s);
  }

  lemma StartReturns(s: State)
    ensures var n := s.(number := s.number + 1);
            var ret := StartHardware(Mask(n, n.chip.(telMove := n.setting.careBlock, fault := NoFault))).1;
            StartUnchecked(s).1 == if ret == 1 then 0 else ret
  {
  }

  lemma StartAnswer(s: State)
    requires Plain(s)
    ensures StartUnchecked(s).1
            == if !Refused(s.hw.answers) then 0 else if s.hw.answers == [] then -1 else s.hw.answers[0]
  {
    var n := s.(number := s.number + 1);
    StartReturns(s);
    EmptyMask(n, n.chip.(telMove := n.setting.careBlock, fault := NoFault));
  }

  /** The chip with nothing going on and nothing to come. */
  function Silent(chip: Chip, fault: Fault): Chip {
    Chip(false, false, false, false, false, false, chip.image, fault)
  }

  /** The ends of an exposure without a client, by answer: the queue is emptied, and all is quiet. */
  lemma PlainUnreadEnds(s: State, ret: int, code: int, readable: bool)
    requires Plain(s) && (s.chip.exposing || s.chip.noImage)
    requires ret == -3 || ret == -4 || (ret == -2 && !s.waits.client)
    ensures CheckExposures(s, ret, code, readable)
            == s.(chip := Silent(s.chip, NoFault), waits := s.waits.(qued := 0, client := false),
                  hw := s.hw.(exposing := false))
  {
    var h := s.(hw := s.hw.(exposing := false), waits := s.waits.(client := false));
    var e := h.(waits := h.waits.(qued := 0));
    EmptyMask(e, Cleared(e.chip, NoFault));
    var c := e.(chip := Silent(s.chip, NoFault));
    EmptyMask(c, Unexposed(c.chip).(transfer := false, telMove := false, fault := NoFault));
  }

  /**
    The end of an exposure whose image a client waits for, with no exposure behind it, or
    none that may start meanwhile: the readout begins, and any error is wiped from the
    state, also that of an image which could not be sent.
  */
  lemma PlainReadout(s: State, code: int, readable: bool)
    requires Plain(s) && (s.chip.exposing || s.chip.noImage) && s.waits.client
    requires !s.setting.frameTransfer || s.waits.qued <= 0
    ensures CheckExposures(s, -2, code, readable)
            == s.(chip := s.chip.(exposing := false, noImage := false, reading := readable, transfer := false,
                                  telMove := false, fault := NoFault),
                  hw := s.hw.(exposing := false, reading := readable))
  {
    var h := s.(hw := s.hw.(exposing := false, reading := true));
    EmptyMask(h, Unexposed(h.chip).(reading := true, telMove := false, fault := NoFault));
    var b := h.(chip := Unexposed(h.chip).(reading := true, telMove := false, fault := NoFault));
    var u := b.(hw := b.hw.(reading := false));
    EmptyMask(u, u.chip.(reading := false, fault := Broken));
    var r := CamReadout(s.(hw := s.hw.(exposing := false)), readable);
    EmptyMask(r, Unexposed(r.chip).(transfer := false, telMove := false, fault := NoFault));
  }

  /**
    A failed exposure is shown as a hardware error; what waits is tried if the abort fails,
    and dropped if it works.
  */
  lemma PlainFailure(s: State, code: int, readable: bool)
    requires Plain(s) && (s.chip.exposing || s.chip.noImage)
    ensures var failed := s.(chip := s.chip.(exposing := false, noImage := false, reading := false, telMove := false,
                                             fault := Broken),
                             hw := s.hw.(exposing := false));
            CheckExposures(s, -1, code, readable)
            == if code == 0 then failed.(waits := failed.waits.(qued := 0))
               else if s.waits.qued <= 0 then failed
               else CamExpose(failed, s.waits.client, failed.chip, true, s.setting.careBlock).0
  {
    var h := s.(hw := s.hw.(exposing := false));
    EmptyMask(h, FailedChip(h.chip));
  }

  /** The commands that stop all: quiet, killed, with an error if the abort failed, and then only the queue stays. */
  lemma PlainStops(s: State, code: int, scriptEnds: bool)
    requires Plain(s)
    ensures StopExpo(s, code)
            == s.(chip := Silent(s.chip, if code == 0 then Killed else KilledAndBroken),
                  waits := s.waits.(qued := if code == 0 then 0 else s.waits.qued),
                  hw := s.hw.(exposing := s.hw.exposing && code != 0))
    ensures KillAll(s, code, scriptEnds)
            == s.(chip := Silent(s.chip, Killed),
                  waits := s.waits.(notBop := false, qued := if code == 0 || scriptEnds then 0 else s.waits.qued),
                  hw := s.hw.(exposing := s.hw.exposing && code != 0))
  {
    var h := StopHardware(s, code);
    EmptyMask(h, Cleared(h.chip, if code == 0 then Killed else KilledAndBroken));
    var k := StopHardware(s.(waits := s.waits.(notBop := false, emptyQue := false)), code);
    EmptyMask(k, Cleared(k.chip, Killed));
    var m := Mask(k, Cleared(k.chip, Killed));
    var n := m.(waits := m.waits.(queue := [], qued := if scriptEnds then 0 else m.waits.qued));
    assert n.waits == m.waits.(qued := n.waits.qued);
    EmptyMask(n, n.chip.(fault := Killed));
  }

  /** Whoever waited for the queue to empty is queued again, for when nothing blocks. */
  lemma EmptyQueueIsNoticed(s: State, chip: Chip)
    requires s.waits.queue == [] && s.waits.emptyQue && chip != s.chip
    requires s.waits.qued <= 0 || !(chip.exposing || chip.reading)
    ensures Mask(s, chip)
            == s.(chip := chip, waits := if s.waits.client
                                         then s.waits.(emptyQue := false, qued := s.waits.qued + 1, notBop := true)
                                         else s.waits.(emptyQue := false))
  {
    CheckUnfolds(s.(chip := chip), chip);
    assert StillHeld(s.waits.queue, chip, s.blocks.full.trigger) == [];
  }

  // ----- Values that wait

  /** What a queued value can wait for. */
  datatype Condition = Exposing | Reading | ToExpose | Triggering

  function AwaitedBy(v: Queued): set<Condition> {
    (if v.exposing then {Exposing} else {}) + (if v.reading then {Reading} else {})
    + (if v.willExpose then {ToExpose} else {}) + (if v.trigger then {Triggering} else {})
  }

  function Lasting(chip: Chip, trigger: bool): set<Condition> {
    (if chip.exposing then {Exposing} else {}) + (if chip.reading then {Reading} else {})
    + (if chip.willExpose then {ToExpose} else {}) + (if trigger then {Triggering} else {})
  }

  /** A value is held back while any state it waits for lasts, and applied as soon as none does. */
  lemma HeldWhileAnyLasts(v: Queued, chip: Chip, trigger: bool)
    ensures Held(v, chip, trigger) <==> AwaitedBy(v) * Lasting(chip, trigger) != {}
  {
    forall c: Condition
      ensures c in AwaitedBy(v) * Lasting(chip, trigger) <==>
              match c
              case Exposing => v.exposing && chip.exposing
              case Reading => v.reading && chip.reading
              case ToExpose => v.willExpose && chip.willExpose
              case Triggering => v.trigger && trigger
    {
    }
    assert Held(v, chip, trigger) ==>
      exists c: Condition :: c in AwaitedBy(v) * Lasting(chip, trigger) by {
      if v.exposing && chip.exposing {
        assert Exposing in AwaitedBy(v) * Lasting(chip, trigger);
      } else if v.reading && chip.reading {
        assert Reading in AwaitedBy(v) * Lasting(chip, trigger);
      } else if v.willExpose && chip.willExpose {
        assert ToExpose in AwaitedBy(v) * Lasting(chip, trigger);
      } else if v.trigger && trigger {
        assert Triggering in AwaitedBy(v) * Lasting(chip, trigger);
      }
    }
  }

  lemma {:induction false} HeldAreKept(queue: seq<Queued>, chip: Chip, trigger: bool, v: Queued)
    ensures multiset(StillHeld(queue, chip, trigger))[v] == if Held(v, chip, trigger) then multiset(queue)[v] else 0
  {
    if queue != [] {
      HeldAreKept(queue[1..], chip, trigger, v);
      assert queue == [queue[0]] + queue[1..];
    }
  }

  /** So of equal values a change of state keeps all or applies all, and no other. */
  lemma ReleasedExactly(queue: seq<Queued>, chip: Chip, trigger: bool, v: Queued)
    ensures multiset(StillHeld(queue, chip, trigger))[v]
            == if AwaitedBy(v) * Lasting(chip, trigger) != {} then multiset(queue)[v] else 0
  {
    HeldWhileAnyLasts(v, chip, trigger);
    HeldAreKept(queue, chip, trigger, v);
  }

  // ----- Exposures that wait

  /** The exposures that will be asked of the driver, with the one a client waits for. */
  function Due(s: State): int {
    s.waits.qued + if s.waits.emptyQue && s.waits.client then 1 else 0
  }

  lemma DueMask(s: State, chip: Chip)
    requires s.waits.queue == []
    ensures var r := Mask(s, chip);
            && Due(r) == Due(s) && r == s.(chip := chip, waits := r.waits)
            && r.waits.queue == [] && r.waits.client == s.waits.client
  {
    assert StillHeld(s.waits.queue, chip, s.blocks.full.trigger) == [];
  }

  lemma DueStart(s: State)
    requires s.waits.queue == []
    ensures var r := StartUnchecked(s).0; Due(r) == Due(s) && r.number == s.number + 1
  {
    var n := s.(number := s.number + 1);
    var chip := n.chip.(telMove := n.setting.careBlock, fault := NoFault);
    StartUnfolds(s);
    DueMask(n, chip);
    var h := StartHardware(Mask(n, chip));
    DueMask(h.0, Answered(h.0, h.1));
  }

  lemma DueCamStart(s: State, careBlock: bool)
    requires s.waits.queue == []
    ensures var r := CamStartExposure(s, careBlock).0;
            Due(r) + r.number == Due(s) + s.number + 1
  {
    var n := if Blocked(s, careBlock) then s.(waits := s.waits.(qued := s.waits.qued + 1, notBop := true)) else s;
    DueMask(n, n.chip.(willExpose := true, fault := NoFault));
    if !Blocked(s, careBlock) {
      var waits := s.setting.dark && (s.blocks.full.trigger || s.blocks.master.trigger);
      DueStart(if waits then WillExpose(s) else s);
    }
  }

  predicate Busy(s: State) {
    s.chip.exposing || s.chip.noImage || (s.chip.reading && !s.setting.frameTransfer)
  }

  /**
    An exposure is lost when the optics settle: the camera exits, or values are queued and
    no client can wait once more, or two are taken off the queue where one is started.
  */
  predicate Loses(s: State) {
    || s.setting.exiting
    || (s.waits.queue != [] && (s.waits.emptyQue || !s.waits.client))
    || (s.waits.queue == [] && !Busy(s) && s.waits.qued >= 2)
  }

  predicate Adds(r: State, s: State, n: int) {
    Due(r) + r.number == Due(s) + s.number + n
  }

  /** What is due and what was asked of the driver add up, but for this one exposure, exactly then. */
  lemma SettledOpticsKeepTheCount(s: State)
    requires s.waits.qued > 0
    ensures Adds(CheckQueued(s), s, if Loses(s) then -1 else 0)
  {
    if s.setting.exiting || s.waits.queue != [] || Busy(s) {
      HeldSettling(s);
    } else {
      FreeSettling(s);
    }
  }

  lemma HeldSettling(s: State)
    requires s.waits.qued > 0 && (s.setting.exiting || s.waits.queue != [] || Busy(s))
    ensures Adds(CheckQueued(s), s, if Loses(s) then -1 else 0)
  {
  }

  lemma FreeSettling(s: State)
    requires s.waits.qued > 0 && !s.setting.exiting && s.waits.queue == [] && !Busy(s)
    ensures Adds(CheckQueued(s), s, if s.waits.qued >= 2 then -1 else 0)
  {
    var t := Taken(s.(waits := s.waits.(qued := s.waits.qued - 1)), s.waits.client);
    SettlingStarts(s);
    DueCamStart(t, s.setting.careBlock);
  }

  lemma SettlingStarts(s: State)
    requires s.waits.qued > 0 && !s.setting.exiting && s.waits.queue == [] && !Busy(s)
    ensures var m := s.(waits := s.waits.(qued := s.waits.qued - 1));
            CheckQueued(s) == CamStartExposure(Taken(m, m.waits.client), s.setting.careBlock).0
  {
  }

  /** The first settling already can. */
  lemma SettledOpticsDoLose(frameTransfer: bool)
    ensures var s := Run(Initial(frameTransfer), [QuedWritten(2)]);
            Adds(Run(Initial(frameTransfer), [QuedWritten(2)] + [OpticsSettled]), s, -1)
  {
    var s := Run(Initial(frameTransfer), [QuedWritten(2)]);
    RunOn(Initial(frameTransfer), [QuedWritten(2)], OpticsSettled);
    TwoWait(frameTransfer);
    assert Step(s, OpticsSettled) == CheckQueued(s);
    FreeSettling(s);
  }

  lemma TwoWait(frameTransfer: bool)
    ensures var s := Initial(frameTransfer);
            Run(s, [QuedWritten(2)]) == s.(waits := s.waits.(qued := 2))
  {
    RunOn(Initial(frameTransfer), [], QuedWritten(2));
    assert [] + [QuedWritten(2)] == [QuedWritten(2)];
  }
}
