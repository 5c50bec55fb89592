/**
  The exposure and readout machine of a camera (base/camd/src/camd.cpp), with the queue
  of value changes and the blocking masks of base/kernel/src/device.cpp that re-enter it.
*/
module Camera {
  datatype Fault = NoFault | Killed | Broken | KilledAndBroken

  /** The state word of the chip, with the two blocking bits the camera sets itself. */
  datatype Chip = Chip(exposing: bool, noImage: bool, reading: bool, transfer: bool,
                       telMove: bool, willExpose: bool, image: bool, fault: Fault)

  /** A queued change of a value, and the states that hold it back. */
  datatype Queued = Queued(exposing: bool, reading: bool, willExpose: bool, trigger: bool)

  /** What blocks exposing: a device that moves, a trigger that others wait for. */
  datatype Bop = Bop(exposure: bool, trigger: bool)

  /** The mask last sent to the camera, that with the queue's own blocks, that of the whole system. */
  datatype Blocks = Blocks(sent: Bop, full: Bop, master: Bop)

  /** The exposures in the queue, the two waits, a client to expose for, the queued values. */
  datatype Waits = Waits(qued: int, notBop: bool, emptyQue: bool, client: bool, queue: seq<Queued>)

  /** Frame transfer, optics that move, a dark frame, an exit pending, whether blocks matter. */
  datatype Setting = Setting(frameTransfer: bool, moving: bool, dark: bool, exiting: bool, careBlock: bool)

  /**
    The hardware: exposing from a start that succeeded to its reported end or abort, reading
    from the end of the exposure to the final code of the readout. `clash` records a start
    asked for meanwhile; `answers` is what the next starts will return.
  */
  datatype Hardware = Hardware(exposing: bool, reading: bool, clash: bool, answers: seq<int>)

  datatype State = State(chip: Chip, waits: Waits, blocks: Blocks, setting: Setting, hw: Hardware, number: nat)

  // ----- The queue of value changes and the blocking mask

  predicate Held(v: Queued, chip: Chip, trigger: bool) {
    || (v.exposing && chip.exposing) || (v.reading && chip.reading)
    || (v.willExpose && chip.willExpose) || (v.trigger && trigger)
  }

  function StillHeld(queue: seq<Queued>, chip: Chip, trigger: bool): (r: seq<Queued>)
    ensures |r| <= |queue|
  {
    if queue == [] then []
    else (if Held(queue[0], chip, trigger) then [queue[0]] else []) + StillHeld(queue[1..], chip, trigger)
  }

  predicate HoldsExposure(queue: seq<Queued>) {
    exists i :: 0 <= i < |queue| && queue[i].exposing
  }

  /** The queue adds blocks of its own to the mask sent, but no trigger. */
  predicate Synced(s: State) {
    s.blocks.full.trigger == s.blocks.sent.trigger
  }

  /** maskState: checkQueChanges runs whenever the state word changes. */
  function Mask(s: State, chip: Chip): (r: State)
    ensures |r.waits.queue| <= |s.waits.queue| && r.setting == s.setting && r.number >= s.number
    ensures r.hw.reading == s.hw.reading && (Synced(s) ==> Synced(r))
    decreases |s.waits.queue|, 1
  {
    if chip == s.chip then s else CheckQueue(s.(chip := chip), chip)
  }

  function CheckQueue(s: State, fake: Chip): (r: State)
    ensures |r.waits.queue| <= |s.waits.queue| && r.setting == s.setting && r.number >= s.number
    ensures r.hw.reading == s.hw.reading && (Synced(s) ==> Synced(r))
    decreases |s.waits.queue|, 0
  {
    if s.waits.qued > 0 && (fake.exposing || fake.reading) then s
    else
      var left := StillHeld(s.waits.queue, fake, s.blocks.full.trigger);
      var t := s.(waits := s.waits.(queue := left));
      QueueEmptied(if |left| < |s.waits.queue| then SetFullBop(t, t.blocks.sent) else t)
  }

  function QueueEmptied(s: State): State {
    if s.waits.queue == [] && s.waits.emptyQue then
      if s.waits.client then s.(waits := s.waits.(emptyQue := false, qued := s.waits.qued + 1, notBop := true))
      else s.(waits := s.waits.(emptyQue := false))
    else s
  }

  function SetFullBop(s: State, bop: Bop): (r: State)
    ensures |r.waits.queue| <= |s.waits.queue| && r.setting == s.setting && r.number >= s.number
    ensures r.hw.reading == s.hw.reading && (Synced(s) ==> Synced(r))
    decreases |s.waits.queue|, 3
  {
    var full := bop.(exposure := bop.exposure || HoldsExposure(s.waits.queue));
    var s := s.(blocks := s.blocks.(sent := bop, full := full));
    if bop.exposure || s.waits.qued <= 0 || !s.waits.notBop then s
    else if bop.trigger && !s.chip.willExpose then Mask(s, s.chip.(willExpose := true, fault := NoFault))
    else if s.chip.exposing || (!s.setting.frameTransfer && s.chip.reading) then s
    else StartUnchecked(s.(waits := s.waits.(notBop := false, qued := s.waits.qued - 1))).0
  }

  // ----- Starting an exposure

  /** The startExposure hook of the driver: its next answer, and what the hardware then does. */
  function StartHardware(s: State): (State, int) {
    var hw := s.hw;
    var ret := if hw.answers == [] then -1 else hw.answers[0];
    (s.(hw := Hardware(hw.exposing || ret == 0 || ret == 1, hw.reading,
                       hw.clash || hw.exposing || (hw.reading && !s.setting.frameTransfer),
                       if hw.answers == [] then [] else hw.answers[1..])), ret)
  }

  /** The state word once the driver has answered. */
  function Answered(s: State, ret: int): Chip {
    if ret != 0 && ret != 1 then s.chip.(telMove := false, fault := NoFault)
    else s.chip.(exposing := true, noImage := ret == 1, telMove := s.setting.careBlock,
                 willExpose := false, image := false, fault := NoFault)
  }

  /** camStartExposureWithoutCheck. */
  function StartUnchecked(s: State): (r: (State, int))
    ensures |r.0.waits.queue| <= |s.waits.queue| && r.0.setting == s.setting && r.0.number > s.number
    ensures r.0.hw.reading == s.hw.reading && (Synced(s) ==> Synced(r.0))
    decreases |s.waits.queue|, 2
  {
    var s := s.(number := s.number + 1);
    var s := Mask(s, s.chip.(telMove := s.setting.careBlock, fault := NoFault));
    var (s, ret) := StartHardware(s);
    (Mask(s, Answered(s, ret)), if ret == 1 then 0 else ret)
  }

  function WillExpose(s: State): State {
    Mask(s, s.chip.(willExpose := true, fault := NoFault))
  }

  /** An exposure has to wait for others that move or trigger. */
  predicate Blocked(s: State, careBlock: bool) {
    && careBlock && !s.setting.dark
    && (s.blocks.full.exposure || s.blocks.master.exposure
        || s.blocks.full.trigger || s.blocks.master.trigger || s.setting.moving)
  }

  function CamStartExposure(s: State, careBlock: bool): (State, int) {
    var exposure := s.blocks.full.exposure || s.blocks.master.exposure;
    var trigger := s.blocks.full.trigger || s.blocks.master.trigger;
    if Blocked(s, careBlock) then
      var s := s.(waits := s.waits.(qued := s.waits.qued + 1, notBop := true));
      (if !exposure && trigger then WillExpose(s) else s, 0)
    else StartUnchecked(if s.setting.dark && trigger then WillExpose(s) else s)
  }

  /** The exposure is taken off the queue for `client`. */
  function Taken(s: State, client: bool): State {
    s.(waits := s.waits.(client := client, qued := if s.waits.qued > 0 then s.waits.qued - 1 else s.waits.qued))
  }

  /** camExpose for `client`, with `chip` as the caller sees the state. */
  function CamExpose(s: State, client: bool, chip: Chip, fromQue: bool, careBlock: bool): (r: (State, int))
    ensures r.0.hw.reading == s.hw.reading
  {
    if s.setting.exiting then (s, -1)
    else if chip.exposing || chip.noImage || (chip.reading && !s.setting.frameTransfer)
            || (s.waits.queue != [] && !fromQue) then
      if !fromQue && s.waits.queue == [] then (s.(waits := s.waits.(qued := s.waits.qued + 1)), 0)
      else (s.(waits := s.waits.(emptyQue := true)), -1)
    else CamStartExposure(Taken(s, client), careBlock)
  }

  /** checkQueuedExposures, when the optics have settled. */
  function CheckQueued(s: State): State {
    if s.waits.qued > 0 then
      var s := s.(waits := s.waits.(qued := s.waits.qued - 1));
      CamExpose(s, s.waits.client, s.chip, false, s.setting.careBlock).0
    else s
  }

  // ----- The end of an exposure and of its readout

  /** The stopExposure hook; a driver that fails leaves the hardware and the queue as they are. */
  function StopHardware(s: State, code: int): State {
    if code == 0 then s.(hw := s.hw.(exposing := false), waits := s.waits.(qued := 0)) else s
  }

  function Unexposed(chip: Chip): Chip {
    chip.(exposing := false, noImage := false)
  }

  function Cleared(chip: Chip, fault: Fault): Chip {
    Unexposed(chip).(reading := false, transfer := false, telMove := false, willExpose := false, fault := fault)
  }

  function Transferred(s: State): State {
    var s := CheckQueue(s, Unexposed(s.chip));
    var s := s.(hw := s.hw.(reading := true));
    Mask(s, s.chip.(reading := true, transfer := true, fault := NoFault))
  }

  /** The first part of camReadout: with frame transfer the next exposure starts at once. */
  function ReadoutBegun(s: State): State {
    if s.waits.qued > 0 && s.waits.client && s.setting.frameTransfer then
      var s := Transferred(s);
      if s.waits.queue == [] then CamExpose(s, s.waits.client, Unexposed(s.chip), true, s.setting.careBlock).0 else s
    else
      var s := s.(hw := s.hw.(reading := true));
      Mask(s, Unexposed(s.chip).(reading := true, telMove := false, fault := NoFault))
  }

  /** camReadout; `readable` when the data connection could be opened. */
  function CamReadout(s: State, readable: bool): State {
    var s := ReadoutBegun(s);
    if readable then s
    else
      var s := s.(hw := s.hw.(reading := false));
      Mask(s, s.chip.(reading := false, fault := Broken))
  }

  /** endExposure with the code of isExposing; `code` is what an abort would return. */
  function EndExposure(s: State, ret: int, code: int, readable: bool): State {
    if s.waits.client then CamReadout(s, readable)
    else if (s.chip.exposing || s.chip.noImage) && ret == -5 then s
    else
      var s := if (s.chip.exposing || s.chip.noImage) && ret != -4 then StopHardware(s, code) else s;
      var s := s.(waits := s.waits.(qued := 0));
      Mask(s, Cleared(s.chip, NoFault))
  }

  function Finished(s: State): State {
    Mask(s, Unexposed(s.chip).(transfer := false, telMove := false, fault := NoFault))
  }

  /** The exposure ended, but its readout was not asked for. */
  function UnreadExposure(s: State, code: int, readable: bool): State {
    var s := Finished(EndExposure(s.(waits := s.waits.(client := false)), -4, code, readable));
    if s.waits.qued > 0 then CamExpose(s, s.waits.client, Unexposed(s.chip), true, s.setting.careBlock).0 else s
  }

  function FailedChip(chip: Chip): Chip {
    Unexposed(chip).(reading := false, telMove := false, fault := Broken)
  }

  /** A failed exposure as it is shown, and what that lets happen. */
  function FailureMasked(s: State): State {
    Mask(s, FailedChip(s.chip))
  }

  /** The hardware reports a failed exposure: abort it and try the next one. */
  function ExposureFailed(s: State, code: int): State {
    var s := StopHardware(FailureMasked(s), code);
    if s.waits.qued > 0 then CamExpose(s, s.waits.client, Unexposed(s.chip), true, s.setting.careBlock).0 else s
  }

  /** checkExposures: the answers -1 to -5 of isExposing report the end of the exposure, others nothing. */
  function CheckExposures(s: State, ret: int, code: int, readable: bool): State {
    if (!s.chip.exposing && !s.chip.noImage) || ret >= 0 || ret < -5 then s
    else
      var s := s.(hw := s.hw.(exposing := false));
      match ret
      case -5 => Finished(EndExposure(s, ret, code, readable))
      case -4 => UnreadExposure(s, code, readable)
      case -3 => EndExposure(s.(waits := s.waits.(client := false)), ret, code, readable)
      case -2 =>
        var r := EndExposure(s, ret, code, readable);
        if r.number == s.number then Finished(r) else Mask(r, r.chip.(transfer := false, fault := NoFault))
      case -1 => ExposureFailed(s, code)
      case _ => s
  }

  /** checkReadouts: any negative answer of doReadout is final. */
  function CheckReadouts(s: State, ret: int): State {
    if !s.chip.reading || ret >= 0 then s
    else
      var s := s.(hw := s.hw.(reading := false));
      var s :=
        if s.waits.qued > 0 && s.waits.client then
          var seen := s.chip.(reading := false, transfer := false, image := false);
          CamExpose(s, true, seen, true, s.setting.careBlock).0
        else s;
      if ret == -2 then Mask(s, s.chip.(reading := false, image := true, fault := NoFault))
      else Mask(s, s.chip.(reading := false, fault := Broken))
  }

  /** The stopexpo command. */
  function StopExpo(s: State, code: int): State {
    var s := StopHardware(s, code);
    Mask(s, Cleared(s.chip, if code == 0 then Killed else KilledAndBroken))
  }

  function KillAll(s: State, code: int, scriptEnds: bool): State {
    var s := s.(waits := s.waits.(notBop := false, emptyQue := false));
    var s := StopHardware(s, code);
    var s := Mask(s, Cleared(s.chip, Killed));
    var s := s.(waits := s.waits.(queue := [], qued := if scriptEnds then 0 else s.waits.qued));
    Mask(s, s.chip.(fault := Killed))
  }

  // ----- What every step keeps

  /**
    The state word knows of all the hardware does, and no start was asked for meanwhile;
    without frame transfer a chip that is read is not exposing.
  */
  predicate Tracked(s: State) {
    && !s.hw.clash
    && (s.hw.exposing ==> s.chip.exposing)
    && (s.hw.reading && !s.setting.frameTransfer ==> s.chip.reading && !s.chip.exposing)
    && (s.chip.noImage ==> s.chip.exposing)
  }

  /** Telescope moves are held back only for an exposure, and with `tracked` the above. */
  predicate Good(s: State, tracked: bool) {
    && (s.chip.telMove ==> s.chip.exposing) && Synced(s)
    && (tracked ==> Tracked(s))
  }

  /** Nothing in the queue can start an exposure now. */
  predicate Settled(s: State) {
    s.waits.queue == [] || s.chip.exposing || s.chip.reading || !s.waits.notBop
  }

  /** The hardware can take a start. */
  predicate Free(s: State) {
    && !s.hw.clash && !s.hw.exposing && (s.hw.reading ==> s.setting.frameTransfer)
    && (s.chip.noImage ==> s.chip.exposing)
  }

  /** Whatever exposes now and did not before has a new number. */
  predicate Numbered(r: State, s: State) {
    r.number == s.number && !s.hw.exposing ==> !r.hw.exposing
  }

  lemma QuietMask(s: State, chip: Chip)
    requires Settled(s.(chip := chip))
    ensures var r := Mask(s, chip);
            && r == s.(chip := chip, waits := r.waits, blocks := r.blocks)
            && Settled(r) && r.waits.client == s.waits.client
            && (s.waits.queue == [] ==> r.waits.queue == [])
  {
    if chip != s.chip {
      QuietCheck(s.(chip := chip));
    }
  }

  lemma QuietCheck(s: State)
    requires Settled(s)
    ensures var r := CheckQueue(s, s.chip);
            && r == s.(waits := r.waits, blocks := r.blocks)
            && Settled(r) && r.waits.client == s.waits.client
            && (s.waits.queue == [] ==> r.waits.queue == [])
  {
    if s.waits.qued <= 0 || !(s.chip.exposing || s.chip.reading) {
      var left := StillHeld(s.waits.queue, s.chip, s.blocks.full.trigger);
      var r := s.(waits := s.waits.(queue := left));
      if |left| < |s.waits.queue| {
        assert SetFullBop(r, r.blocks.sent) == WithBop(r, r.blocks.sent);
      }
    }
  }

  predicate AllHeld(queue: seq<Queued>, chip: Chip, trigger: bool) {
    forall i :: 0 <= i < |queue| ==> Held(queue[i], chip, trigger)
  }

  /** Every queued value is held back by the state as it is. */
  predicate Drained(s: State) {
    AllHeld(s.waits.queue, s.chip, s.blocks.full.trigger)
  }

  predicate Still(s: State) {
    Settled(s) || Drained(s)
  }

  lemma {:induction false} HeldStay(queue: seq<Queued>, chip: Chip, trigger: bool)
    requires AllHeld(queue, chip, trigger)
    ensures StillHeld(queue, chip, trigger) == queue
  {
    if queue != [] {
      assert forall i :: 0 <= i < |queue| - 1 ==> queue[1..][i] == queue[i + 1];
      HeldStay(queue[1..], chip, trigger);
    }
  }

  lemma {:induction false} StayHeld(queue: seq<Queued>, chip: Chip, trigger: bool)
    ensures AllHeld(StillHeld(queue, chip, trigger), chip, trigger)
  {
    if queue != [] {
      StayHeld(queue[1..], chip, trigger);
    }
  }

  /** While nothing in the queue can start an exposure, a new state word changes no more than itself. */
  lemma StillMask(s: State, chip: Chip)
    requires Still(s.(chip := chip))
    ensures var r := Mask(s, chip);
            && r == s.(chip := chip, waits := r.waits, blocks := r.blocks)
            && Still(r) && r.waits.client == s.waits.client
  {
    if Settled(s.(chip := chip)) {
      QuietMask(s, chip);
    } else {
      HeldStay(s.waits.queue, chip, s.blocks.full.trigger);
    }
  }

  /** A change of the state word leaves nothing in the queue that could start an exposure. */
  lemma {:induction false} MaskStills(s: State, chip: Chip)
    requires Synced(s) && (chip != s.chip || Still(s))
    ensures Still(Mask(s, chip))
    decreases |s.waits.queue|, 1
  {
    if chip != s.chip {
      CheckStills(s.(chip := chip));
    }
  }

  lemma {:induction false} CheckStills(s: State)
    requires Synced(s)
    ensures Still(CheckQueue(s, s.chip))
    decreases |s.waits.queue|, 0
  {
    if s.waits.qued <= 0 || !(s.chip.exposing || s.chip.reading) {
      var left := StillHeld(s.waits.queue, s.chip, s.blocks.full.trigger);
      StayHeld(s.waits.queue, s.chip, s.blocks.full.trigger);
      if |left| < |s.waits.queue| {
        BopStills(s.(waits := s.waits.(queue := left)));
      } else {
        SameLength(s.waits.queue, s.chip, s.blocks.full.trigger);
      }
    }
  }

  lemma {:induction false} SameLength(queue: seq<Queued>, chip: Chip, trigger: bool)
    requires |StillHeld(queue, chip, trigger)| == |queue|
    ensures StillHeld(queue, chip, trigger) == queue
  {
    if queue != [] {
      SameLength(queue[1..], chip, trigger);
      assert queue == [queue[0]] + queue[1..];
    }
  }

  lemma {:induction false} BopStills(s: State)
    requires Synced(s) && Drained(s)
    ensures Still(SetFullBop(s, s.blocks.sent))
    decreases |s.waits.queue|, 3
  {
    var m := WithBop(s, s.blocks.sent);
    if !s.blocks.sent.exposure && s.waits.qued > 0 && s.waits.notBop {
      if s.blocks.sent.trigger && !s.chip.willExpose {
        MaskStills(m, m.chip.(willExpose := true, fault := NoFault));
      } else if !s.chip.exposing && (s.setting.frameTransfer || !s.chip.reading) {
        StartStills(m.(waits := m.waits.(notBop := false, qued := m.waits.qued - 1)));
      }
    }
  }

  lemma {:induction false} StartStills(s: State)
    requires Synced(s) && !s.waits.notBop
    ensures Still(StartUnchecked(s).0)
    decreases |s.waits.queue|, 2
  {
    var n := s.(number := s.number + 1);
    var chip := n.chip.(telMove := n.setting.careBlock, fault := NoFault);
    MaskStills(n, chip);
    var (h, ret) := StartHardware(Mask(n, chip));
    MaskStills(h, Answered(h, ret));
  }

  /** The state shows no exposure that the hardware does not make. */
  predicate Honest(s: State) {
    s.chip.exposing ==> s.hw.exposing
  }

  /** Whatever a change of the state word sets off begins no readout and shows no exposure in vain. */
  lemma {:induction false} MaskHonest(s: State, chip: Chip)
    requires Honest(s.(chip := chip))
    ensures var r := Mask(s, chip); Honest(r) && r.chip.reading == chip.reading
    decreases |s.waits.queue|, 1
  {
    if chip != s.chip {
      CheckHonest(s.(chip := chip), chip);
    }
  }

  lemma {:induction false} CheckHonest(s: State, fake: Chip)
    requires Honest(s)
    ensures var r := CheckQueue(s, fake); Honest(r) && r.chip.reading == s.chip.reading
    decreases |s.waits.queue|, 0
  {
    var left := StillHeld(s.waits.queue, fake, s.blocks.full.trigger);
    if |left| < |s.waits.queue| {
      var t := s.(waits := s.waits.(queue := left));
      BopHonest(t, t.blocks.sent);
    }
  }

  lemma {:induction false} BopHonest(s: State, bop: Bop)
    requires Honest(s)
    ensures var r := SetFullBop(s, bop); Honest(r) && r.chip.reading == s.chip.reading
    decreases |s.waits.queue|, 3
  {
    var m := WithBop(s, bop);
    if !bop.exposure && s.waits.qued > 0 && s.waits.notBop {
      if bop.trigger && !s.chip.willExpose {
        MaskHonest(m, m.chip.(willExpose := true, fault := NoFault));
      } else if !s.chip.exposing && (s.setting.frameTransfer || !s.chip.reading) {
        StartHonest(m.(waits := m.waits.(notBop := false, qued := m.waits.qued - 1)));
      }
    }
  }

  lemma {:induction false} StartHonest(s: State)
    requires Honest(s)
    ensures var r := StartUnchecked(s).0; Honest(r) && r.chip.reading == s.chip.reading
    decreases |s.waits.queue|, 2
  {
    var n := s.(number := s.number + 1);
    var chip := n.chip.(telMove := n.setting.careBlock, fault := NoFault);
    MaskHonest(n, chip);
    var (h, ret) := StartHardware(Mask(n, chip));
    MaskHonest(h, Answered(h, ret));
  }

  lemma {:induction false} MaskKeeps(s: State, chip: Chip, tracked: bool)
    requires Good(s.(chip := chip), tracked)
    ensures Good(Mask(s, chip), tracked) && Numbered(Mask(s, chip), s)
    decreases |s.waits.queue|, 1
  {
    if chip != s.chip {
      CheckQueueKeeps(s.(chip := chip), chip, tracked);
    }
  }

  lemma {:induction false} CheckQueueKeeps(s: State, fake: Chip, tracked: bool)
    requires Good(s, tracked)
    ensures Good(CheckQueue(s, fake), tracked) && Numbered(CheckQueue(s, fake), s)
    decreases |s.waits.queue|, 0
  {
    var left := StillHeld(s.waits.queue, fake, s.blocks.full.trigger);
    var t := s.(waits := s.waits.(queue := left));
    if |left| < |s.waits.queue| {
      SetFullBopKeeps(t, t.blocks.sent, tracked);
    }
  }

  function WithBop(s: State, bop: Bop): State {
    s.(blocks := s.blocks.(sent := bop, full := bop.(exposure := bop.exposure || HoldsExposure(s.waits.queue))))
  }

  lemma {:induction false} SetFullBopKeeps(s: State, bop: Bop, tracked: bool)
    requires Good(s, tracked)
    ensures Good(SetFullBop(s, bop), tracked) && Numbered(SetFullBop(s, bop), s)
    decreases |s.waits.queue|, 3
  {
    var m := WithBop(s, bop);
    if !bop.exposure && s.waits.qued > 0 && s.waits.notBop {
      if bop.trigger && !s.chip.willExpose {
        MaskKeeps(m, m.chip.(willExpose := true, fault := NoFault), tracked);
      } else if !s.chip.exposing && (s.setting.frameTransfer || !s.chip.reading) {
        StartKeeps(m.(waits := m.waits.(notBop := false, qued := m.waits.qued - 1)), tracked);
      }
    }
  }

  lemma StartHardwareKeeps(s: State, tracked: bool)
    requires Synced(s) && (tracked ==> Free(s))
    ensures var (h, ret) := StartHardware(s);
            && Good(h.(chip := Answered(h, ret)), tracked)
            && h == s.(hw := h.hw)
  {
  }

  lemma {:induction false} StartKeeps(s: State, tracked: bool)
    requires Synced(s) && (tracked ==> Still(s) && Free(s))
    ensures Good(StartUnchecked(s).0, tracked)
    decreases |s.waits.queue|, 2
  {
    var n := s.(number := s.number + 1);
    var chip := n.chip.(telMove := n.setting.careBlock, fault := NoFault);
    if tracked {
      StillMask(n, chip);
    }
    var m := Mask(n, chip);
    StartHardwareKeeps(m, tracked);
    var (h, ret) := StartHardware(m);
    MaskKeeps(h, Answered(h, ret), tracked);
  }

  lemma WillExposeKeeps(s: State, tracked: bool)
    requires Good(s, tracked)
    ensures Good(WillExpose(s), tracked) && Numbered(WillExpose(s), s)
    ensures Still(s) && Free(s) ==> Still(WillExpose(s)) && Free(WillExpose(s))
  {
    var will := s.chip.(willExpose := true, fault := NoFault);
    MaskKeeps(s, will, tracked);
    if Still(s) {
      StillMask(s, will);
    }
  }

  lemma CamStartKeeps(s: State, careBlock: bool, tracked: bool)
    requires Good(s, tracked)
    requires tracked ==> Free(s) && Still(s)
    ensures var r := CamStartExposure(s, careBlock).0;
            Good(r, tracked) && Numbered(r, s) && r.number >= s.number && r.setting == s.setting
  {
    var trigger := s.blocks.full.trigger || s.blocks.master.trigger;
    if Blocked(s, careBlock) {
      WillExposeKeeps(s.(waits := s.waits.(qued := s.waits.qued + 1, notBop := true)), tracked);
    } else if s.setting.dark && trigger {
      WillExposeKeeps(s, tracked);
      StartKeeps(WillExpose(s), tracked);
    } else {
      StartKeeps(s, tracked);
    }
  }

  lemma CamExposeKeeps(s: State, client: bool, chip: Chip, fromQue: bool, careBlock: bool, tracked: bool)
    requires Good(s, tracked)
    requires tracked ==>
               && (s.hw.exposing ==> chip.exposing)
               && (s.hw.reading && !s.setting.frameTransfer ==> chip.reading)
               && (fromQue ==> Still(s))
    ensures var r := CamExpose(s, client, chip, fromQue, careBlock).0;
            Good(r, tracked) && Numbered(r, s) && r.number >= s.number && r.setting == s.setting
  {
    var w := s.waits;
    var busy := chip.exposing || chip.noImage || (chip.reading && !s.setting.frameTransfer)
                || (w.queue != [] && !fromQue);
    if !s.setting.exiting && !busy {
      CamStartKeeps(Taken(s, client), careBlock, tracked);
    }
  }

  // ----- While the state says exposing, nothing starts one

  lemma {:induction false} ExposingMask(s: State, chip: Chip)
    requires chip.exposing
    ensures var r := Mask(s, chip);
            && r.hw == s.hw && r.number == s.number
            && r.chip == chip.(willExpose := r.chip.willExpose, fault := r.chip.fault)
    decreases |s.waits.queue|, 1
  {
    if chip != s.chip {
      ExposingCheck(s.(chip := chip), chip);
    }
  }

  lemma {:induction false} ExposingCheck(s: State, fake: Chip)
    requires s.chip.exposing
    ensures var r := CheckQueue(s, fake);
            && r.hw == s.hw && r.number == s.number
            && r.chip == s.chip.(willExpose := r.chip.willExpose, fault := r.chip.fault)
    decreases |s.waits.queue|, 0
  {
    var left := StillHeld(s.waits.queue, fake, s.blocks.full.trigger);
    CheckUnfolds(s, fake);
    if |left| < |s.waits.queue| {
      var t := s.(waits := s.waits.(queue := left));
      ExposingBop(t, t.blocks.sent);
    }
  }

  lemma CheckUnfolds(s: State, fake: Chip)
    ensures var left := StillHeld(s.waits.queue, fake, s.blocks.full.trigger);
            var t := s.(waits := s.waits.(queue := left));
            CheckQueue(s, fake) ==
            if s.waits.qued > 0 && (fake.exposing || fake.reading) then s
            else QueueEmptied(if |left| < |s.waits.queue| then SetFullBop(t, t.blocks.sent) else t)
  {
  }

  lemma {:induction false} ExposingBop(s: State, bop: Bop)
    requires s.chip.exposing
    ensures var r := SetFullBop(s, bop);
            && r.hw == s.hw && r.number == s.number
            && r.chip == s.chip.(willExpose := r.chip.willExpose, fault := r.chip.fault)
    decreases |s.waits.queue|, 2
  {
    if !bop.exposure && s.waits.qued > 0 && s.waits.notBop && bop.trigger && !s.chip.willExpose {
      ExposingMask(WithBop(s, bop), s.chip.(willExpose := true, fault := NoFault));
    }
  }

  /** Nor does anything when no exposure and no client waits. */
  lemma IdleMask(s: State, chip: Chip)
    requires s.waits.qued <= 0 && !s.waits.client
    ensures var r := Mask(s, chip);
            && r.hw == s.hw && r.number == s.number && r.chip == chip
            && r.waits.qued == s.waits.qued && !r.waits.client
  {
    var left := StillHeld(s.waits.queue, chip, s.blocks.full.trigger);
    var r := s.(chip := chip, waits := s.waits.(queue := left));
    assert SetFullBop(r, r.blocks.sent) == WithBop(r, r.blocks.sent);
  }

  lemma CamReadoutKeeps(s: State, readable: bool, tracked: bool)
    requires Good(s, tracked) && !s.hw.exposing
    requires tracked && !s.setting.frameTransfer ==> !s.hw.reading
    requires s.chip.exposing || s.chip.noImage
    ensures var r := CamReadout(s, readable);
            Good(r, tracked) && Numbered(r, s) && r.number >= s.number && r.setting == s.setting
  {
    ReadoutBegunKeeps(s, tracked);
    var m := ReadoutBegun(s);
    if !readable {
      var h := m.(hw := m.hw.(reading := false));
      MaskKeeps(h, h.chip.(reading := false, fault := Broken), tracked);
    }
  }

  lemma ReadoutBegunKeeps(s: State, tracked: bool)
    requires Good(s, tracked) && !s.hw.exposing
    requires tracked && !s.setting.frameTransfer ==> !s.hw.reading
    requires s.chip.exposing || s.chip.noImage
    ensures var r := ReadoutBegun(s);
            Good(r, tracked) && Numbered(r, s) && r.number >= s.number && r.setting == s.setting
  {
    if s.waits.qued > 0 && s.waits.client && s.setting.frameTransfer {
      TransferKeeps(s, tracked);
      var m := Transferred(s);
      if m.waits.queue == [] {
        CamExposeKeeps(m, m.waits.client, Unexposed(m.chip), true, m.setting.careBlock, tracked);
      }
    } else {
      var h := s.(hw := s.hw.(reading := true));
      MaskKeeps(h, Unexposed(h.chip).(reading := true, telMove := false, fault := NoFault), tracked);
    }
  }

  lemma TransferKeeps(s: State, tracked: bool)
    requires Good(s, tracked) && !s.hw.exposing && s.setting.frameTransfer
    requires s.chip.exposing || s.chip.noImage
    ensures var r := Transferred(s);
            && Good(r, tracked) && Numbered(r, s) && r.number >= s.number && r.setting == s.setting
            && (tracked ==> !r.hw.exposing)
  {
    var seen := Unexposed(s.chip);
    CheckQueueKeeps(s, seen, tracked);
    var q := CheckQueue(s, seen);
    var h := q.(hw := q.hw.(reading := true));
    var chip := h.chip.(reading := true, transfer := true, fault := NoFault);
    MaskKeeps(h, chip, tracked);
    if s.chip.exposing {
      ExposingCheck(s, seen);
      ExposingMask(h, chip);
    }
  }

  lemma EndExposureKeeps(s: State, ret: int, code: int, readable: bool, tracked: bool)
    requires Good(s, tracked) && !s.hw.exposing
    requires tracked && !s.setting.frameTransfer ==> !s.hw.reading
    requires s.chip.exposing || s.chip.noImage
    ensures var r := EndExposure(s, ret, code, readable);
            Good(r, tracked) && Numbered(r, s) && r.number >= s.number && r.setting == s.setting
  {
    if s.waits.client {
      CamReadoutKeeps(s, readable, tracked);
    } else {
      var h := if (s.chip.exposing || s.chip.noImage) && ret != -4 then StopHardware(s, code) else s;
      var m := h.(waits := h.waits.(qued := 0));
      MaskKeeps(m, Cleared(m.chip, NoFault), tracked);
    }
  }

  /** The case of an exposure whose client is gone. */
  lemma AbandonedKeeps(s: State, ret: int, code: int, readable: bool, tracked: bool)
    requires Good(s, tracked) && !s.hw.exposing && !s.waits.client && ret != -5
    requires tracked && !s.setting.frameTransfer ==> !s.hw.reading
    requires s.chip.exposing || s.chip.noImage
    ensures var e := EndExposure(s, ret, code, readable);
            e.waits.qued == 0 && Good(Finished(e), tracked) && Finished(e).waits.qued == 0
  {
    EndExposureKeeps(s, ret, code, readable, tracked);
    var h := if (s.chip.exposing || s.chip.noImage) && ret != -4 then StopHardware(s, code) else s;
    var m := h.(waits := h.waits.(qued := 0));
    IdleMask(m, Cleared(m.chip, NoFault));
    var e := EndExposure(s, ret, code, readable);
    var chip := Unexposed(e.chip).(transfer := false, telMove := false, fault := NoFault);
    IdleMask(e, chip);
    MaskKeeps(e, chip, tracked);
  }

  /** The queue as the end of an exposure releases it, and the mask that follows. */
  function Released(s: State): State {
    if s.chip.reading then s
    else
      var left := StillHeld(s.waits.queue, Unexposed(s.chip), s.blocks.full.trigger);
      var t := s.(waits := s.waits.(queue := left));
      if |left| < |s.waits.queue| then WithBop(t, t.blocks.sent) else t
  }

  predicate Refused(answers: seq<int>) {
    answers == [] || (answers[0] != 0 && answers[0] != 1)
  }

  /** The end of an exposure with frame transfer finds the next one waiting, with nothing that holds it back. */
  predicate NextTried(s: State) {
    var r := Released(s);
    && s.setting.frameTransfer && s.chip.exposing && s.waits.qued > 0 && s.waits.client
    && r.waits.queue == [] && !s.setting.exiting && !Blocked(r, s.setting.careBlock)
  }

  lemma BusyMask(s: State, chip: Chip)
    requires chip.exposing && s.waits.qued > 0
    ensures Mask(s, chip) == s.(chip := chip)
  {
  }

  lemma CheckReleases(s: State)
    requires s.chip.exposing && s.waits.qued > 0
    ensures var q, r := CheckQueue(s, Unexposed(s.chip)), Released(s);
            && q == s.(waits := q.waits, blocks := r.blocks, chip := q.chip)
            && q.waits.queue == r.waits.queue && q.waits.client == s.waits.client && q.waits.qued > 0 && q.chip.exposing
  {
    CheckUnfolds(s, Unexposed(s.chip));
    var left := StillHeld(s.waits.queue, Unexposed(s.chip), s.blocks.full.trigger);
    var t := s.(waits := s.waits.(queue := left));
    if !s.chip.reading && |left| < |s.waits.queue| {
      var m := WithBop(t, t.blocks.sent);
      BusyMask(m, m.chip.(willExpose := true, fault := NoFault));
    }
  }

  /** What the queue does before the next exposure is tried. */
  lemma TransferReleases(s: State)
    requires s.chip.exposing && s.waits.qued > 0
    ensures var m, r := Transferred(s), Released(s);
            && m == s.(waits := m.waits, blocks := r.blocks, chip := m.chip, hw := s.hw.(reading := true))
            && m.waits.queue == r.waits.queue && m.waits.client == s.waits.client && m.chip.exposing
  {
    var q := CheckQueue(s, Unexposed(s.chip));
    CheckReleases(s);
    var g := q.(hw := q.hw.(reading := true));
    BusyMask(g, g.chip.(reading := true, transfer := true, fault := NoFault));
  }

  /** The next exposure tried while the state still shows the one before. */
  lemma NextIsTried(s: State)
    requires s.chip.exposing && !s.hw.exposing && s.setting.frameTransfer && s.waits.queue == [] && !s.setting.exiting
    ensures var r := CamExpose(s, s.waits.client, Unexposed(s.chip), true, s.setting.careBlock).0;
            var tried := !Blocked(s, s.setting.careBlock);
            && r.chip.exposing && r.number == s.number + (if tried then 1 else 0)
            && (r.hw.exposing <==> tried && !Refused(s.hw.answers))
  {
    var m := Taken(s, s.waits.client);
    if Blocked(m, m.setting.careBlock) {
      var n := m.(waits := m.waits.(qued := m.waits.qued + 1, notBop := true));
      ExposingMask(n, n.chip.(willExpose := true, fault := NoFault));
    } else {
      ExposingMask(m, m.chip.(willExpose := true, fault := NoFault));
      var waits := m.setting.dark && (m.blocks.full.trigger || m.blocks.master.trigger);
      ExposingStart(if waits then WillExpose(m) else m);
    }
  }

  lemma ExposingStart(s: State)
    requires s.chip.exposing
    ensures var r := StartUnchecked(s).0;
            r.chip.exposing && r.number == s.number + 1 && r.hw.exposing == (s.hw.exposing || !Refused(s.hw.answers))
  {
    var n := s.(number := s.number + 1);
    var chip := n.chip.(telMove := n.setting.careBlock, fault := NoFault);
    StartUnfolds(s);
    ExposingMask(n, chip);
    var (h, ret) := StartHardware(Mask(n, chip));
    ExposingMask(h, Answered(h, ret));
  }

  /** With frame transfer: the end of an exposure with the next one waiting. */
  lemma TransferBegins(s: State)
    requires s.setting.frameTransfer && s.chip.exposing && s.waits.qued > 0 && s.waits.client && !s.hw.exposing
    ensures var b := ReadoutBegun(s);
            && b.chip.exposing
            && (b.number != s.number <==> NextTried(s))
            && (b.hw.exposing <==> NextTried(s) && !Refused(s.hw.answers))
  {
    TransferReleases(s);
    var m := Transferred(s);
    if m.waits.queue == [] && !m.setting.exiting {
      NextIsTried(m);
    }
  }

  /** Whether the image can be sent or not, the next exposure is shown as it is. */
  lemma UnreadableShows(s: State, readable: bool)
    requires s.chip.exposing
    ensures var h := s.(hw := s.hw.(reading := false));
            var r := if readable then s else Mask(h, h.chip.(reading := false, fault := Broken));
            r.chip.exposing && r.hw.exposing == s.hw.exposing && r.number == s.number
  {
    var h := s.(hw := s.hw.(reading := false));
    ExposingMask(h, h.chip.(reading := false, fault := Broken));
  }

  // ----- What a failed exposure lets start

  /** The queue as a failed exposure leaves it, and the mask that follows. */
  function LeftBehind(s: State): State {
    var chip := FailedChip(s.chip);
    var t := s.(chip := chip, waits := s.waits.(queue := StillHeld(s.waits.queue, chip, s.blocks.full.trigger)));
    WithBop(t, t.blocks.sent)
  }

  /**
    A failed exposure makes the queue start the next one: some value is free, an exposure
    waits for a block that is gone, and the driver accepts it.
  */
  predicate Restarts(s: State) {
    && !AllHeld(s.waits.queue, FailedChip(s.chip), s.blocks.full.trigger)
    && !s.blocks.sent.exposure && (s.blocks.sent.trigger ==> s.chip.willExpose)
    && s.waits.qued > 0 && s.waits.notBop && !Refused(s.hw.answers)
  }

  /** One more exposure waits behind that: in the queue, or for the values the start lets go. */
  predicate MoreWait(s: State) {
    var l := LeftBehind(s);
    var shown := l.chip.(exposing := true, willExpose := false);
    || s.waits.qued >= 2
    || (s.waits.client && s.waits.emptyQue && StillHeld(l.waits.queue, shown, s.blocks.full.trigger) == [])
  }

  /** A change of the state word that releases nothing only ends the wait for an empty queue. */
  lemma HeldMask(s: State, chip: Chip)
    requires chip != s.chip && !chip.exposing && !chip.reading
    requires AllHeld(s.waits.queue, chip, s.blocks.full.trigger)
    ensures Mask(s, chip) == QueueEmptied(s.(chip := chip))
  {
    HeldStay(s.waits.queue, chip, s.blocks.full.trigger);
    CheckUnfolds(s.(chip := chip), chip);
  }

  lemma {:induction false} ExposingStaysHeld(queue: seq<Queued>, chip: Chip, trigger: bool)
    requires chip.exposing
    ensures HoldsExposure(StillHeld(queue, chip, trigger)) <==> HoldsExposure(queue)
  {
    if queue != [] {
      ExposingStaysHeld(queue[1..], chip, trigger);
      HoldsExposureOn(queue);
      var kept := if Held(queue[0], chip, trigger) then [queue[0]] else [];
      var rest := StillHeld(queue[1..], chip, trigger);
      if kept != [] {
        assert (kept + rest)[1..] == rest;
        HoldsExposureOn(kept + rest);
      } else {
        assert kept + rest == rest;
      }
    }
  }

  lemma HoldsExposureOn(queue: seq<Queued>)
    requires queue != []
    ensures HoldsExposure(queue) <==> queue[0].exposing || HoldsExposure(queue[1..])
  {
    if HoldsExposure(queue) && !queue[0].exposing {
      var i :| 0 <= i < |queue| && queue[i].exposing;
      assert queue[1..][i - 1].exposing;
    }
    if HoldsExposure(queue[1..]) {
      var i :| 0 <= i < |queue| - 1 && queue[1..][i].exposing;
      assert queue[i + 1].exposing;
    }
  }

  /** The mask of the camera follows its queue, and no block was sent. */
  predicate Unblocked(s: State) {
    s.blocks.full == s.blocks.sent.(exposure := HoldsExposure(s.waits.queue)) && !s.blocks.sent.exposure
  }

  /** The wait for an empty queue has ended if the queue is empty. */
  predicate Noticed(s: State) {
    s.waits.queue == [] ==> !s.waits.emptyQue
  }

  /** What the queue does once the next exposure is shown. */
  lemma ShownMask(s: State, chip: Chip)
    requires chip != s.chip && chip.exposing && Unblocked(s) && Noticed(s)
    ensures var r := Mask(s, chip);
            && r == s.(chip := chip, waits := r.waits, blocks := s.blocks) && Noticed(r)
            && (r.waits.qued > 0 <==>
                || s.waits.qued > 0
                || (s.waits.qued == 0 && s.waits.client && s.waits.emptyQue
                    && StillHeld(s.waits.queue, chip, s.blocks.full.trigger) == []))
  {
    var t := s.(chip := chip);
    CheckUnfolds(t, chip);
    var left := StillHeld(s.waits.queue, chip, s.blocks.full.trigger);
    var l := t.(waits := t.waits.(queue := left));
    ExposingStaysHeld(s.waits.queue, chip, s.blocks.full.trigger);
    if s.waits.qued <= 0 {
      assert WithBop(l, l.blocks.sent).blocks == s.blocks;
      assert SetFullBop(l, l.blocks.sent) == WithBop(l, l.blocks.sent);
    }
  }

  /** Only three of the bits hold a value back. */
  lemma {:induction false} SameHeld(queue: seq<Queued>, chip: Chip, other: Chip, trigger: bool)
    requires chip.exposing == other.exposing && chip.reading == other.reading && chip.willExpose == other.willExpose
    ensures StillHeld(queue, chip, trigger) == StillHeld(queue, other, trigger)
  {
    if queue != [] {
      SameHeld(queue[1..], chip, other, trigger);
    }
  }

  /** A chip that failed, with nothing in the queue that is free to be applied. */
  predicate Parked(s: State) {
    && !s.chip.exposing && !s.chip.reading && s.chip.fault == Broken && Drained(s)
  }

  /** The driver is asked, with the queue as it is. */
  function Asked(s: State): State {
    QueueEmptied(s.(number := s.number + 1, chip := s.chip.(telMove := s.setting.careBlock, fault := NoFault)))
  }

  lemma ParkedStart(s: State)
    requires Parked(s)
    ensures var (h, ret) := StartHardware(Asked(s)); StartUnchecked(s).0 == Mask(h, Answered(h, ret))
  {
    var n := s.(number := s.number + 1);
    StartUnfolds(s);
    HeldMask(n, n.chip.(telMove := n.setting.careBlock, fault := NoFault));
  }

  lemma AcceptedStart(s: State)
    requires Parked(s) && Unblocked(s) && s.waits.qued >= 0 && !Refused(s.hw.answers)
    ensures var r := StartUnchecked(s).0;
            var shown := s.chip.(exposing := true, willExpose := false);
            && r.chip.exposing && r.hw.exposing && r.setting == s.setting && r.blocks == s.blocks && Noticed(r)
            && (r.waits.qued > 0 <==>
                || s.waits.qued > 0
                || (s.waits.client && s.waits.emptyQue
                    && StillHeld(s.waits.queue, shown, s.blocks.full.trigger) == []))
  {
    ParkedStart(s);
    AcceptedAnswer(Asked(s));
    var (h, ret) := StartHardware(Asked(s));
    SameHeld(s.waits.queue, Answered(h, ret), s.chip.(exposing := true, willExpose := false), s.blocks.full.trigger);
  }

  lemma AcceptedAnswer(s: State)
    requires !s.chip.exposing && Unblocked(s) && Noticed(s) && s.waits.qued >= 0 && !Refused(s.hw.answers)
    ensures var (h, ret) := StartHardware(s);
            var r := Mask(h, Answered(h, ret));
            && r.chip.exposing && r.hw.exposing && r.setting == s.setting && r.blocks == s.blocks && Noticed(r)
            && (r.waits.qued > 0 <==>
                || s.waits.qued > 0
                || (s.waits.client && s.waits.emptyQue
                    && StillHeld(s.waits.queue, Answered(h, ret), s.blocks.full.trigger) == []))
  {
    var (h, ret) := StartHardware(s);
    ShownMask(h, Answered(h, ret));
  }

  lemma RefusedStart(s: State)
    requires Parked(s) && Refused(s.hw.answers)
    ensures var r := StartUnchecked(s).0; !r.chip.exposing && r.hw.exposing == s.hw.exposing
  {
    ParkedStart(s);
    RefusedAnswer(Asked(s));
  }

  lemma RefusedAnswer(s: State)
    requires !s.chip.exposing && Drained(s) && Refused(s.hw.answers)
    ensures var (h, ret) := StartHardware(s);
            var r := Mask(h, Answered(h, ret));
            !r.chip.exposing && r.hw.exposing == s.hw.exposing
  {
    var (h, ret) := StartHardware(s);
    StillMask(h, Answered(h, ret));
  }

  lemma BopUnfolds(s: State)
    requires !s.chip.exposing && !s.chip.reading
    ensures var m := WithBop(s, s.blocks.sent);
            SetFullBop(s, s.blocks.sent) ==
            if s.blocks.sent.exposure || s.waits.qued <= 0 || !s.waits.notBop then m
            else if s.blocks.sent.trigger && !s.chip.willExpose then
              Mask(m, m.chip.(willExpose := true, fault := NoFault))
            else StartUnchecked(m.(waits := m.waits.(notBop := false, qued := m.waits.qued - 1))).0
  {
  }

  /** Nothing waits for the blocking mask. */
  predicate NoneWaits(s: State) {
    s.blocks.sent.exposure || s.waits.qued <= 0 || !s.waits.notBop || (s.blocks.sent.trigger && !s.chip.willExpose)
  }

  /** Then the mask after a failed exposure changes no more than state bits. */
  lemma IdleBop(s: State)
    requires Synced(s) && Parked(s) && NoneWaits(s)
    ensures var r := SetFullBop(s, s.blocks.sent); !r.chip.exposing && r.hw == s.hw
  {
    BopUnfolds(s);
    var m := WithBop(s, s.blocks.sent);
    StillMask(m, m.chip.(willExpose := true, fault := NoFault));
  }

  lemma FailureUnfolds(s: State)
    requires FailedChip(s.chip) != s.chip
    ensures var chip, trigger := FailedChip(s.chip), s.blocks.full.trigger;
            var t := s.(chip := chip, waits := s.waits.(queue := StillHeld(s.waits.queue, chip, trigger)));
            && FailureMasked(s) == QueueEmptied(if AllHeld(s.waits.queue, chip, trigger) then s.(chip := chip)
                                                else SetFullBop(t, t.blocks.sent))
            && Parked(t)
  {
    var chip, trigger := FailedChip(s.chip), s.blocks.full.trigger;
    CheckUnfolds(s.(chip := chip), chip);
    StayHeld(s.waits.queue, chip, trigger);
    if AllHeld(s.waits.queue, chip, trigger) {
      HeldStay(s.waits.queue, chip, trigger);
    } else if |StillHeld(s.waits.queue, chip, trigger)| == |s.waits.queue| {
      SameLength(s.waits.queue, chip, trigger);
    }
  }

  /** What a failed exposure lets happen can be told beforehand. */
  lemma FailureExactly(s: State)
    requires Synced(s) && FailedChip(s.chip) != s.chip
    ensures var m := FailureMasked(s);
            && (m.chip.exposing <==> Restarts(s))
            && (m.hw.exposing <==> s.hw.exposing || Restarts(s))
            && (Restarts(s) ==> m.blocks == LeftBehind(s).blocks && (m.waits.qued > 0 <==> MoreWait(s)))
  {
    FailureUnfolds(s);
    if !AllHeld(s.waits.queue, FailedChip(s.chip), s.blocks.full.trigger) {
      FreedExactly(s);
    }
  }

  lemma FreedExactly(s: State)
    requires Synced(s) && !AllHeld(s.waits.queue, FailedChip(s.chip), s.blocks.full.trigger)
    ensures var chip, trigger := FailedChip(s.chip), s.blocks.full.trigger;
            var t := s.(chip := chip, waits := s.waits.(queue := StillHeld(s.waits.queue, chip, trigger)));
            var r := SetFullBop(t, t.blocks.sent);
            && (r.chip.exposing <==> Restarts(s))
            && (r.hw.exposing <==> s.hw.exposing || Restarts(s))
            && (Restarts(s) ==> Noticed(r) && r.blocks == LeftBehind(s).blocks && (r.waits.qued > 0 <==> MoreWait(s)))
  {
    var chip, trigger := FailedChip(s.chip), s.blocks.full.trigger;
    StayHeld(s.waits.queue, chip, trigger);
    var l := LeftBehind(s);
    var t := s.(chip := chip, waits := l.waits);
    var n := l.(waits := l.waits.(notBop := false, qued := l.waits.qued - 1));
    if NoneWaits(t) {
      IdleBop(t);
    } else if Refused(s.hw.answers) {
      BopUnfolds(t);
      RefusedStart(n);
    } else {
      BopUnfolds(t);
      AcceptedStart(n);
    }
  }

  /** The end of a partial exposure starts another one, while the readout begins or when it cannot. */
  predicate EndStarts(s: State, readable: bool) {
    && s.waits.client
    && if s.setting.frameTransfer then NextTried(s) && !Refused(s.hw.answers) else !readable && Restarts(s)
  }

  /** With no exposure in the queue a readout begins, and nothing else. */
  lemma NoneQueued(s: State, chip: Chip)
    requires s.waits.qued <= 0 && chip != s.chip
    ensures var r := Mask(s, chip);
            r.hw == s.hw && r.chip == chip && (r.waits.queue == [] || r.waits.qued <= 0)
  {
    var left := StillHeld(s.waits.queue, chip, s.blocks.full.trigger);
    var t := s.(chip := chip, waits := s.waits.(queue := left));
    CheckUnfolds(s.(chip := chip), chip);
    assert SetFullBop(t, t.blocks.sent) == WithBop(t, t.blocks.sent);
  }

  lemma PlainEnd(s: State, readable: bool)
    requires Synced(s) && s.chip.exposing && !s.hw.exposing && (s.waits.qued <= 0 || !s.setting.frameTransfer)
    requires s.waits.client
    ensures CamReadout(s, readable).hw.exposing <==> !readable && !s.setting.frameTransfer && Restarts(s)
  {
    var h := s.(hw := s.hw.(reading := true));
    var chip := Unexposed(h.chip).(reading := true, telMove := false, fault := NoFault);
    if s.waits.qued <= 0 {
      NoneQueued(h, chip);
    }
    var b := ReadoutBegun(s);
    assert b == Mask(h, chip) && b.chip == chip && b.hw == h.hw;
    if !readable {
      FailureExactly(b.(hw := b.hw.(reading := false)));
    }
  }

  lemma PartialEnd(s: State, code: int, readable: bool)
    requires Synced(s) && s.chip.exposing && !s.hw.exposing
    ensures EndExposure(s, -5, code, readable).hw.exposing <==> EndStarts(s, readable)
  {
    if s.waits.client {
      if s.setting.frameTransfer && s.waits.qued > 0 {
        TransferBegins(s);
        UnreadableShows(ReadoutBegun(s), readable);
      } else {
        PlainEnd(s, readable);
      }
    }
  }

  lemma PartialEndKeeps(s: State, code: int, readable: bool, tracked: bool)
    requires Good(s, tracked) && !s.hw.exposing && (s.chip.exposing || s.chip.noImage)
    ensures Good(Finished(EndExposure(s, -5, code, readable)), tracked && !EndStarts(s, readable))
  {
    EndExposureKeeps(s, -5, code, readable, tracked);
    if tracked {
      PartialEnd(s, code, readable);
    }
    var r := EndExposure(s, -5, code, readable);
    MaskKeeps(r, Unexposed(r.chip).(transfer := false, telMove := false, fault := NoFault),
              tracked && !EndStarts(s, readable));
  }

  lemma OrdinaryEndKeeps(s: State, code: int, readable: bool, tracked: bool)
    requires Good(s, tracked) && !s.hw.exposing && (s.chip.exposing || s.chip.noImage)
    requires tracked && !s.setting.frameTransfer ==> !s.hw.reading
    ensures var r := EndExposure(s, -2, code, readable);
            var shown := Mask(r, r.chip.(transfer := false, fault := NoFault));
            var e := if r.number == s.number then Finished(r) else shown;
            Good(e, tracked)
  {
    EndExposureKeeps(s, -2, code, readable, tracked);
    var r := EndExposure(s, -2, code, readable);
    var chip := if r.number == s.number then Unexposed(r.chip).(telMove := false) else r.chip;
    MaskKeeps(r, chip.(transfer := false, fault := NoFault), tracked);
  }

  /** What comes of an exposure's end does not depend on what the hardware was seen to do before. */
  lemma HardwareApart(s: State, code: int, readable: bool)
    ensures var h := s.(hw := s.hw.(exposing := false));
            Clashes(h, code) == Clashes(s, code) && EndStarts(h, readable) == EndStarts(s, readable)
  {
    var h := s.(hw := s.hw.(exposing := false));
    assert LeftBehind(h) == LeftBehind(s).(hw := h.hw);
    assert Released(h) == Released(s).(hw := h.hw);
  }

  lemma CheckExposuresKeeps(s: State, ret: int, code: int, readable: bool, tracked: bool)
    requires Good(s, tracked)
    ensures Good(CheckExposures(s, ret, code, readable), tracked && !Careless(s, PollExposure(ret, code, readable)))
  {
    if (s.chip.exposing || s.chip.noImage) && -5 <= ret < 0 {
      var h := s.(hw := s.hw.(exposing := false));
      HardwareApart(s, code, readable);
      if ret == -5 {
        PartialEndKeeps(h, code, readable, tracked);
      } else if ret == -4 {
        AbandonedKeeps(h.(waits := h.waits.(client := false)), ret, code, readable, tracked);
      } else if ret == -3 {
        EndExposureKeeps(h.(waits := h.waits.(client := false)), ret, code, readable, tracked);
      } else if ret == -2 {
        OrdinaryEndKeeps(h, code, readable, tracked);
      } else if ret == -1 {
        FailedExposureKeeps(h, code, tracked);
      }
    }
  }

  /**
    The abort of a failed exposure failed too, while the mask let a held exposure start:
    the exposure that waits behind it is then asked of a chip that exposes.
  */
  predicate Clashes(s: State, code: int) {
    code != 0 && Restarts(s) && MoreWait(s) && !s.setting.exiting && !Blocked(LeftBehind(s), s.setting.careBlock)
  }

  lemma FailedExposureKeeps(s: State, code: int, tracked: bool)
    requires Good(s, tracked) && !s.hw.exposing && (s.chip.exposing || s.chip.noImage)
    ensures Good(ExposureFailed(s, code), tracked && !Clashes(s, code))
  {
    var chip := FailedChip(s.chip);
    MaskKeeps(s, chip, tracked);
    MaskStills(s, chip);
    MaskHonest(s, chip);
    FailureExactly(s);
    var m := StopHardware(FailureMasked(s), code);
    if m.waits.qued > 0 {
      NextKeeps(m, tracked && !Clashes(s, code));
    }
  }

  /** With nothing to read the next exposure is started, whatever the state still shows. */
  lemma NextStarts(s: State)
    requires !s.chip.reading && !s.setting.exiting
    ensures CamExpose(s, s.waits.client, Unexposed(s.chip), true, s.setting.careBlock)
            == CamStartExposure(Taken(s, s.waits.client), s.setting.careBlock)
  {
  }

  lemma BlockedStartKeeps(s: State, tracked: bool)
    requires Good(s, tracked) && (tracked ==> Blocked(s, s.setting.careBlock))
    ensures Good(CamStartExposure(s, s.setting.careBlock).0, tracked)
  {
    if Blocked(s, s.setting.careBlock) {
      WillExposeKeeps(s.(waits := s.waits.(qued := s.waits.qued + 1, notBop := true)), tracked);
    } else {
      CamStartKeeps(s, s.setting.careBlock, false);
    }
  }

  /** The exposure after a failed one. */
  lemma NextKeeps(s: State, tracked: bool)
    requires Good(s, tracked) && !s.chip.reading
    requires tracked ==> Still(s) && (s.chip.exposing && !s.setting.exiting ==> Blocked(s, s.setting.careBlock))
    ensures Good(CamExpose(s, s.waits.client, Unexposed(s.chip), true, s.setting.careBlock).0, tracked)
  {
    if !s.setting.exiting {
      NextStarts(s);
      var m := Taken(s, s.waits.client);
      if s.chip.exposing {
        BlockedStartKeeps(m, tracked);
      } else {
        CamStartKeeps(m, s.setting.careBlock, tracked);
      }
    }
  }

  lemma CheckReadoutsKeeps(s: State, ret: int, tracked: bool)
    requires Good(s, tracked)
    ensures Good(CheckReadouts(s, ret), tracked)
  {
    if s.chip.reading && ret < 0 {
      var h := s.(hw := s.hw.(reading := false));
      var seen := h.chip.(reading := false, transfer := false, image := false);
      if h.waits.qued > 0 && h.waits.client {
        CamExposeKeeps(h, true, seen, true, h.setting.careBlock, tracked);
      }
      var m := if h.waits.qued > 0 && h.waits.client then CamExpose(h, true, seen, true, h.setting.careBlock).0 else h;
      MaskKeeps(m, if ret == -2 then m.chip.(reading := false, image := true, fault := NoFault)
                   else m.chip.(reading := false, fault := Broken), tracked);
    }
  }

  // ----- Runs

  datatype Event =
    | Expose(careBlock: bool)                             // a client's command
    | PollExposure(ret: int, code: int, readable: bool)   // checkExposures
    | PollReadout(ret: int)                               // checkReadouts
    | StopCommand(code: int)                              // stopexpo
    | Kill(code: int, scriptEnds: bool)                   // killAll
    | BopSent(bop: Bop)                                   // the mask sent to the camera
    | Surroundings(master: Bop, moving: bool, dark: bool, exiting: bool)
    | OpticsSettled                                       // checkQueuedExposures
    | ClientLeft                                          // deleteConnection of its client
    | QuedWritten(n: int)                                 // que_exp_num is writable
    | ValueQueued(v: Queued)
    | HardwareWill(answers: seq<int>)                     // what the next starts return

  function Step(s: State, e: Event): State {
    match e
    case Expose(careBlock) =>
      CamExpose(s.(setting := s.setting.(careBlock := careBlock)), true, s.chip, false, careBlock).0
    case PollExposure(ret, code, readable) => CheckExposures(s, ret, code, readable)
    case PollReadout(ret) => CheckReadouts(s, ret)
    case StopCommand(code) => StopExpo(s, code)
    case Kill(code, scriptEnds) => KillAll(s, code, scriptEnds)
    case BopSent(bop) => SetFullBop(s, bop)
    case Surroundings(master, moving, dark, exiting) =>
      s.(blocks := s.blocks.(master := master),
         setting := s.setting.(moving := moving, dark := dark, exiting := exiting))
    case OpticsSettled => CheckQueued(s)
    case ClientLeft => s.(waits := s.waits.(client := false))
    case QuedWritten(n) => s.(waits := s.waits.(qued := n))
    case ValueQueued(v) => s.(waits := s.waits.(queue := s.waits.queue + [v]))
    case HardwareWill(answers) => s.(hw := s.hw.(answers := answers))
  }

  function Run(s: State, events: seq<Event>): State {
    if events == [] then s else Step(Run(s, events[..|events| - 1]), events[|events| - 1])
  }

  function Initial(frameTransfer: bool): State {
    State(Chip(false, false, false, false, false, false, false, NoFault), Waits(0, false, false, false, []),
          Blocks(Bop(false, false), Bop(false, false), Bop(false, false)),
          Setting(frameTransfer, false, false, false, true), Hardware(false, false, false, []), 0)
  }

  /** An abort cannot end a readout, which goes on, and an exposure only when it succeeds. */
  predicate AbortFails(s: State, code: int) {
    (s.chip.reading && s.hw.reading && !s.setting.frameTransfer) || (s.hw.exposing && code != 0)
  }

  /**
    What loses sight of the hardware: an abort that fails. After a failed exposure it
    matters when the mask starts another exposure first. The end of a partial exposure,
    which no driver here reports, clears from the state what it has started itself.
  */
  predicate Careless(s: State, e: Event) {
    match e
    case StopCommand(code) => AbortFails(s, code)
    case Kill(code, _) => AbortFails(s, code)
    case PollExposure(ret, code, readable) =>
      && (s.chip.exposing || s.chip.noImage)
      && ((ret == -1 && Clashes(s, code)) || (ret == -5 && EndStarts(s, readable)))
    case _ => false
  }

  lemma StopExpoKeeps(s: State, code: int, tracked: bool)
    requires Good(s, tracked)
    ensures Good(StopExpo(s, code), tracked && !Careless(s, StopCommand(code)))
  {
    var h := StopHardware(s, code);
    var fault := if code == 0 then Killed else KilledAndBroken;
    MaskKeeps(h, Cleared(h.chip, fault), tracked && !Careless(s, StopCommand(code)));
  }

  lemma KillAllKeeps(s: State, code: int, scriptEnds: bool, tracked: bool)
    requires Good(s, tracked)
    ensures Good(KillAll(s, code, scriptEnds), tracked && !Careless(s, Kill(code, scriptEnds)))
  {
    var still := tracked && !Careless(s, Kill(code, scriptEnds));
    var h := StopHardware(s.(waits := s.waits.(notBop := false, emptyQue := false)), code);
    var chip := Cleared(h.chip, Killed);
    MaskKeeps(h, chip, still);
    var m := Mask(h, chip);
    var n := m.(waits := m.waits.(queue := [], qued := if scriptEnds then 0 else m.waits.qued));
    MaskKeeps(n, n.chip.(fault := Killed), still);
  }

  lemma StepKeeps(s: State, e: Event, tracked: bool)
    requires Good(s, tracked)
    ensures Good(Step(s, e), tracked && !Careless(s, e))
  {
    match e
    case Expose(careBlock) =>
      CamExposeKeeps(s.(setting := s.setting.(careBlock := careBlock)), true, s.chip, false, careBlock, tracked);
    case PollExposure(ret, code, readable) => CheckExposuresKeeps(s, ret, code, readable, tracked);
    case PollReadout(ret) => CheckReadoutsKeeps(s, ret, tracked);
    case StopCommand(code) => StopExpoKeeps(s, code, tracked);
    case Kill(code, scriptEnds) => KillAllKeeps(s, code, scriptEnds, tracked);
    case BopSent(bop) => SetFullBopKeeps(s, bop, tracked);
    case Surroundings(_, _, _, _) =>
    case OpticsSettled =>
      if s.waits.qued > 0 {
        var m := s.(waits := s.waits.(qued := s.waits.qued - 1));
        CamExposeKeeps(m, m.waits.client, m.chip, false, m.setting.careBlock, tracked);
      }
    case ClientLeft =>
    case QuedWritten(_) =>
    case ValueQueued(_) =>
    case HardwareWill(_) =>
  }

  predicate Careful(s: State, events: seq<Event>) {
    events == [] ||
    (Careful(s, events[..|events| - 1]) && !Careless(Run(s, events[..|events| - 1]), events[|events| - 1]))
  }

  /**
    In every run telescope moves are held back only while exposing; and until a careless
    abort no start is asked for during an exposure nor, without frame transfer, during a
    readout, although value changes and blocking masks re-enter the machine at any change.
  */
  lemma {:induction false} ExposuresExclude(frameTransfer: bool, events: seq<Event>)
    ensures var s := Run(Initial(frameTransfer), events);
            && (s.chip.telMove ==> s.chip.exposing) && Synced(s)
            && (Careful(Initial(frameTransfer), events) ==> Tracked(s))
  {
    if events != [] {
      var before := events[..|events| - 1];
      var s := Run(Initial(frameTransfer), before);
      ExposuresExclude(frameTransfer, before);
      StepKeeps(s, events[|events| - 1], Careful(Initial(frameTransfer), before));
    }
  }

  // ----- What a careless abort leads to

  /** The hardware does something the state word does not know of, or was asked for too much. */
  predicate Lost(s: State) {
    || s.hw.clash
    || (s.hw.exposing && !s.chip.exposing)
    || (s.hw.reading && !s.setting.frameTransfer && (!s.chip.reading || s.chip.exposing))
  }

  lemma {:induction false} MaskStaysLost(s: State, chip: Chip)
    requires Lost(s.(chip := chip))
    ensures Lost(Mask(s, chip)) && (s.hw.clash ==> Mask(s, chip).hw.clash)
    decreases |s.waits.queue|, 1
  {
    if chip != s.chip {
      CheckQueueStaysLost(s.(chip := chip), chip);
    }
  }

  lemma {:induction false} CheckQueueStaysLost(s: State, fake: Chip)
    requires Lost(s)
    ensures Lost(CheckQueue(s, fake)) && (s.hw.clash ==> CheckQueue(s, fake).hw.clash)
    decreases |s.waits.queue|, 0
  {
    var left := StillHeld(s.waits.queue, fake, s.blocks.full.trigger);
    if |left| < |s.waits.queue| {
      var t := s.(waits := s.waits.(queue := left));
      SetFullBopStaysLost(t, t.blocks.sent);
    }
  }

  lemma {:induction false} SetFullBopStaysLost(s: State, bop: Bop)
    requires Lost(s)
    ensures Lost(SetFullBop(s, bop)) && (s.hw.clash ==> SetFullBop(s, bop).hw.clash)
    decreases |s.waits.queue|, 3
  {
    var m := WithBop(s, bop);
    if !bop.exposure && s.waits.qued > 0 && s.waits.notBop {
      if bop.trigger && !s.chip.willExpose {
        MaskStaysLost(m, m.chip.(willExpose := true, fault := NoFault));
      } else if !s.chip.exposing && (s.setting.frameTransfer || !s.chip.reading) {
        StartStaysLost(m.(waits := m.waits.(notBop := false, qued := m.waits.qued - 1)));
      }
    }
  }

  lemma {:induction false} StartStaysLost(s: State)
    requires Lost(s)
    ensures Lost(StartUnchecked(s).0) && (s.hw.clash ==> StartUnchecked(s).0.hw.clash)
    decreases |s.waits.queue|, 2
  {
    var n := s.(number := s.number + 1);
    var chip := n.chip.(telMove := n.setting.careBlock, fault := NoFault);
    MaskStaysLost(n, chip);
    var (h, ret) := StartHardware(Mask(n, chip));
    MaskStaysLost(h, Answered(h, ret));
  }

  /** The condition is exact: from a tracked state an abort loses the hardware if it is careless. */
  lemma AbortLosesHardware(s: State, code: int, scriptEnds: bool)
    requires Good(s, true)
    ensures Tracked(StopExpo(s, code)) <==> !Careless(s, StopCommand(code))
    ensures Tracked(KillAll(s, code, scriptEnds)) <==> !Careless(s, Kill(code, scriptEnds))
  {
    StopExpoKeeps(s, code, true);
    KillAllKeeps(s, code, scriptEnds, true);
    if Careless(s, StopCommand(code)) {
      var h := StopHardware(s, code);
      MaskStaysLost(h, Cleared(h.chip, if code == 0 then Killed else KilledAndBroken));
      var k := StopHardware(s.(waits := s.waits.(notBop := false, emptyQue := false)), code);
      var chip := Cleared(k.chip, Killed);
      MaskStaysLost(k, chip);
      var m := Mask(k, chip);
      var n := m.(waits := m.waits.(queue := [], qued := if scriptEnds then 0 else m.waits.qued));
      MaskStaysLost(n, n.chip.(fault := Killed));
    }
  }

  /** As exact is the condition for the polls; after a failed exposure the loss is a clash. */
  lemma PollLosesHardware(s: State, ret: int, code: int, readable: bool)
    requires Good(s, true)
    ensures var r := CheckExposures(s, ret, code, readable);
            && (Tracked(r) <==> !Careless(s, PollExposure(ret, code, readable)))
            && (ret == -1 && Careless(s, PollExposure(ret, code, readable)) ==> r.hw.clash)
  {
    CheckExposuresKeeps(s, ret, code, readable, true);
    if Careless(s, PollExposure(ret, code, readable)) {
      var h := s.(hw := s.hw.(exposing := false));
      HardwareApart(s, code, readable);
      if ret == -1 {
        MaskHonest(h, FailedChip(h.chip));
        FailureExactly(h);
        BusyNextClashes(FailureMasked(h));
      } else {
        PartialEnd(h, code, readable);
        var r := EndExposure(h, ret, code, readable);
        MaskStaysLost(r, Unexposed(r.chip).(transfer := false, telMove := false, fault := NoFault));
      }
    }
  }

  /** An exposure asked for while the hardware exposes, with nothing to make it wait. */
  lemma BusyNextClashes(s: State)
    requires s.chip.exposing && s.hw.exposing && !s.chip.reading
    requires s.waits.qued > 0 && !s.setting.exiting && !Blocked(s, s.setting.careBlock)
    ensures CamExpose(s, s.waits.client, Unexposed(s.chip), true, s.setting.careBlock).0.hw.clash
  {
    NextStarts(s);
    var m := Taken(s, s.waits.client);
    ExposingMask(m, m.chip.(willExpose := true, fault := NoFault));
    var waits := m.setting.dark && (m.blocks.full.trigger || m.blocks.master.trigger);
    BusyStartClashes(if waits then WillExpose(m) else m);
  }

  lemma BusyStartClashes(s: State)
    requires s.chip.exposing && s.hw.exposing
    ensures StartUnchecked(s).0.hw.clash
  {
    var n := s.(number := s.number + 1);
    var chip := n.chip.(telMove := n.setting.careBlock, fault := NoFault);
    StartUnfolds(s);
    ExposingMask(n, chip);
    var m := Mask(n, chip);
    StartHardwareClashes(m);
    var (h, ret) := StartHardware(m);
    MaskStaysLost(h, Answered(h, ret));
  }

  lemma StartHardwareClashes(s: State)
    requires s.hw.exposing
    ensures StartHardware(s).0.hw.clash
  {
  }

  /** And the next exposure then is asked of a chip that is still being read. */
  lemma ExposureDuringAbandonedReadout(s: State)
    requires Good(s, true) && !s.setting.frameTransfer && s.hw.reading && s.waits.queue == []
    requires !s.setting.exiting && !s.setting.dark
    ensures Step(StopExpo(s, 0), Expose(false)).hw.clash
  {
    var chip := Cleared(s.chip, Killed);
    var h := StopHardware(s, 0);
    QuietMask(h, chip);
    var m := StopExpo(s, 0);
    assert m.hw.reading && m.waits.queue == [];
    var n := Taken(m.(setting := m.setting.(careBlock := false)), true);
    assert Step(m, Expose(false)) == StartUnchecked(n).0;
    StartClashes(n);
  }

  lemma StartClashes(s: State)
    requires s.waits.queue == [] && (s.hw.exposing || (s.hw.reading && !s.setting.frameTransfer))
    ensures StartUnchecked(s).0.hw.clash
  {
    var n := s.(number := s.number + 1);
    var chip := n.chip.(telMove := n.setting.careBlock, fault := NoFault);
    QuietMask(n, chip);
    var (h, ret) := StartHardware(Mask(n, chip));
    QuietMask(h, Answered(h, ret));
  }

  lemma EmptyMask(s: State, chip: Chip)
    requires s.waits.queue == [] && !s.waits.emptyQue
    ensures Mask(s, chip) == s.(chip := chip)
  {
    assert StillHeld(s.waits.queue, chip, s.blocks.full.trigger) == [];
    assert s.waits.(queue := []) == s.waits;
  }

  /** The driver asked, and its answer shown, with an empty queue. */
  function Started(s: State): State {
    var chip := s.chip.(telMove := s.setting.careBlock, fault := NoFault);
    var (h, ret) := StartHardware(s.(number := s.number + 1, chip := chip));
    h.(chip := Answered(h, ret))
  }

  lemma QuietStart(s: State)
    requires s.waits.queue == [] && !s.waits.emptyQue
    ensures StartUnchecked(s).0 == Started(s)
  {
    var n := s.(number := s.number + 1);
    var chip := n.chip.(telMove := n.setting.careBlock, fault := NoFault);
    StartUnfolds(s);
    EmptyMask(n, chip);
    AnswerShown(n.(chip := chip));
  }

  lemma StartUnfolds(s: State)
    ensures var n := s.(number := s.number + 1);
            var h := StartHardware(Mask(n, n.chip.(telMove := n.setting.careBlock, fault := NoFault)));
            StartUnchecked(s).0 == Mask(h.0, Answered(h.0, h.1))
  {
  }

  lemma AnswerShown(s: State)
    requires s.waits.queue == [] && !s.waits.emptyQue
    ensures var (h, ret) := StartHardware(s); Mask(h, Answered(h, ret)) == h.(chip := Answered(h, ret))
  {
    var (h, ret) := StartHardware(s);
    EmptyMask(h, Answered(h, ret));
  }

  lemma RunOn(s: State, events: seq<Event>, e: Event)
    ensures Run(s, events + [e]) == Step(Run(s, events), e)
  {
    assert (events + [e])[..|events|] == events;
  }

  /** An exposure that has to wait, another that does not, two more and a value queued behind it. */
  function Crowd(): seq<Event> {
    [HardwareWill([0, 0, 0])] + [Surroundings(Bop(false, false), true, false, false)] + [Expose(true)] + [Expose(false)]
    + [QuedWritten(2)] + [ValueQueued(Queued(true, false, false, false))]
  }

  function Crowded(): State {
    State(Chip(true, false, false, false, false, false, false, NoFault),
          Waits(2, true, false, true, [Queued(true, false, false, false)]),
          Blocks(Bop(false, false), Bop(false, false), Bop(false, false)),
          Setting(false, true, false, false, false), Hardware(true, false, false, [0, 0]), 1)
  }

  lemma CrowdRuns()
    ensures Run(Initial(false), Crowd()) == Crowded()
  {
    var s := Initial(false);
    var will := [HardwareWill([0, 0, 0])];
    RunOn(s, [], will[0]);
    assert [] + will == will;
    var move := Surroundings(Bop(false, false), true, false, false);
    RunOn(s, will, move);
    var a := Run(s, will + [move]);
    RunOn(s, will + [move], Expose(true));
    var b := a.(setting := a.setting.(careBlock := true), waits := a.waits.(client := true, qued := 1, notBop := true));
    assert Run(s, will + [move] + [Expose(true)]) == b;
    RunOn(s, will + [move] + [Expose(true)], Expose(false));
    var c := Taken(b.(setting := b.setting.(careBlock := false)), true);
    QuietStart(c);
    assert Run(s, will + [move] + [Expose(true)] + [Expose(false)]) == StartUnchecked(c).0;
    RunOn(s, will + [move] + [Expose(true)] + [Expose(false)], QuedWritten(2));
    RunOn(s, will + [move] + [Expose(true)] + [Expose(false)] + [QuedWritten(2)],
          ValueQueued(Queued(true, false, false, false)));
  }

  lemma {:induction false} CarefulWithoutAborts(s: State, events: seq<Event>)
    requires forall i :: 0 <= i < |events| ==> !events[i].PollExposure? && !events[i].StopCommand? && !events[i].Kill?
    ensures Careful(s, events)
  {
    if events != [] {
      CarefulWithoutAborts(s, events[..|events| - 1]);
    }
  }

  /** When the exposure of the crowd fails, the value behind it is free, and the next one starts. */
  lemma CrowdRestarts()
    ensures Restarts(Crowded()) && Clashes(Crowded(), 1)
  {
    var chip := FailedChip(Crowded().chip);
    assert !Held(Crowded().waits.queue[0], chip, false);
    assert LeftBehind(Crowded()).waits.queue == [];
  }

  /** A run of the camera, careful until then, in which the failed abort does clash. */
  lemma FailedAbortDoesClash()
    ensures Careful(Initial(false), Crowd())
    ensures Run(Initial(false), Crowd() + [PollExposure(-1, 1, true)]).hw.clash
  {
    CarefulWithoutAborts(Initial(false), Crowd());
    CrowdRuns();
    RunOn(Initial(false), Crowd(), PollExposure(-1, 1, true));
    CrowdRestarts();
    PollLosesHardware(Crowded(), -1, 1, true);
  }

  /** So in every tracked state a step loses the hardware if and only if it is careless. */
  lemma CarelessExactly(s: State, e: Event)
    requires Good(s, true)
    ensures Tracked(Step(s, e)) <==> !Careless(s, e)
  {
    StepKeeps(s, e, true);
    match e
    case PollExposure(ret, code, readable) => PollLosesHardware(s, ret, code, readable);
    case StopCommand(code) => AbortLosesHardware(s, code, false);
    case Kill(code, scriptEnds) => AbortLosesHardware(s, code, scriptEnds);
    case _ =>
  }

  /** One turn of the loop that erases the values no longer held back. */
  lemma StillHeldFrom(queue: seq<Queued>, i: nat, chip: Chip, trigger: bool)
    requires i < |queue|
    ensures var erased := queue[..i] + queue[i + 1..];
            var whole := queue[..i] + StillHeld(queue[i..], chip, trigger);
            if Held(queue[i], chip, trigger) then queue[..i + 1] + StillHeld(queue[i + 1..], chip, trigger) == whole
            else erased[..i] + StillHeld(erased[i..], chip, trigger) == whole
  {
    var erased := queue[..i] + queue[i + 1..];
    assert queue[i..][1..] == queue[i + 1..] == erased[i..];
    assert erased[..i] == queue[..i];
  }

  // ----- The camera itself

  /** The fields of the camera class; every method does exactly what its function says. */
  class CameraDevice {
    var state: Chip
    var quedExpNumber: int
    var waitingForNotBop: bool
    var waitingForEmptyQue: bool
    var exposureConn: bool
    var queValues: seq<Queued>
    var blocks: Blocks
    var setting: Setting
    var hardware: Hardware
    var exposureNumber: nat

    ghost function Model(): State
      reads this
    {
      State(state, Waits(quedExpNumber, waitingForNotBop, waitingForEmptyQue, exposureConn, queValues),
            blocks, setting, hardware, exposureNumber)
    }

    constructor (frameTransfer: bool)
      ensures Model() == Initial(frameTransfer)
    {
      state := Chip(false, false, false, false, false, false, false, NoFault);
      quedExpNumber, waitingForNotBop, waitingForEmptyQue, exposureConn, queValues := 0, false, false, false, [];
      blocks := Blocks(Bop(false, false), Bop(false, false), Bop(false, false));
      setting := Setting(frameTransfer, false, false, false, true);
      hardware, exposureNumber := Hardware(false, false, false, []), 0;
    }

    method MaskState(chip: Chip)
      modifies this
      ensures Model() == Mask(old(Model()), chip)
      decreases |queValues|, 1
    {
      if chip != state {
        state := chip;
        CheckQueChanges(chip);
      }
    }

    /** The queued values no longer held back are applied and erased in place. */
    method ApplyQueued(fake: Chip) returns (changed: bool)
      modifies `queValues
      ensures queValues == StillHeld(old(queValues), fake, blocks.full.trigger)
      ensures changed <==> |queValues| < |old(queValues)|
    {
      changed := false;
      var i := 0;
      while i < |queValues|
        invariant 0 <= i <= |queValues| <= |old(queValues)|
        invariant queValues[..i] + StillHeld(queValues[i..], fake, blocks.full.trigger)
                  == StillHeld(old(queValues), fake, blocks.full.trigger)
        invariant changed <==> |queValues| < |old(queValues)|
        decreases |queValues| - i
      {
        StillHeldFrom(queValues, i, fake, blocks.full.trigger);
        if !Held(queValues[i], fake, blocks.full.trigger) {
          queValues, changed := queValues[..i] + queValues[i + 1..], true;
        } else {
          i := i + 1;
        }
      }
      assert queValues[..i] == queValues && queValues[i..] == [];
    }

    method CheckQueChanges(fake: Chip)
      modifies this
      ensures Model() == CheckQueue(old(Model()), fake)
      decreases |queValues|, 0
    {
      if quedExpNumber > 0 && (fake.exposing || fake.reading) {
        return;
      }
      var changed := ApplyQueued(fake);
      if changed {
        NewBop(blocks.sent);
      }
      if queValues == [] && waitingForEmptyQue {
        waitingForEmptyQue := false;
        if exposureConn {
          quedExpNumber, waitingForNotBop := quedExpNumber + 1, true;
        }
      }
    }

    /** setFullBopState. */
    method NewBop(bop: Bop)
      modifies this
      ensures Model() == SetFullBop(old(Model()), bop)
      decreases |queValues|, 3
    {
      var holds := false;
      for i := 0 to |queValues|
        invariant Model() == old(Model())
        invariant holds <==> exists k :: 0 <= k < i && queValues[k].exposing
      {
        holds := holds || queValues[i].exposing;
      }
      blocks := blocks.(sent := bop, full := bop.(exposure := bop.exposure || holds));
      if !bop.exposure && quedExpNumber > 0 && waitingForNotBop {
        if bop.trigger && !state.willExpose {
          MaskState(state.(willExpose := true, fault := NoFault));
        } else {
          if state.exposing || (!setting.frameTransfer && state.reading) {
            return;
          }
          waitingForNotBop, quedExpNumber := false, quedExpNumber - 1;
          var _ := StartWithoutCheck();
        }
      }
    }

    method StartDriver() returns (ret: int)
      modifies `hardware
      ensures (Model(), ret) == StartHardware(old(Model()))
    {
      var hw := hardware;
      ret := if hw.answers == [] then -1 else hw.answers[0];
      hardware := Hardware(hw.exposing || ret == 0 || ret == 1, hw.reading,
                           hw.clash || hw.exposing || (hw.reading && !setting.frameTransfer),
                           if hw.answers == [] then [] else hw.answers[1..]);
    }

    method StartWithoutCheck() returns (ret: int)
      modifies this
      ensures (Model(), ret) == StartUnchecked(old(Model()))
      decreases |queValues|, 2
    {
      exposureNumber := exposureNumber + 1;
      MaskState(state.(telMove := setting.careBlock, fault := NoFault));
      ret := StartDriver();
      if !(ret == 0 || ret == 1) {
        MaskState(state.(telMove := false, fault := NoFault));
        return;
      }
      MaskState(state.(exposing := true, noImage := ret == 1, telMove := setting.careBlock,
                       willExpose := false, image := false, fault := NoFault));
      ret := 0;
    }

    method Start(careBlock: bool) returns (ret: int)
      modifies this
      ensures (Model(), ret) == CamStartExposure(old(Model()), careBlock)
    {
      var exposure := blocks.full.exposure || blocks.master.exposure;
      var trigger := blocks.full.trigger || blocks.master.trigger;
      if careBlock && !setting.dark && (exposure || trigger || setting.moving) {
        quedExpNumber := quedExpNumber + 1;
        if !waitingForNotBop {
          waitingForNotBop := true;
        }
        if !exposure && trigger {
          MaskState(state.(willExpose := true, fault := NoFault));
        }
        return 0;
      }
      if setting.dark && trigger {
        MaskState(state.(willExpose := true, fault := NoFault));
      }
      ret := StartWithoutCheck();
    }

    method ExposeFor(client: bool, chip: Chip, fromQue: bool, careBlock: bool) returns (ret: int)
      modifies this
      ensures (Model(), ret) == CamExpose(old(Model()), client, chip, fromQue, careBlock)
    {
      if setting.exiting {
        return -1;
      }
      if chip.exposing || chip.noImage || (chip.reading && !setting.frameTransfer) || (queValues != [] && !fromQue) {
        if !fromQue {
          if queValues == [] {
            quedExpNumber := quedExpNumber + 1;
            return 0;
          }
        }
        waitingForEmptyQue := true;
        return -1;
      }
      if quedExpNumber > 0 {
        quedExpNumber := quedExpNumber - 1;
      }
      exposureConn := client;
      ret := Start(careBlock);
    }

    method CheckQueuedExposures()
      modifies this
      ensures Model() == CheckQueued(old(Model()))
    {
      if quedExpNumber > 0 {
        quedExpNumber := quedExpNumber - 1;
        var _ := ExposeFor(exposureConn, state, false, setting.careBlock);
      }
    }

    method StopDriver(code: int)
      modifies `hardware, `quedExpNumber
      ensures Model() == StopHardware(old(Model()), code)
    {
      if code == 0 {
        hardware, quedExpNumber := hardware.(exposing := false), 0;
      }
    }

    method Readout(readable: bool)
      modifies this
      ensures Model() == CamReadout(old(Model()), readable)
    {
      if quedExpNumber > 0 && exposureConn && setting.frameTransfer {
        CheckQueChanges(Unexposed(state));
        hardware := hardware.(reading := true);
        MaskState(state.(reading := true, transfer := true, fault := NoFault));
        if queValues == [] {
          var _ := ExposeFor(exposureConn, Unexposed(state), true, setting.careBlock);
        }
      } else {
        hardware := hardware.(reading := true);
        MaskState(Unexposed(state).(reading := true, telMove := false, fault := NoFault));
      }
      if !readable {
        hardware := hardware.(reading := false);
        MaskState(state.(reading := false, fault := Broken));
      }
    }

    method End(ret: int, code: int, readable: bool)
      modifies this
      ensures Model() == EndExposure(old(Model()), ret, code, readable)
    {
      if exposureConn {
        Readout(readable);
        return;
      }
      if (state.exposing || state.noImage) && ret == -5 {
        return;
      }
      if (state.exposing || state.noImage) && ret != -4 {
        StopDriver(code);
      }
      quedExpNumber := 0;
      MaskState(Cleared(state, NoFault));
    }

    method Finish()
      modifies this
      ensures Model() == Finished(old(Model()))
    {
      MaskState(Unexposed(state).(transfer := false, telMove := false, fault := NoFault));
    }

    method EndUnread(code: int, readable: bool)
      modifies this
      ensures Model() == UnreadExposure(old(Model()), code, readable)
    {
      exposureConn := false;
      End(-4, code, readable);
      Finish();
      if quedExpNumber > 0 {
        var _ := ExposeFor(exposureConn, Unexposed(state), true, setting.careBlock);
      }
    }

    method FailExposure(code: int)
      modifies this
      ensures Model() == ExposureFailed(old(Model()), code)
    {
      MaskState(FailedChip(state));
      StopDriver(code);
      if quedExpNumber > 0 {
        var _ := ExposeFor(exposureConn, Unexposed(state), true, setting.careBlock);
      }
    }

    method PollExposing(ret: int, code: int, readable: bool)
      modifies this
      ensures Model() == CheckExposures(old(Model()), ret, code, readable)
    {
      if (!state.exposing && !state.noImage) || ret >= 0 || ret < -5 {
        return;
      }
      hardware := hardware.(exposing := false);
      if ret == -5 {
        End(ret, code, readable);
        Finish();
      } else if ret == -4 {
        EndUnread(code, readable);
      } else if ret == -3 {
        exposureConn := false;
        End(ret, code, readable);
      } else if ret == -2 {
        var expNum := exposureNumber;
        End(ret, code, readable);
        if expNum == exposureNumber {
          Finish();
        } else {
          MaskState(state.(transfer := false, fault := NoFault));
        }
      } else if ret == -1 {
        FailExposure(code);
      }
    }

    method PollReading(ret: int)
      modifies this
      ensures Model() == CheckReadouts(old(Model()), ret)
    {
      if !state.reading || ret >= 0 {
        return;
      }
      hardware := hardware.(reading := false);
      if quedExpNumber > 0 && exposureConn {
        var seen := state.(reading := false, transfer := false, image := false);
        var _ := ExposeFor(exposureConn, seen, true, setting.careBlock);
      }
      if ret == -2 {
        MaskState(state.(reading := false, image := true, fault := NoFault));
      } else {
        MaskState(state.(reading := false, fault := Broken));
      }
    }

    method StopExposing(code: int)
      modifies this
      ensures Model() == StopExpo(old(Model()), code)
    {
      StopDriver(code);
      if code != 0 {
        MaskState(Cleared(state, KilledAndBroken));
      } else {
        MaskState(Cleared(state, Killed));
      }
    }

    method KillEverything(code: int, scriptEnds: bool)
      modifies this
      ensures Model() == KillAll(old(Model()), code, scriptEnds)
    {
      waitingForNotBop, waitingForEmptyQue := false, false;
      StopDriver(code);
      MaskState(Cleared(state, Killed));
      queValues := [];
      if scriptEnds {
        quedExpNumber := 0;
      }
      MaskState(state.(fault := Killed));
    }
  }
}
