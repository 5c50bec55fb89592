/**
  The Ford roof-control board and the connection that drives it
  (base/dome/src/connford.cpp).

  The board keeps eight relay outputs (port B) and eight inputs (port A, end
  switches among them). A pin is switched by rewriting the whole of port B from
  a state read just before. `Line` is the board, the connection's copy of the
  ports and everything the serial line will still do, as a value; every
  operation is a function on it. `FordConn` performs the same operations step
  by step on its fields.
*/
module Ford {
  /** An eight-bit port: the numbers of its raised bits. */
  type Port = set<nat>

  /**
    One use of the line. A query fails or (`answered`) tells the truth: the inputs
    as they are now, the outputs as they are driven. A port write takes effect
    when `delivered`, whatever its return code `acked` says. Either takes time.
  */
  datatype Exchange = Exchange(answered: bool, inputs: Port, delivered: bool, acked: bool, elapsed: nat)

  const DEAD := Exchange(false, {}, false, false, 0)

  /**
    `relays` is what the board drives now and `history` everything it has driven;
    `cacheA` and `cacheB` are the connection's stav_portu; `script` is what the
    line will do, dead once it runs out.
  */
  datatype Line = Line(relays: Port, cacheA: Port, cacheB: Port, now: int,
                       script: seq<Exchange>, history: seq<Port>)
  {
    function Next(): Exchange {
      if script == [] then DEAD else script[0]
    }

    function Used(): Line {
      this.(script := if script == [] then [] else script[1..], now := now + Next().elapsed)
    }

    function Sleep(seconds: nat): Line {
      this.(now := now + seconds)
    }
  }

  /** The last entry of the history is what the board drives now. */
  predicate Recorded(l: Line) {
    l.history != [] && l.history[|l.history| - 1] == l.relays
  }

  /** What one query brings: nothing, or a state of both ports. */
  datatype Reading = Failed | Read(inputs: Port, outputs: Port)

  /** What the line will bring next: a query fails or tells the truth. */
  function Truth(l: Line): Reading {
    if l.Next().answered then Read(l.Next().inputs, l.relays) else Failed
  }

  /** zjisti_stav_portu on any reading: both ports, or the copies stay as they were. */
  function PollOf(l: Line, r: Reading): (Line, bool) {
    match r
    case Failed => (l.Used(), false)
    case Read(inputs, outputs) => (l.Used().(cacheA := inputs, cacheB := outputs), true)
  }

  function Poll(l: Line): (Line, bool) {
    PollOf(l, Truth(l))
  }

  /** readStablePort for port B: two reads in a row must agree. */
  function StableReadOf(l: Line, one: Reading, two: Reading): (Line, bool) {
    var (first, ok) := PollOf(l, one);
    if !ok then (first, false)
    else
      var (second, again) := PollOf(first, two);
      (second, again && second.cacheB == first.cacheB)
  }

  function StableRead(l: Line): (Line, bool) {
    StableReadOf(l, Truth(l), Truth(l.Used()))
  }

  function Write(l: Line, port: Port): (Line, bool) {
    var e := l.Next();
    if e.delivered then (l.Used().(relays := port, history := l.history + [port]), e.acked)
    else (l.Used(), e.acked)
  }

  /** A pin write once its port was read: the port is rewritten with the bits set or cleared. */
  function Rewrite(read: (Line, bool), pins: Port, on: bool): (Line, bool) {
    var (seen, ok) := read;
    if ok then Write(seen, if on then seen.cacheB + pins else seen.cacheB - pins) else (seen, false)
  }

  /** zapni_pin: the bits are set. */
  function SetPins(l: Line, pins: Port): (Line, bool) {
    Rewrite(StableRead(l), pins, true)
  }

  /** vypni_pin and switchOffPins: the bits are cleared. */
  function ClearPins(l: Line, pins: Port): (Line, bool) {
    Rewrite(StableRead(l), pins, false)
  }

  /** isOn for an output: -1 on a failed read, 0 when the bit is set, 1 when clear. */
  function OutputOn(l: Line, pin: nat): (Line, int) {
    var (seen, ok) := Poll(l);
    (seen, if !ok then -1 else if pin in seen.cacheB then 0 else 1)
  }

  /** isOn for an input. */
  function InputOn(l: Line, pin: nat): (Line, int) {
    var (seen, ok) := Poll(l);
    (seen, if !ok then -1 else if pin in seen.cacheA then 0 else 1)
  }

  /** The line went on, the board drives what it drove. */
  predicate Idle(l: Line, l': Line) {
    l'.relays == l.relays && l'.history == l.history && l.now <= l'.now
  }

  /** Port B was rewritten once, with `port`. */
  predicate Rewritten(l: Line, l': Line, port: Port) {
    l'.relays == port && l'.history == l.history + [port] && l.now <= l'.now
  }

  lemma PollIsIdle(l: Line)
    ensures Idle(l, Poll(l).0)
    ensures Poll(l).1 ==> Poll(l).0.cacheB == l.relays
  {
  }

  /** A pin write switches its own pins and nothing else, or does nothing. */
  lemma SetPinsEffect(l: Line, pins: Port)
    ensures Idle(l, SetPins(l, pins).0) || Rewritten(l, SetPins(l, pins).0, l.relays + pins)
  {
    var (seen, ok) := StableRead(l);
    assert Idle(l, seen) && (ok ==> seen.cacheB == l.relays);
  }

  lemma ClearPinsEffect(l: Line, pins: Port)
    ensures Idle(l, ClearPins(l, pins).0) || Rewritten(l, ClearPins(l, pins).0, l.relays - pins)
  {
    var (seen, ok) := StableRead(l);
    assert Idle(l, seen) && (ok ==> seen.cacheB == l.relays);
  }

  /** A pin write succeeds if and only if both readings were answered and the write acknowledged. */
  lemma PinWritesAnswer(l: Line, pins: Port)
    ensures SetPins(l, pins).1 <==>
            l.Next().answered && l.Used().Next().answered && l.Used().Used().Next().acked
    ensures ClearPins(l, pins).1 <==>
            l.Next().answered && l.Used().Next().answered && l.Used().Used().Next().acked
  {
  }

  /** isOn tells -1 if the query fails, else whether the pin is off. */
  lemma PinReadsAnswer(l: Line, pin: nat)
    ensures OutputOn(l, pin).1 == if !l.Next().answered then -1 else if pin in l.relays then 0 else 1
    ensures InputOn(l, pin).1 == if !l.Next().answered then -1 else if pin in l.Next().inputs then 0 else 1
  {
  }

  // ----- A line that does what it should

  /** The next n queries are answered and the next n writes delivered and acknowledged. */
  predicate Healthy(l: Line, n: nat) {
    |l.script| >= n && forall i :: 0 <= i < n ==> l.script[i].answered && l.script[i].delivered && l.script[i].acked
  }

  lemma HealthyUse(l: Line, n: nat)
    requires Healthy(l, n) && n > 0
    ensures l.Next() == l.script[0] && Healthy(l.Used(), n - 1)
  {
    assert forall i :: 0 <= i < n - 1 ==> l.Used().script[i] == l.script[i + 1];
  }

  lemma HealthyPoll(l: Line, n: nat)
    requires Healthy(l, n) && n > 0
    ensures var (l', ok) := Poll(l);
            && ok && l'.relays == l.relays == l'.cacheB && l'.cacheA == l.script[0].inputs
            && Healthy(l', n - 1)
  {
    HealthyUse(l, n);
  }

  /** Then pins are switched, three uses of the line later. */
  lemma HealthyRewrite(l: Line, pins: Port, n: nat)
    requires Healthy(l, n) && n >= 3
    ensures var (l', ok) := SetPins(l, pins); ok && l'.relays == l.relays + pins && Healthy(l', n - 3)
    ensures var (l', ok) := ClearPins(l, pins); ok && l'.relays == l.relays - pins && Healthy(l', n - 3)
  {
    HealthyPoll(l, n);
    var l1 := Poll(l).0;
    HealthyPoll(l1, n - 1);
    var l2 := Poll(l1).0;
    HealthyUse(l2, n - 2);
    assert StableRead(l) == (l2, true) && l2.cacheB == l.relays;
  }

  // ----- What the double read buys

  /**
    Were readings wrong: whatever the two reads before a pin write bring, pins other than
    its own are switched exactly when both are wrong about them, in the same way, and the
    write gets through. With true readings the pin writes are those above.
  */
  lemma OnlyTwinMisreadsSwitchForeignPins(l: Line, one: Reading, two: Reading, pins: Port, on: bool)
    ensures var l' := Rewrite(StableReadOf(l, one, two), pins, on).0;
            l'.relays - pins != l.relays - pins <==>
            && one.Read? && two.Read? && one.outputs == two.outputs
            && one.outputs - pins != l.relays - pins
            && l.Used().Used().Next().delivered
    ensures SetPins(l, pins) == Rewrite(StableReadOf(l, Truth(l), Truth(l.Used())), pins, true)
    ensures ClearPins(l, pins) == Rewrite(StableReadOf(l, Truth(l), Truth(l.Used())), pins, false)
  {
    var (seen, ok) := StableReadOf(l, one, two);
    if ok {
      var sent := if on then seen.cacheB + pins else seen.cacheB - pins;
      assert sent - pins == two.outputs - pins;
    }
  }

  // ----- Ports as bytes

  type Byte = bv8

  function Weight(i: nat): (w: Byte)
    ensures w & (w - 1) == 0
  {
    match i
    case 0 => 1
    case 1 => 2
    case 2 => 4
    case 3 => 8
    case 4 => 16
    case 5 => 32
    case 6 => 64
    case 7 => 128
    case _ => 0
  }

  predicate Raised(b: Byte, weight: Byte) {
    b & weight != 0
  }

  function Bits(b: Byte): Port {
    set i: nat | i < 8 && Raised(b, Weight(i))
  }

  lemma RaisedByOr(b: Byte, c: Byte, weight: Byte)
    ensures Raised(b | c, weight) <==> Raised(b, weight) || Raised(c, weight)
  {
  }

  lemma RaisedByAndNot(b: Byte, c: Byte, weight: Byte)
    requires weight & (weight - 1) == 0
    ensures Raised(b & !c, weight) <==> Raised(b, weight) && !Raised(c, weight)
  {
  }

  /** Bit i is the one that a shift by i brings to the end, */
  lemma BitIsShift(b: Byte, i: nat)
    ensures i in Bits(b) <==> i < 8 && (b >> i) & 1 == 1
  {
    if i < 8 {
      LastBit(b, Weight(i), b >> i);
    }
  }

  lemma LastBit(b: Byte, weight: Byte, shifted: Byte)
    requires weight & (weight - 1) == 0 && weight != 0 && shifted == b / weight
    ensures Raised(b, weight) <==> shifted & 1 == 1
  {
  }

  /** and a byte is told by its bits. */
  lemma BitsTellTheByte(b: Byte, c: Byte)
    requires Bits(b) == Bits(c)
    ensures b == c
  {
    forall i: nat | i < 8
      ensures Raised(b, Weight(i)) <==> Raised(c, Weight(i))
    {
      assert i in Bits(b) <==> i in Bits(c);
    }
    AllEight(b, c);
  }

  lemma AllEight(b: Byte, c: Byte)
    requires forall i: nat | i < 8 :: Raised(b, Weight(i)) <==> Raised(c, Weight(i))
    ensures b == c
  {
    assert Raised(b, Weight(0)) <==> Raised(c, Weight(0));
    assert Raised(b, Weight(1)) <==> Raised(c, Weight(1));
    assert Raised(b, Weight(2)) <==> Raised(c, Weight(2));
    assert Raised(b, Weight(3)) <==> Raised(c, Weight(3));
    assert Raised(b, Weight(4)) <==> Raised(c, Weight(4));
    assert Raised(b, Weight(5)) <==> Raised(c, Weight(5));
    assert Raised(b, Weight(6)) <==> Raised(c, Weight(6));
    assert Raised(b, Weight(7)) <==> Raised(c, Weight(7));
  }

  /** What the source computes on bytes is what the model computes on sets of bits. */
  lemma BytesAreSetsOfBits(b: Byte, c: Byte)
    ensures Bits(b | c) == Bits(b) + Bits(c)
    ensures Bits(b & !c) == Bits(b) - Bits(c)
  {
    forall i: nat | i < 8
      ensures i in Bits(b | c) <==> i in Bits(b) + Bits(c)
      ensures i in Bits(b & !c) <==> i in Bits(b) - Bits(c)
    {
      var w := Weight(i);
      RaisedByOr(b, c, w);
      RaisedByAndNot(b, c, w);
    }
  }

  // ----- What the echo and the left-over check buy

  /** The four bytes the board answers to the queries of port A and port B. */
  function Answer(a: Byte, b: Byte): seq<Byte> {
    [0x00, a, 0x01, b]
  }

  datatype Decoded = Rejected | State(a: Byte, b: Byte)

  /**
    The check of both replies. `stream` is everything the line will bring, of which
    `arrived` bytes are there when the left-over bytes are asked for, right after the
    fourth was read: each reply starts with the echo of its query, nothing is left over.
  */
  function Decode(stream: seq<Byte>, arrived: nat): Decoded {
    if |stream| < 4 || stream[0] != 0x00 || stream[2] != 0x01 || arrived > 4 then Rejected
    else State(stream[1], stream[3])
  }

  /** A state is believed that the board did not send. */
  predicate Misread(a: Byte, b: Byte, stream: seq<Byte>, arrived: nat) {
    Decode(stream, arrived).State? && Decode(stream, arrived) != State(a, b)
  }

  /** As many bytes have arrived as were read, and no more than there are. */
  predicate Arrived(stream: seq<Byte>, arrived: nat) {
    arrived <= |stream| && (|stream| >= 4 ==> arrived >= 4)
  }

  /** `s` is what remains of `t` when some bytes are struck out. */
  predicate StruckOut(s: seq<Byte>, t: seq<Byte>) {
    if s == [] then true
    else if t == [] then false
    else if s[0] == t[0] && StruckOut(s[1..], t[1..]) then true
    else StruckOut(s, t[1..])
  }

  lemma {:induction false} StruckOutShortens(s: seq<Byte>, t: seq<Byte>)
    requires StruckOut(s, t)
    ensures |s| <= |t|
    ensures |s| == |t| ==> s == t
    decreases |t|
  {
    if s != [] {
      if s[0] == t[0] && StruckOut(s[1..], t[1..]) {
        StruckOutShortens(s[1..], t[1..]);
        assert s == [s[0]] + s[1..] && t == [t[0]] + t[1..];
      } else {
        StruckOutShortens(s, t[1..]);
      }
    }
  }

  /**
    Whatever the line brings, a wrong state is believed exactly when the first four bytes
    echo both queries around it and nothing more has arrived yet.
  */
  lemma MisreadExactly(a: Byte, b: Byte, stream: seq<Byte>, arrived: nat)
    requires Arrived(stream, arrived)
    ensures Misread(a, b, stream, arrived) <==>
            && arrived == 4 && stream[0] == 0x00 && stream[2] == 0x01
            && (stream[1] != a || stream[3] != b)
  {
  }

  /**
    However many stray bytes come in between, or however many bytes get lost: once the
    whole reply has arrived, it is either rejected or read as what the board sent.
  */
  lemma StrayOrLostBytesAreCaught(a: Byte, b: Byte, stream: seq<Byte>, arrived: nat)
    requires StruckOut(Answer(a, b), stream) || StruckOut(stream, Answer(a, b))
    requires Arrived(stream, arrived)
    ensures Misread(a, b, stream, arrived) ==> StruckOut(Answer(a, b), stream) && 4 == arrived < |stream|
    ensures arrived == |stream| ==> (Decode(stream, arrived) == State(a, b) <==> stream == Answer(a, b))
  {
    if |stream| == 4 {
      if StruckOut(Answer(a, b), stream) {
        StruckOutShortens(Answer(a, b), stream);
      } else {
        StruckOutShortens(stream, Answer(a, b));
      }
    } else if |stream| > 4 && StruckOut(stream, Answer(a, b)) {
      StruckOutShortens(stream, Answer(a, b));
    }
  }

  /** The answer with one stray byte before its i-th byte. */
  function WithStray(a: Byte, b: Byte, i: nat, stray: Byte): seq<Byte>
    requires i <= 4
  {
    Answer(a, b)[..i] + [stray] + Answer(a, b)[i..]
  }

  /**
    One stray byte and nothing lost is misread exactly when the last byte is still on the
    line and the stray one stands before it, or what follows it passes for the echo of B.
  */
  lemma OneStrayByteIsMisread(a: Byte, b: Byte, i: nat, stray: Byte, arrived: nat)
    requires i <= 4 && Arrived(WithStray(a, b, i, stray), arrived)
    ensures Misread(a, b, WithStray(a, b, i, stray), arrived) <==>
            arrived == 4 &&
            match i
            case 0 => stray == 0x00 && a == 0x01
            case 1 => a == 0x01 && (stray != 0x01 || b != 0x01)
            case 2 => stray == 0x01 && b != 0x01
            case 3 => stray != b
            case _ => false
  {
    var s := WithStray(a, b, i, stray);
    var t := Answer(a, b);
    assert s[i] == stray;
    assert forall k :: 0 <= k < i ==> s[k] == t[k];
    assert forall k :: i <= k < 4 ==> s[k + 1] == t[k];
    if i == 0 {
      assert s[1] == 0x00 && s[2] == a && s[3] == 0x01;
    } else if i == 1 {
      assert s[2] == a && s[3] == 0x01;
    } else if i == 2 {
      assert s[3] == 0x01;
    }
  }

  /** So a port state is misread with nothing lost: the byte before the last one is believed. */
  lemma StrayStateIsBelieved(a: Byte, b: Byte, stray: Byte)
    requires stray != b
    ensures WithStray(a, b, 3, stray) == [0x00, a, 0x01, stray, b]
    ensures Decode(WithStray(a, b, 3, stray), 4) == State(a, stray) != State(a, b)
  {
  }

  /** And with a byte lost and another one put in its place, however long it is waited for. */
  lemma ReplacedByteIsBelieved(a: Byte, b: Byte, stream: seq<Byte>)
    requires |stream| == 4
    ensures Misread(a, b, stream, 4) <==> exists x, y :: stream == Answer(x, y) && (x != a || y != b)
  {
    if Misread(a, b, stream, 4) {
      assert stream == Answer(stream[1], stream[3]);
    }
  }

  /** The connection: the fields the source keeps and updates in place. */
  class FordConn {
    var relays: Port
    const stav: array<Port>
    var now: int
    var script: seq<Exchange>
    ghost var history: seq<Port>

    ghost predicate Valid()
      reads this
    {
      stav.Length == 3
    }

    ghost function Model(): Line
      requires Valid()
      reads this, stav
    {
      Line(relays, stav[0], stav[1], now, script, history)
    }

    constructor (relays: Port, now: int, script: seq<Exchange>)
      ensures Valid() && fresh(stav)
      ensures Model() == Line(relays, {}, {}, now, script, [relays])
    {
      this.relays, this.now, this.script, this.history := relays, now, script, [relays];
      stav := new Port[3](_ => {});
    }

    method Take() returns (e: Exchange)
      requires Valid()
      modifies this`now, this`script
      ensures e == old(Model()).Next() && Model() == old(Model()).Used()
    {
      e := if script == [] then DEAD else script[0];
      script := if script == [] then [] else script[1..];
      now := now + e.elapsed;
    }

    method Sleep(seconds: nat)
      requires Valid()
      modifies this`now
      ensures Model() == old(Model()).Sleep(seconds)
    {
      now := now + seconds;
    }

    method ReadPorts() returns (ok: bool)
      requires Valid()
      modifies this`now, this`script, stav
      ensures (Model(), ok) == Poll(old(Model()))
    {
      var e := Take();
      ok := e.answered;
      if ok {
        stav[0], stav[1] := e.inputs, relays;
      }
    }

    method ReadStablePort() returns (ok: bool)
      requires Valid()
      modifies this`now, this`script, stav
      ensures (Model(), ok) == StableRead(old(Model()))
    {
      ok := ReadPorts();
      if ok {
        var first := stav[1];
        ok := ReadPorts();
        if ok && stav[1] != first {
          ok := false;
        }
      }
    }

    method WritePort(port: Port) returns (ok: bool)
      requires Valid()
      modifies this
      ensures (Model(), ok) == Write(old(Model()), port)
    {
      var e := Take();
      if e.delivered {
        relays, history := port, history + [port];
      }
      ok := e.acked;
    }

    method SwitchOn(pins: Port) returns (ok: bool)
      requires Valid()
      modifies this, stav
      ensures (Model(), ok) == SetPins(old(Model()), pins)
    {
      ok := ReadStablePort();
      if ok {
        ok := WritePort(stav[1] + pins);
      }
    }

    method SwitchOff(pins: Port) returns (ok: bool)
      requires Valid()
      modifies this, stav
      ensures (Model(), ok) == ClearPins(old(Model()), pins)
    {
      ok := ReadStablePort();
      if ok {
        ok := WritePort(stav[1] - pins);
      }
    }

    method ReadOutput(pin: nat) returns (on: int)
      requires Valid()
      modifies this`now, this`script, stav
      ensures (Model(), on) == OutputOn(old(Model()), pin)
    {
      var ok := ReadPorts();
      on := if !ok then -1 else if pin in stav[1] then 0 else 1;
    }

    method ReadInput(pin: nat) returns (on: int)
      requires Valid()
      modifies this`now, this`script, stav
      ensures (Model(), on) == InputOn(old(Model()), pin)
    {
      var ok := ReadPorts();
      on := if !ok then -1 else if pin in stav[0] then 0 else 1;
    }
  }
}
