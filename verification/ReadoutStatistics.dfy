/**
  The running statistics of a readout (base/camd/include/camd.h and base/camd/src/camd.cpp):
  sum, extremes, pixel count, average and most frequent value, updated chunk by chunk.
*/
module ReadoutStatistics {
  datatype Option<+T> = None | Some(value: T)

  /** The integer pixel formats; only 16-bit unsigned data get a histogram. */
  datatype Format = Byte | SByte | Short | UShort | Long | ULong | LongLong

  datatype Wanted = Yes | NoMode | Only | No

  const LEVELS := 0x1_0000
  const COUNTER := 0x1_0000_0000           // the histogram counts in 32 bits
  const LIMIT := 0x8000_0000_0000_0000     // LONG_MAX as a double

  predicate Fits(f: Format, p: int) {
    match f
    case Byte => 0 <= p < 0x100
    case SByte => -0x80 <= p < 0x80
    case Short => -0x8000 <= p < 0x8000
    case UShort => 0 <= p < LEVELS
    case Long => -0x8000_0000 <= p < 0x8000_0000
    case ULong => 0 <= p < COUNTER
    case LongLong => -LIMIT <= p < LIMIT
  }

  function Blank(n: nat): (h: seq<nat>)
    ensures |h| == n && forall v :: 0 <= v < n ==> h[v] == 0
  {
    if n == 0 then [] else Blank(n - 1) + [0]
  }

  type Histogram = h: seq<nat> | |h| == LEVELS witness Blank(LEVELS)

  function NoCounts(): Histogram {
    Blank(LEVELS)
  }

  /** The values shown; `mode` and `average` are empty for NaN. */
  datatype Stats = Stats(sum: int, min: int, max: int, pixels: nat, average: Option<real>,
                         mode: Option<nat>, counts: Option<Histogram>)

  // ----- One pass over a chunk

  function Sum(s: seq<int>): int {
    if s == [] then 0 else Sum(s[..|s| - 1]) + s[|s| - 1]
  }

  function Least(s: seq<int>, start: int): int {
    if s == [] then start
    else
      var m := Least(s[..|s| - 1], start);
      if s[|s| - 1] < m then s[|s| - 1] else m
  }

  function Greatest(s: seq<int>, start: int): int {
    if s == [] then start
    else
      var m := Greatest(s[..|s| - 1], start);
      if s[|s| - 1] > m then s[|s| - 1] else m
  }

  /** One more in an unsigned 32-bit counter. */
  function Next(c: nat): nat {
    if c + 1 == COUNTER then 0 else c + 1
  }

  function Counted(h: Histogram, p: int): Histogram {
    if 0 <= p < LEVELS then h[p := Next(h[p])] else h
  }

  /** One count more for every pixel, wrapping around after 32 bits. */
  function Tally(h: Histogram, s: seq<int>): Histogram {
    if s == [] then h else Counted(Tally(h, s[..|s| - 1]), s[|s| - 1])
  }

  function Count(s: seq<int>, v: int): (n: nat)
    ensures n <= |s|
  {
    if s == [] then 0 else Count(s[..|s| - 1], v) + if s[|s| - 1] == v then 1 else 0
  }

  /** A histogram is begun for 16-bit unsigned data unless no mode is wanted, dropped otherwise. */
  function Prepared(counts: Option<Histogram>, f: Format, w: Wanted): Option<Histogram> {
    if f == UShort && w != NoMode then
      if counts.None? then Some(NoCounts()) else counts
    else None
  }

  /** The smallest of the most frequent values below n, if any occurs at all. */
  function MostFrequent(h: Histogram, n: nat): (m: Option<nat>)
    requires n <= LEVELS
    ensures m.None? <==> forall v :: 0 <= v < n ==> h[v] == 0
    ensures m.Some? ==> m.value < n && h[m.value] > 0
    ensures m.Some? ==> forall v :: 0 <= v < n ==> h[v] <= h[m.value]
    ensures m.Some? ==> forall v :: 0 <= v < m.value ==> h[v] < h[m.value]
  {
    if n == 0 then None
    else
      var m := MostFrequent(h, n - 1);
      if h[n - 1] > (if m.None? then 0 else h[m.value]) then Some(n - 1) else m
  }

  function Mode(counts: Option<Histogram>, before: Option<nat>): Option<nat> {
    if counts.None? then None
    else
      var m := MostFrequent(counts.value, LEVELS);
      if m.None? then before else m
  }

  function Average(sum: int, pixels: nat): Option<real> {
    if pixels == 0 then None else Some(sum as real / pixels as real)
  }

  /** updateStatistics. */
  function Update(s: Stats, f: Format, w: Wanted, data: seq<int>): Stats
  {
    var counts := Prepared(s.counts, f, w);
    s.(sum := s.sum + Sum(data), min := Least(data, s.min), max := Greatest(data, s.max),
       counts := if counts.None? then None else Some(Tally(counts.value, data)))
  }

  /** sendReadoutData, as far as the statistics go. */
  function Chunk(s: Stats, f: Format, w: Wanted, data: seq<int>): Stats
  {
    if w == No then s.(pixels := s.pixels + |data|)
    else
      var s := Update(s, f, w, data);
      var pixels := s.pixels + |data|;
      s.(pixels := pixels, average := Average(s.sum, pixels), mode := Mode(s.counts, s.mode))
  }

  /** sendFirstLine. */
  function FirstLine(s: Stats): Stats {
    s.(sum := 0, average := Some(0.0), max := -LIMIT, min := LIMIT, pixels := 0)
  }

  /** endExposure: the histogram, and nothing else, starts anew. */
  function EndExposure(s: Stats): Stats {
    if s.counts.None? then s else s.(counts := Some(NoCounts()))
  }

  function Flatten(chunks: seq<seq<int>>): seq<int> {
    if chunks == [] then [] else Flatten(chunks[..|chunks| - 1]) + chunks[|chunks| - 1]
  }

  function Chunks(s: Stats, f: Format, w: Wanted, chunks: seq<seq<int>>): Stats
  {
    if chunks == [] then s
    else Chunk(Chunks(s, f, w, chunks[..|chunks| - 1]), f, w, chunks[|chunks| - 1])
  }

  // ----- Two chunks are as good as one

  lemma {:induction false} FoldsSplit(a: seq<int>, b: seq<int>, low: int, high: int, h: Histogram)
    ensures Sum(a + b) == Sum(a) + Sum(b)
    ensures Least(a + b, low) == Least(b, Least(a, low))
    ensures Greatest(a + b, high) == Greatest(b, Greatest(a, high))
    ensures Tally(h, a + b) == Tally(Tally(h, a), b)
  {
    if b == [] {
      assert a + b == a;
    } else {
      var n := |b| - 1;
      FoldsSplit(a, b[..n], low, high, h);
      assert (a + b)[..|a + b| - 1] == a + b[..n];
    }
  }

  lemma NextWraps(c: nat)
    ensures Next(c % COUNTER) == (c + 1) % COUNTER
  {
    var q, r := c / COUNTER, c % COUNTER;
    assert c + 1 == q * COUNTER + (r + 1);
  }

  /** What the histogram holds: how often each value came, in 32 bits. */
  lemma {:induction false} TallyCounts(h: Histogram, s: seq<int>, v: nat)
    requires v < LEVELS && h[v] < COUNTER
    ensures Tally(h, s)[v] == (h[v] + Count(s, v)) % COUNTER
  {
    if s != [] {
      var n := |s| - 1;
      TallyCounts(h, s[..n], v);
      NextWraps(h[v] + Count(s[..n], v));
    }
  }

  lemma {:induction false} TallyCountsExactly(h: Histogram, s: seq<int>, v: nat)
    requires v < LEVELS && h[v] + |s| < COUNTER
    ensures Tally(h, s)[v] == h[v] + Count(s, v)
  {
    if s != [] {
      TallyCountsExactly(h, s[..|s| - 1], v);
    }
  }

  /** No counter can wrap around within so many pixels. */
  predicate Room(h: Histogram, more: nat) {
    forall v :: 0 <= v < LEVELS ==> h[v] + more < COUNTER
  }

  /** Once something is counted, more pixels do not uncount it. */
  lemma CountsStay(h: Histogram, a: seq<int>, b: seq<int>)
    requires Room(h, |a| + |b|)
    requires MostFrequent(Tally(Tally(h, a), b), LEVELS).None?
    ensures MostFrequent(Tally(h, a), LEVELS).None?
  {
    var ha := Tally(h, a);
    var hb := Tally(ha, b);
    forall v | 0 <= v < LEVELS ensures ha[v] == 0 {
      TallyCountsExactly(h, a, v);
      TallyCountsExactly(ha, b, v);
      assert hb[v] == 0;
    }
  }

  lemma ModeOfTwo(h: Histogram, a: seq<int>, b: seq<int>, before: Option<nat>)
    requires Room(h, |a| + |b|)
    ensures var ha := Tally(h, a);
            var hb := Tally(ha, b);
            Mode(Some(hb), Mode(Some(ha), before)) == Mode(Some(hb), before)
  {
    if MostFrequent(Tally(Tally(h, a), b), LEVELS).None? {
      CountsStay(h, a, b);
    }
  }

  lemma TwoChunksAreOne(s: Stats, f: Format, w: Wanted, a: seq<int>, b: seq<int>)
    requires s.counts.Some? ==> Room(s.counts.value, |a| + |b|)
    requires |a| + |b| < COUNTER
    ensures Chunk(Chunk(s, f, w, a), f, w, b) == Chunk(s, f, w, a + b)
  {
    var counts := Prepared(s.counts, f, w);
    var h := if counts.Some? then counts.value else NoCounts();
    FoldsSplit(a, b, s.min, s.max, h);
    if counts.Some? {
      ModeOfTwo(h, a, b, s.mode);
    }
  }

  /** However an image is split into chunks, all that is shown at the end is as after one. */
  lemma {:induction false} ChunksDoNotMatter(s: Stats, f: Format, w: Wanted, chunks: seq<seq<int>>)
    requires chunks != [] && |Flatten(chunks)| < COUNTER
    requires s.counts.Some? ==> Room(s.counts.value, |Flatten(chunks)|)
    ensures Chunks(s, f, w, chunks) == Chunk(s, f, w, Flatten(chunks))
  {
    var n := |chunks| - 1;
    if n == 0 {
      assert Flatten(chunks) == [] + chunks[0] == chunks[0];
      assert Chunks(s, f, w, chunks[..0]) == s;
    } else {
      ChunksDoNotMatter(s, f, w, chunks[..n]);
      TwoChunksAreOne(s, f, w, Flatten(chunks[..n]), chunks[n]);
    }
  }

  // ----- What is shown

  ghost predicate IsMode(image: seq<int>, m: int) {
    && Count(image, m) > 0
    && (forall v :: Count(image, v) <= Count(image, m))
    && (forall v :: v < m ==> Count(image, v) < Count(image, m))
  }

  predicate AllFit(f: Format, image: seq<int>) {
    forall i :: 0 <= i < |image| ==> Fits(f, image[i])
  }

  lemma {:induction false} ExtremesAreReached(f: Format, image: seq<int>)
    requires AllFit(f, image)
    ensures -LIMIT <= Least(image, LIMIT) <= LIMIT && -LIMIT <= Greatest(image, -LIMIT) <= LIMIT
    ensures forall i :: 0 <= i < |image| ==> Least(image, LIMIT) <= image[i] <= Greatest(image, -LIMIT)
    ensures image != [] ==> (exists i :: 0 <= i < |image| && image[i] == Least(image, LIMIT))
    ensures image != [] ==> (exists i :: 0 <= i < |image| && image[i] == Greatest(image, -LIMIT))
  {
    if image != [] {
      var n := |image| - 1;
      var before := image[..n];
      ExtremesAreReached(f, before);
      assert Fits(f, image[n]);
      assert forall i :: 0 <= i < n ==> image[i] == before[i];
      if n == 0 {
        FirstExtremes(f, image);
      }
    }
  }

  lemma FirstExtremes(f: Format, image: seq<int>)
    requires |image| == 1 && Fits(f, image[0])
    ensures Least(image, LIMIT) == image[0] == Greatest(image, -LIMIT)
  {
    assert image[..0] == [];
  }

  /** The sum lies between as many times the least and as many times the greatest value. */
  lemma {:induction false} SumIsBetween(image: seq<int>, low: int, high: int)
    requires forall i :: 0 <= i < |image| ==> low <= image[i] <= high
    ensures low * |image| <= Sum(image) <= high * |image|
  {
    if image != [] {
      var n := |image| - 1;
      SumIsBetween(image[..n], low, high);
      assert low * |image| == low * n + low && high * |image| == high * n + high;
    }
  }

  lemma {:induction false} CountsWithin(image: seq<int>, v: int)
    requires AllFit(UShort, image)
    ensures Count(image, v) > 0 ==> 0 <= v < LEVELS
    ensures image != [] ==> Count(image, image[0]) > 0
  {
    if image != [] {
      var before := image[..|image| - 1];
      CountsWithin(before, v);
      assert Fits(UShort, image[|image| - 1]);
      assert before != [] ==> before[0] == image[0];
    }
  }

  lemma HistogramFindsMode(image: seq<int>)
    requires AllFit(UShort, image) && 0 < |image| < COUNTER
    ensures var m := MostFrequent(Tally(NoCounts(), image), LEVELS);
            m.Some? && IsMode(image, m.value)
  {
    var h := Tally(NoCounts(), image);
    forall v | 0 <= v < LEVELS ensures h[v] == Count(image, v) {
      TallyCountsExactly(NoCounts(), image, v);
    }
    forall v ensures Count(image, v) > 0 ==> 0 <= v < LEVELS {
      CountsWithin(image, v);
    }
    CountsWithin(image, 0);
    assert h[image[0]] > 0;
  }

  /**
    One image read after its own exposure: the exact sum, extremes that are reached,
    the average, and for 16-bit unsigned data the smallest most frequent value.
  */
  lemma ImageStatistics(s: Stats, f: Format, w: Wanted, chunks: seq<seq<int>>)
    requires w != No && chunks != []
    requires var image := Flatten(chunks); AllFit(f, image) && 0 < |image| < COUNTER
    ensures var image := Flatten(chunks);
            var r := Chunks(FirstLine(EndExposure(s)), f, w, chunks);
            && r.sum == Sum(image) && r.pixels == |image|
            && r.average == Some(Sum(image) as real / |image| as real)
            && (forall i :: 0 <= i < |image| ==> r.min <= image[i] <= r.max)
            && (exists i :: 0 <= i < |image| && image[i] == r.min)
            && (exists i :: 0 <= i < |image| && image[i] == r.max)
            && r.min * |image| <= r.sum <= r.max * |image|
            && if f == UShort && w != NoMode then r.mode.Some? && IsMode(image, r.mode.value) else r.mode == None
  {
    var s0 := FirstLine(EndExposure(s));
    ChunksDoNotMatter(s0, f, w, chunks);
    var image := Flatten(chunks);
    ExtremesAreReached(f, image);
    SumIsBetween(image, Least(image, LIMIT), Greatest(image, -LIMIT));
    if f == UShort && w != NoMode {
      assert Prepared(s0.counts, f, w) == Some(NoCounts());
      HistogramFindsMode(image);
    }
  }

  // ----- Any order of calls

  datatype Event = LineSent | ExposureEnded | Data(pixels: seq<int>)

  function Step(s: Stats, f: Format, w: Wanted, e: Event): Stats {
    match e
    case LineSent => FirstLine(s)
    case ExposureEnded => EndExposure(s)
    case Data(pixels) => Chunk(s, f, w, pixels)
  }

  function Run(s: Stats, f: Format, w: Wanted, events: seq<Event>): Stats {
    if events == [] then s else Step(Run(s, f, w, events[..|events| - 1]), f, w, events[|events| - 1])
  }

  /** Data are added, the marker starts anew. */
  function Grow(marker: Event, sofar: seq<int>, e: Event): seq<int> {
    if e.Data? then sofar + e.pixels else if e == marker then [] else sofar
  }

  /** The data since the last line sent, or since the last exposure ended. */
  function Since(marker: Event, events: seq<Event>): seq<int> {
    if events == [] then [] else Grow(marker, Since(marker, events[..|events| - 1]), events[|events| - 1])
  }

  /** The sums are those of `line`, the histogram and the mode those of `shot`. */
  predicate Shows(r: Stats, f: Format, w: Wanted, line: seq<int>, shot: seq<int>) {
    && r.sum == Sum(line) && r.pixels == |line|
    && r.min == Least(line, LIMIT) && r.max == Greatest(line, -LIMIT)
    && (f == UShort && w != NoMode ==>
          if r.counts.None? then shot == [] else r.counts.value == Tally(NoCounts(), shot))
  }

  lemma StepShows(r: Stats, f: Format, w: Wanted, line: seq<int>, shot: seq<int>, e: Event)
    requires w != No && Shows(r, f, w, line, shot)
    ensures var s := Step(r, f, w, e);
            var m := MostFrequent(Tally(NoCounts(), Grow(ExposureEnded, shot, e)), LEVELS);
            && Shows(s, f, w, Grow(LineSent, line, e), Grow(ExposureEnded, shot, e))
            && (e.Data? ==> if f == UShort && w != NoMode then m.Some? ==> s.mode == m else s.mode == None)
            && (e.Data? ==> s.average == Average(Sum(Grow(LineSent, line, e)), |Grow(LineSent, line, e)|))
            && (e.LineSent? ==> s.average == Some(0.0))
            && (e.ExposureEnded? ==> s == r.(counts := s.counts))
  {
    if e.Data? {
      FoldsSplit(line, e.pixels, LIMIT, -LIMIT, NoCounts());
      FoldsSplit(shot, e.pixels, LIMIT, -LIMIT, NoCounts());
    }
  }

  /**
    In any run of calls the sums belong to the data since the last line was sent, but
    the histogram and the mode to the data since the last exposure ended. With frame
    transfer an exposure may end while the image before it is still being read; its
    mode then leaves out all that came earlier.
  */
  lemma {:induction false} HistogramFollowsTheExposure(s: Stats, f: Format, w: Wanted, events: seq<Event>)
    requires w != No
    ensures var r := Run(FirstLine(EndExposure(s)), f, w, events);
            var shot := Since(ExposureEnded, events);
            var m := MostFrequent(Tally(NoCounts(), shot), LEVELS);
            && Shows(r, f, w, Since(LineSent, events), shot)
            && (events != [] && events[|events| - 1].Data? ==>
                  r.average == Average(Sum(Since(LineSent, events)), |Since(LineSent, events)|))
            && (events != [] && events[|events| - 1].LineSent? ==> r.average == Some(0.0))
            && (events != [] && events[|events| - 1].Data? ==>
                  if f == UShort && w != NoMode then m.Some? ==> r.mode == m else r.mode == None)
  {
    if events != [] {
      var n := |events| - 1;
      var before := events[..n];
      HistogramFollowsTheExposure(s, f, w, before);
      StepShows(Run(FirstLine(EndExposure(s)), f, w, before), f, w,
                Since(LineSent, before), Since(ExposureEnded, before), events[n]);
    }
  }

  /** With statistics off the pixels are counted, and nothing else is. */
  lemma OffCountsPixels(s: Stats, f: Format, one: seq<int>, two: seq<int>)
    ensures Chunk(Chunk(s, f, No, one), f, No, two) == s.(pixels := s.pixels + |one| + |two|)
  {
  }

  /** An exposure ends between two chunks of the image before it. */
  function EndedBetween(): seq<Event> {
    [LineSent] + [Data([5, 5])] + [ExposureEnded] + [Data([7])]
  }

  lemma SinceOn(marker: Event, events: seq<Event>, e: Event)
    ensures Since(marker, events + [e]) == Grow(marker, Since(marker, events), e)
  {
    assert (events + [e])[..|events|] == events;
  }

  lemma EndedBetweenSplits()
    ensures Since(LineSent, EndedBetween()) == [5, 5, 7] && Since(ExposureEnded, EndedBetween()) == [7]
  {
    var line := [LineSent];
    forall marker | marker in [LineSent, ExposureEnded]
      ensures Since(marker, EndedBetween()) == if marker == LineSent then [5, 5, 7] else [7]
    {
      SinceOn(marker, [], LineSent);
      assert [] + line == line;
      SinceOn(marker, line, Data([5, 5]));
      SinceOn(marker, line + [Data([5, 5])], ExposureEnded);
      SinceOn(marker, line + [Data([5, 5])] + [ExposureEnded], Data([7]));
    }
  }

  lemma CountOn(s: seq<int>, p: int, v: int)
    ensures Count(s + [p], v) == Count(s, v) + if p == v then 1 else 0
  {
    assert (s + [p])[..|s|] == s;
  }

  lemma ModeOfThree()
    ensures IsMode([5, 5, 7], 5) && (forall m :: IsMode([7], m) ==> m == 7)
  {
    forall v ensures Count([5, 5, 7], v) == (if v == 5 then 2 else if v == 7 then 1 else 0)
             ensures Count([7], v) == if v == 7 then 1 else 0 {
      assert [] + [5] == [5] && [5] + [5] == [5, 5] && [5, 5] + [7] == [5, 5, 7] && [] + [7] == [7];
      CountOn([], 5, v);
      CountOn([5], 5, v);
      CountOn([5, 5], 7, v);
      CountOn([], 7, v);
    }
  }

  /** There the value shown as the mode leaves out the pixels read before: 7, where it is 5. */
  lemma ModeLeavesOut(s: Stats)
    ensures var r := Run(FirstLine(EndExposure(s)), UShort, Yes, EndedBetween());
            r.sum == Sum([5, 5, 7]) && r.pixels == 3 && r.mode == Some(7) && IsMode([5, 5, 7], 5)
  {
    HistogramFollowsTheExposure(s, UShort, Yes, EndedBetween());
    EndedBetweenSplits();
    HistogramFindsMode([7]);
    ModeOfThree();
  }

  lemma {:induction false} LeastAtMostStart(s: seq<int>, low: int, high: int)
    ensures Least(s, low) <= low && high <= Greatest(s, high)
  {
    if s != [] {
      LeastAtMostStart(s[..|s| - 1], low, high);
    }
  }

  // ----- The camera's own fields

  /** Every method does exactly what its function says, counting in place. */
  class Readout {
    var sum: int
    var min: int
    var max: int
    var computedPix: nat
    var average: Option<real>
    var mode: Option<nat>
    var modeCount: array?<nat>

    ghost predicate Valid()
      reads this
    {
      modeCount != null ==> modeCount.Length == LEVELS
    }

    ghost function Model(): Stats
      requires Valid()
      reads this, modeCount
    {
      Stats(sum, min, max, computedPix, average, mode, if modeCount == null then None else Some(modeCount[..]))
    }

    constructor ()
      ensures Valid() && Model() == Stats(0, 0, 0, 0, None, None, None)
    {
      sum, min, max, computedPix, average, mode, modeCount := 0, 0, 0, 0, None, None, null;
    }

    method PrepareHistogram(f: Format, w: Wanted)
      requires Valid()
      modifies `modeCount
      ensures Valid() && Model() == old(Model()).(counts := Prepared(old(Model()).counts, f, w))
      ensures modeCount == null || modeCount == old(modeCount) || fresh(modeCount)
    {
      if f == UShort {
        if w != NoMode {
          if modeCount == null {
            modeCount := new nat[LEVELS](_ => 0);
            assert modeCount[..] == NoCounts();
          }
        } else if modeCount != null {
          modeCount := null;
        }
      } else if modeCount != null {
        modeCount := null;
      }
    }

    /** The walk over the buffer, one pixel at a time. */
    method Walk(data: seq<int>) returns (tSum: int, tMin: int, tMax: int, pixNum: nat)
      requires Valid()
      modifies modeCount
      ensures tSum == Sum(data) && tMin == Least(data, min) && tMax == Greatest(data, max) && pixNum == |data|
      ensures modeCount != null ==> modeCount[..] == Tally(old(modeCount[..]), data)
    {
      tSum, tMin, tMax, pixNum := 0, min, max, 0;
      while pixNum < |data|
        invariant pixNum <= |data|
        invariant tSum == Sum(data[..pixNum])
        invariant tMin == Least(data[..pixNum], min) && tMax == Greatest(data[..pixNum], max)
        invariant modeCount != null ==> modeCount[..] == Tally(old(modeCount[..]), data[..pixNum])
      {
        assert data[..pixNum + 1][..pixNum] == data[..pixNum];
        var p := data[pixNum];
        tSum := tSum + p;
        if p < tMin {
          tMin := p;
        }
        if p > tMax {
          tMax := p;
        }
        if modeCount != null && 0 <= p < LEVELS {
          modeCount[p] := Next(modeCount[p]);
        }
        pixNum := pixNum + 1;
      }
      assert data[..|data|] == data;
    }

    method UpdateStatistics(f: Format, w: Wanted, data: seq<int>) returns (pixNum: nat)
      requires Valid()
      modifies this, modeCount
      ensures Valid() && (modeCount == null || modeCount == old(modeCount) || fresh(modeCount))
      ensures Model() == Update(old(Model()), f, w, data) && pixNum == |data|
    {
      PrepareHistogram(f, w);
      var tSum, tMin, tMax;
      tSum, tMin, tMax, pixNum := Walk(data);
      LeastAtMostStart(data, min, max);
      Store(tSum, tMin, tMax);
    }

    method Store(tSum: int, tMin: int, tMax: int)
      modifies `sum, `min, `max
      ensures sum == old(sum) + tSum
      ensures min == (if tMin < old(min) then tMin else old(min)) && max == (if tMax > old(max) then tMax else old(max))
    {
      sum := sum + tSum;
      if tMin < min {
        min := tMin;
      }
      if tMax > max {
        max := tMax;
      }
    }

    /** The scan for the highest count, from the lowest value up. */
    method FindMode()
      requires Valid()
      modifies `mode
      ensures Model() == old(Model()).(mode := Mode(old(Model()).counts, old(mode)))
    {
      if modeCount == null {
        mode := None;
        return;
      }
      ghost var h := Model().counts.value;
      var modeNum := 0;
      for i := 0 to LEVELS
        invariant modeCount[..] == h
        invariant var m := MostFrequent(h, i);
                  if m.None? then mode == old(mode) && modeNum == 0 else mode == m && modeNum == h[m.value]
      {
        if modeCount[i] > modeNum {
          mode, modeNum := Some(i), modeCount[i];
        }
      }
    }

    method ComputeAverage()
      requires Valid()
      modifies `average
      ensures Model() == old(Model()).(average := Average(sum, computedPix))
    {
      average := if computedPix == 0 then None else Some(sum as real / computedPix as real);
    }

    method SendReadoutData(f: Format, w: Wanted, data: seq<int>)
      requires Valid()
      modifies this, modeCount
      ensures Valid() && (modeCount == null || modeCount == old(modeCount) || fresh(modeCount))
      ensures Model() == Chunk(old(Model()), f, w, data)
    {
      if w != No {
        var totPix := UpdateStatistics(f, w, data);
        computedPix := computedPix + totPix;
        ComputeAverage();
        FindMode();
      } else {
        computedPix := computedPix + |data|;
      }
    }

    method SendFirstLine()
      requires Valid()
      modifies this
      ensures Valid() && Model() == FirstLine(old(Model()))
    {
      sum, average, max, min, computedPix := 0, Some(0.0), -LIMIT, LIMIT, 0;
    }

    method ForgetHistogram()
      requires Valid()
      modifies modeCount
      ensures Valid() && Model() == EndExposure(old(Model()))
    {
      if modeCount != null {
        for i := 0 to LEVELS
          invariant forall v :: 0 <= v < i ==> modeCount[v] == 0
        {
          modeCount[i] := 0;
        }
        assert modeCount[..] == NoCounts();
      }
    }
  }
}
