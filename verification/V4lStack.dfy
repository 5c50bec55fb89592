/**
  Stacking, flipping and binning of 8-bit video frames into a 16-bit image
  (base/camd/v4l/v4l.cpp). Buffers are addressed by row and column.
*/
module V4lStack {
  const COUNTER := 0x1_0000_0000           // the accumulator counts in 32 bits

  /** Rows from the top down, two bytes a pixel, of which the even ones are the luma. */
  type Frame = seq<seq<nat>>

  datatype Sensor = Sensor(w: nat, h: nat)

  predicate Shaped(f: Frame, d: Sensor) {
    && |f| == d.h
    && forall y :: 0 <= y < d.h ==> |f[y]| == 2 * d.w && forall x :: 0 <= x < d.w ==> f[y][2 * x] < 256
  }

  predicate AllShaped(frames: seq<Frame>, d: Sensor) {
    forall i :: 0 <= i < |frames| ==> Shaped(frames[i], d)
  }

  predicate Inside(d: Sensor, y: int, x: int) {
    0 <= y < d.h && 0 <= x < d.w
  }

  // ----- What is stacked

  /** The sample of a pixel counted from the bottom up, as images are. */
  function Sample(f: Frame, d: Sensor, y: int, x: int): (s: nat)
    requires Shaped(f, d) && Inside(d, y, x)
    ensures s < 256
  {
    f[d.h - 1 - y][2 * x]
  }

  /** A row as the camera delivers it: every luma byte is followed by one of chroma. */
  function Interleaved(luma: seq<nat>, chroma: seq<nat>): seq<nat>
    requires |luma| == |chroma|
  {
    if luma == [] then [] else [luma[0], chroma[0]] + Interleaved(luma[1..], chroma[1..])
  }

  /** Rows in the other order. */
  function Upended(rows: seq<seq<nat>>): seq<seq<nat>> {
    if rows == [] then [] else Upended(rows[1..]) + [rows[0]]
  }

  lemma {:induction false} InterleavedAt(luma: seq<nat>, chroma: seq<nat>, x: nat)
    requires |luma| == |chroma| && x < |luma|
    ensures |Interleaved(luma, chroma)| == 2 * |luma| && Interleaved(luma, chroma)[2 * x] == luma[x]
  {
    if |luma| > 1 {
      InterleavedAt(luma[1..], chroma[1..], if x > 0 then x - 1 else 0);
    }
  }

  lemma {:induction false} UpendedAt(rows: seq<seq<nat>>, y: nat)
    requires y < |rows|
    ensures |Upended(rows)| == |rows| && Upended(rows)[|rows| - 1 - y] == rows[y]
  {
    if |rows| > 1 {
      UpendedAt(rows[1..], if y > 0 then y - 1 else 0);
    }
  }

  /** So the image comes out the right way up, from the luma alone. */
  lemma ImageStandsUpright(image: seq<seq<nat>>, chroma: seq<seq<nat>>, rows: seq<seq<nat>>, d: Sensor, y: int, x: int)
    requires |image| == |chroma| == |rows| == d.h && Shaped(Upended(rows), d) && Inside(d, y, x)
    requires forall k :: 0 <= k < d.h ==>
               |image[k]| == |chroma[k]| == d.w && rows[k] == Interleaved(image[k], chroma[k])
    ensures Sample(Upended(rows), d, y, x) == image[y][x]
  {
    UpendedAt(rows, y);
    InterleavedAt(image[y], chroma[y], x);
  }

  function Stacked(frames: seq<Frame>, d: Sensor, y: int, x: int): (s: nat)
    requires AllShaped(frames, d) && Inside(d, y, x)
    ensures s <= 255 * |frames|
  {
    if frames == [] then 0
    else
      var n := |frames| - 1;
      Stacked(frames[..n], d, y, x) + Sample(frames[n], d, y, x)
  }

  /** What the 32-bit accumulator holds. */
  function Cell(frames: seq<Frame>, d: Sensor, y: int, x: int): (s: nat)
    requires AllShaped(frames, d) && Inside(d, y, x)
    ensures s <= Stacked(frames, d, y, x)
    ensures 255 * |frames| < COUNTER ==> s == Stacked(frames, d, y, x)
  {
    Stacked(frames, d, y, x) % COUNTER
  }

  // ----- A binned block

  /** A block of the sensor: its corner, its height and its width, clipped to the sensor. */
  datatype Block = Block(y0: int, x0: int, ny: nat, nx: nat)

  function RowSum(frames: seq<Frame>, d: Sensor, y: int, x0: int, nx: nat): nat
    requires AllShaped(frames, d) && 0 <= y < d.h
  {
    if nx == 0 then 0
    else
      var x := x0 + nx - 1;
      RowSum(frames, d, y, x0, nx - 1) + if 0 <= x < d.w then Cell(frames, d, y, x) else 0
  }

  function RowCount(d: Sensor, x0: int, nx: nat): nat {
    if nx == 0 then 0 else RowCount(d, x0, nx - 1) + if 0 <= x0 + nx - 1 < d.w then 1 else 0
  }

  function BlockSum(frames: seq<Frame>, d: Sensor, b: Block): nat
    requires AllShaped(frames, d)
    decreases b.ny
  {
    if b.ny == 0 then 0
    else
      var y := b.y0 + b.ny - 1;
      BlockSum(frames, d, b.(ny := b.ny - 1)) + if 0 <= y < d.h then RowSum(frames, d, y, b.x0, b.nx) else 0
  }

  function BlockCount(d: Sensor, b: Block): nat
    decreases b.ny
  {
    if b.ny == 0 then 0
    else BlockCount(d, b.(ny := b.ny - 1)) + if 0 <= b.y0 + b.ny - 1 < d.h then RowCount(d, b.x0, b.nx) else 0
  }

  function Clip(from: int, n: nat, size: nat): nat {
    var lo := if from < 0 then 0 else from;
    var hi := if from + n > size then size else from + n;
    if hi > lo then hi - lo else 0
  }

  /** The count is the area of the block that lies on the sensor. */
  lemma CountIsArea(d: Sensor, b: Block)
    ensures RowCount(d, b.x0, b.nx) == Clip(b.x0, b.nx, d.w)
    ensures BlockCount(d, b) == Clip(b.y0, b.ny, d.h) * Clip(b.x0, b.nx, d.w)
  {
    RowCountIsClip(d, b.x0, b.nx);
    RowsTimesWidth(d, b, RowCount(d, b.x0, b.nx));
  }

  lemma {:induction false} RowsTimesWidth(d: Sensor, b: Block, width: nat)
    requires width == RowCount(d, b.x0, b.nx)
    ensures BlockCount(d, b) == Clip(b.y0, b.ny, d.h) * width
    decreases b.ny
  {
    if b.ny > 0 {
      RowsTimesWidth(d, b.(ny := b.ny - 1), width);
      ClipGrows(b.y0, b.ny, d.h);
      Distribute(width, Clip(b.y0, b.ny - 1, d.h), 1);
    }
  }

  lemma ClipGrows(from: int, n: nat, size: nat)
    requires n > 0
    ensures Clip(from, n, size) == Clip(from, n - 1, size) + if 0 <= from + n - 1 < size then 1 else 0
  {
  }

  lemma {:induction false} RowCountIsClip(d: Sensor, x0: int, nx: nat)
    ensures RowCount(d, x0, nx) == Clip(x0, nx, d.w)
  {
    if nx > 0 {
      RowCountIsClip(d, x0, nx - 1);
    }
  }

  // ----- All samples of a block over all frames

  function SampleRow(f: Frame, d: Sensor, y: int, x0: int, nx: nat): nat
    requires Shaped(f, d) && 0 <= y < d.h
  {
    if nx == 0 then 0
    else
      var x := x0 + nx - 1;
      SampleRow(f, d, y, x0, nx - 1) + if 0 <= x < d.w then Sample(f, d, y, x) else 0
  }

  function SampleBlock(f: Frame, d: Sensor, b: Block): nat
    requires Shaped(f, d)
    decreases b.ny
  {
    if b.ny == 0 then 0
    else
      var y := b.y0 + b.ny - 1;
      SampleBlock(f, d, b.(ny := b.ny - 1)) + if 0 <= y < d.h then SampleRow(f, d, y, b.x0, b.nx) else 0
  }

  function Samples(frames: seq<Frame>, d: Sensor, b: Block): nat
    requires AllShaped(frames, d)
  {
    if frames == [] then 0
    else
      var n := |frames| - 1;
      Samples(frames[..n], d, b) + SampleBlock(frames[n], d, b)
  }

  lemma {:induction false} RowOfOneMore(frames: seq<Frame>, d: Sensor, y: int, x0: int, nx: nat)
    requires AllShaped(frames, d) && frames != [] && 255 * |frames| < COUNTER && 0 <= y < d.h
    ensures var n := |frames| - 1;
            RowSum(frames, d, y, x0, nx) == RowSum(frames[..n], d, y, x0, nx) + SampleRow(frames[n], d, y, x0, nx)
  {
    if nx > 0 {
      RowOfOneMore(frames, d, y, x0, nx - 1);
    }
  }

  lemma {:induction false} BlockOfOneMore(frames: seq<Frame>, d: Sensor, b: Block)
    requires AllShaped(frames, d) && frames != [] && 255 * |frames| < COUNTER
    ensures var n := |frames| - 1;
            BlockSum(frames, d, b) == BlockSum(frames[..n], d, b) + SampleBlock(frames[n], d, b)
    decreases b.ny
  {
    if b.ny > 0 {
      BlockOfOneMore(frames, d, b.(ny := b.ny - 1));
      var y := b.y0 + b.ny - 1;
      if 0 <= y < d.h {
        RowOfOneMore(frames, d, y, b.x0, b.nx);
      }
    }
  }

  lemma {:induction false} BlockOfNone(d: Sensor, b: Block)
    ensures BlockSum([], d, b) == 0
    decreases b.ny
  {
    if b.ny > 0 {
      BlockOfNone(d, b.(ny := b.ny - 1));
      if 0 <= b.y0 + b.ny - 1 < d.h {
        RowOfNone(d, b.y0 + b.ny - 1, b.x0, b.nx);
      }
    }
  }

  lemma {:induction false} RowOfNone(d: Sensor, y: int, x0: int, nx: nat)
    requires 0 <= y < d.h
    ensures RowSum([], d, y, x0, nx) == 0
  {
    if nx > 0 {
      RowOfNone(d, y, x0, nx - 1);
    }
  }

  /** Stacking first and binning then adds up the same samples, while 32 bits suffice. */
  lemma {:induction false} StackThenBin(frames: seq<Frame>, d: Sensor, b: Block)
    requires AllShaped(frames, d) && 255 * |frames| < COUNTER
    ensures BlockSum(frames, d, b) == Samples(frames, d, b)
  {
    if frames == [] {
      BlockOfNone(d, b);
    } else {
      StackThenBin(frames[..|frames| - 1], d, b);
      BlockOfOneMore(frames, d, b);
    }
  }

  lemma Distribute(m: nat, c: nat, r: nat)
    ensures m * (c + r) == m * c + m * r
  {
  }

  lemma {:induction false} RowIsBounded(frames: seq<Frame>, d: Sensor, y: int, x0: int, nx: nat)
    requires AllShaped(frames, d) && 0 <= y < d.h
    ensures RowSum(frames, d, y, x0, nx) <= 255 * |frames| * RowCount(d, x0, nx)
  {
    if nx > 0 {
      RowIsBounded(frames, d, y, x0, nx - 1);
      Distribute(255 * |frames|, RowCount(d, x0, nx - 1), 1);
    }
  }

  lemma {:induction false} BlockIsBounded(frames: seq<Frame>, d: Sensor, b: Block)
    requires AllShaped(frames, d)
    ensures BlockSum(frames, d, b) <= 255 * |frames| * BlockCount(d, b)
    decreases b.ny
  {
    if b.ny > 0 {
      BlockIsBounded(frames, d, b.(ny := b.ny - 1));
      var y := b.y0 + b.ny - 1;
      if 0 <= y < d.h {
        RowIsBounded(frames, d, y, b.x0, b.nx);
        Distribute(255 * |frames|, BlockCount(d, b.(ny := b.ny - 1)), RowCount(d, b.x0, b.nx));
      }
    }
  }

  // ----- The rescaled pixel

  /** The cast to 16 bits takes the value modulo 2^16. */
  function Rescaled(sum: nat, frames: nat, count: nat): nat {
    if count == 0 || frames == 0 then 0
    else
      NotZero(frames, count);
      (sum as real * 65535.0 / (255.0 * frames as real * count as real) + 0.5).Floor % 0x1_0000
  }

  lemma NotZero(frames: nat, count: nat)
    requires frames > 0 && count > 0
    ensures 255.0 * frames as real * count as real > 0.0
  {
  }

  function Pixel(frames: seq<Frame>, d: Sensor, b: Block): nat
    requires AllShaped(frames, d)
  {
    Rescaled(BlockSum(frames, d, b), |frames|, BlockCount(d, b))
  }

  /**
    Each pixel is the mean of all 8-bit samples of its clipped block over all frames,
    scaled by 65535 / 255 and rounded, and stays within 16 bits without wrapping; a block
    beside the sensor is black.
  */
  lemma PixelIsMean(frames: seq<Frame>, d: Sensor, b: Block)
    requires AllShaped(frames, d) && frames != [] && 255 * |frames| < COUNTER
    ensures var area := Clip(b.y0, b.ny, d.h) * Clip(b.x0, b.nx, d.w);
            var pixel := Pixel(frames, d, b);
            if area == 0 then pixel == 0
            else
              (|frames| * area) as real > 0.0 &&
              var mean := Samples(frames, d, b) as real / (|frames| * area) as real;
              0.0 <= mean <= 255.0 && pixel == (mean * 257.0 + 0.5).Floor <= 65535
  {
    CountIsArea(d, b);
    StackThenBin(frames, d, b);
    BlockIsBounded(frames, d, b);
    if BlockCount(d, b) > 0 {
      MeanIsScaled(BlockSum(frames, d, b), |frames|, BlockCount(d, b));
    }
  }

  lemma MeanIsScaled(sum: nat, frames: nat, count: nat)
    requires frames > 0 && count > 0 && sum <= 255 * frames * count
    ensures (frames * count) as real > 0.0
    ensures var mean := sum as real / (frames * count) as real;
            0.0 <= mean <= 255.0 && Rescaled(sum, frames, count) == (mean * 257.0 + 0.5).Floor <= 65535
  {
    var n := frames * count;
    assert n > 0;
    var mean := sum as real / n as real;
    assert mean * n as real == sum as real;
    assert 255 * frames * count == 255 * n;
    assert mean <= 255.0;
    NotZero(frames, count);
    var bottom := 255.0 * frames as real * count as real;
    assert bottom == 255.0 * n as real;
    assert mean * 257.0 * bottom == sum as real * 65535.0;
    assert mean * 257.0 == sum as real * 65535.0 / bottom;
  }

  // ----- The driver itself

  class V4l {
    const d: Sensor
    var accum: array2<nat>
    var framesGrabbed: nat
    ghost var frames: seq<Frame>

    /** The accumulator holds the frames grabbed, as far as 32 bits can. */
    ghost predicate Valid()
      reads this, accum
    {
      && accum.Length0 == d.h && accum.Length1 == d.w
      && AllShaped(frames, d) && framesGrabbed == |frames|
      && forall y, x :: Inside(d, y, x) ==> accum[y, x] == Cell(frames, d, y, x)
    }

    constructor (d: Sensor)
      ensures Valid() && this.d == d && frames == [] && fresh(accum)
    {
      this.d := d;
      accum := new nat[d.h, d.w]((_, _) => 0);
      framesGrabbed, frames := 0, [];
    }

    /** startExposure: every exposure starts from nothing. */
    method StartExposure()
      requires accum.Length0 == d.h && accum.Length1 == d.w
      modifies accum, `framesGrabbed, `frames
      ensures Valid() && frames == []
    {
      forall y, x | 0 <= y < accum.Length0 && 0 <= x < accum.Length1 {
        accum[y, x] := 0;
      }
      framesGrabbed, frames := 0, [];
    }

    /** Rows below y hold `after`, the others `before`. */
    ghost predicate Copied(before: seq<Frame>, after: seq<Frame>, y: int, x: int)
      requires AllShaped(before, d) && AllShaped(after, d) && accum.Length0 == d.h && accum.Length1 == d.w
      reads this, accum
    {
      forall v, u :: Inside(d, v, u) ==>
        accum[v, u] == if v < y || (v == y && u < x) then Cell(after, d, v, u) else Cell(before, d, v, u)
    }

    method AddRow(frame: Frame, y: nat, ghost before: seq<Frame>)
      requires AllShaped(before, d) && Shaped(frame, d) && y < d.h
      requires AllShaped(before + [frame], d) && accum.Length0 == d.h && accum.Length1 == d.w
      requires Copied(before, before + [frame], y, 0)
      modifies accum
      ensures Copied(before, before + [frame], y + 1, 0)
    {
      var srcRow := frame[d.h - 1 - y];
      for x := 0 to d.w
        invariant Copied(before, before + [frame], y, x)
      {
        CellOfOneMore(before, frame, d, y, x);
        accum[y, x] := (accum[y, x] + srcRow[2 * x]) % COUNTER;
      }
    }

    /** The copying part of accumulateFrame, with the rows turned upside down. */
    method AccumulateFrame(frame: Frame)
      requires Valid() && Shaped(frame, d)
      modifies accum, `framesGrabbed, `frames
      ensures Valid() && frames == old(frames) + [frame]
    {
      ghost var before := frames;
      ghost var after := frames + [frame];
      assert AllShaped(after, d);
      for y := 0 to d.h
        invariant frames == before && framesGrabbed == |before|
        invariant Copied(before, after, y, 0)
      {
        AddRow(frame, y, before);
      }
      framesGrabbed := framesGrabbed + 1;
      frames := after;
    }

    /** The sum and the count of one block, as the inner loops of doReadout find them. */
    method SumBlock(b: Block) returns (blockSum: nat, count: nat)
      requires Valid()
      ensures blockSum == BlockSum(frames, d, b) && count == BlockCount(d, b)
    {
      blockSum, count := 0, 0;
      for dy := 0 to b.ny
        invariant blockSum == BlockSum(frames, d, b.(ny := dy)) && count == BlockCount(d, b.(ny := dy))
      {
        var sy := b.y0 + dy;
        if sy < 0 || sy >= d.h {
          continue;
        }
        ghost var sum, n := blockSum, count;
        for dx := 0 to b.nx
          invariant blockSum == sum + RowSum(frames, d, sy, b.x0, dx) && count == n + RowCount(d, b.x0, dx)
        {
          var sx := b.x0 + dx;
          if sx < 0 || sx >= d.w {
            continue;
          }
          blockSum := blockSum + accum[sy, sx];
          count := count + 1;
        }
      }
    }

    /** doReadout of an image of binned pixels whose first block has its corner at base. */
    method DoReadout(out: array2<nat>, baseY: int, baseX: int, binY: nat, binX: nat)
      requires Valid() && out != accum
      modifies out, `framesGrabbed, `frames
      ensures forall oy, ox :: 0 <= oy < out.Length0 && 0 <= ox < out.Length1 ==>
                out[oy, ox] == Pixel(old(frames), d, Block(baseY + oy * binY, baseX + ox * binX, binY, binX))
      ensures framesGrabbed == 0
    {
      for oy := 0 to out.Length0
        invariant Valid() && frames == old(frames)
        invariant forall v, u :: 0 <= v < oy && 0 <= u < out.Length1 ==>
                    out[v, u] == Pixel(frames, d, Block(baseY + v * binY, baseX + u * binX, binY, binX))
      {
        for ox := 0 to out.Length1
          invariant Valid() && frames == old(frames)
          invariant forall v, u :: 0 <= v < oy && 0 <= u < out.Length1 ==>
                      out[v, u] == Pixel(frames, d, Block(baseY + v * binY, baseX + u * binX, binY, binX))
          invariant forall u :: 0 <= u < ox ==>
                      out[oy, u] == Pixel(frames, d, Block(baseY + oy * binY, baseX + u * binX, binY, binX))
        {
          var b := Block(baseY + oy * binY, baseX + ox * binX, binY, binX);
          var blockSum, count := SumBlock(b);
          out[oy, ox] := if framesGrabbed > 0 && count > 0 then Rescaled(blockSum, framesGrabbed, count) else 0;
        }
      }
      framesGrabbed, frames := 0, [];
    }
  }

  lemma CellOfOneMore(frames: seq<Frame>, frame: Frame, d: Sensor, y: int, x: int)
    requires AllShaped(frames, d) && Shaped(frame, d) && Inside(d, y, x)
    ensures AllShaped(frames + [frame], d)
    ensures Cell(frames + [frame], d, y, x) == (Cell(frames, d, y, x) + Sample(frame, d, y, x)) % COUNTER
  {
    var more := frames + [frame];
    assert more[..|frames|] == frames;
  }
}
