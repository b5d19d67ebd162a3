/** The real-time audio path: a ring buffer, a decoder of arbitrarily split PCM
    bytes and a hop counter, shown to agree with one specification over the whole
    stream; and the reductions that feed the display. Samples are real numbers. */
module RealtimeAudio {

  type Byte = x: int | 0 <= x < 256

  function Min(a: int, b: int): int { if a < b then a else b }

  function Max(a: int, b: int): int { if a < b then b else a }

  function Newest<T>(s: seq<T>, count: nat): (r: seq<T>)
    requires count <= |s|
    ensures |r| == count
  {
    s[|s| - count..]
  }

  // ---------------------------------------------------------------- ring buffer

  /** Where the k-th newest sample stands when `w` is written next. */
  function Slot(w: nat, k: nat, m: nat): (r: nat)
    requires w < m && k < m
    ensures r < m
  {
    if k < w then w - 1 - k else w - 1 - k + m
  }

  /** A fixed array written round and round; `history` is everything appended since
      the last clear. */
  class AudioRingBuffer {
    const values: array<real>
    var writeIndex: nat
    var size: nat
    ghost var history: seq<real>

    ghost predicate Valid()
      reads this, values
    {
      && values.Length >= 1
      && writeIndex < values.Length
      && size == Min(|history|, values.Length)
      && forall k | 0 <= k < size :: values[Slot(writeIndex, k, values.Length)] == history[|history| - 1 - k]
    }

    constructor (capacity: nat)
      requires capacity >= 1
      ensures Valid() && history == [] && values.Length == capacity && fresh(values)
    {
      values := new real[capacity](_ => 0.0);
      writeIndex, size, history := 0, 0, [];
    }

    method Clear()
      requires Valid()
      modifies this, values
      ensures Valid() && history == []
    {
      forall i | 0 <= i < values.Length {
        values[i] := 0.0;
      }
      writeIndex, size, history := 0, 0, [];
    }

    method Append(samples: seq<real>)
      requires Valid()
      modifies this, values
      ensures Valid() && history == old(history) + samples
    {
      var n, capacity := |samples|, values.Length;
      history := history + samples;
      if n == 0 {
        return;
      }
      if n >= capacity {
        forall i | 0 <= i < capacity {
          values[i] := samples[n - capacity + i];
        }
        writeIndex, size := 0, capacity;
        return;
      }
      var start := writeIndex;
      Store(samples);
      writeIndex := Wrapped(writeIndex + n, capacity);
      size := Min(size + n, capacity);
      forall k | 0 <= k < size ensures values[Slot(writeIndex, k, capacity)] == history[|history| - 1 - k] {
        if k >= n {
          assert Slot(writeIndex, k, capacity) == Slot(start, k - n, capacity);
          assert old(history)[|old(history)| - 1 - (k - n)] == history[|history| - 1 - k];
        }
      }
    }

    /** Write a short block at the write index, wrapping around the end. */
    method Store(samples: seq<real>)
      requires writeIndex < values.Length && |samples| < values.Length
      modifies values
      ensures forall i | 0 <= i < values.Length ::
                values[i] == if writeIndex <= i < writeIndex + |samples| then samples[i - writeIndex]
                             else if i + values.Length < writeIndex + |samples| then samples[i + values.Length - writeIndex]
                             else old(values[i])
    {
      var n, capacity := |samples|, values.Length;
      var first := Min(n, capacity - writeIndex);
      forall i | 0 <= i < first {
        values[writeIndex + i] := samples[i];
      }
      var remaining := n - first;
      forall i | 0 <= i < remaining {
        values[i] := samples[first + i];
      }
    }

    /** The newest samples, oldest first. */
    method Latest(count: int) returns (r: seq<real>)
      requires Valid()
      ensures r == Newest(history, Min(Max(count, 0), size))
    {
      var n := Min(Max(count, 0), size);
      if n == 0 {
        return [];
      }
      var capacity := values.Length;
      ghost var all := values[..];
      Unwrapped(all, writeIndex, n, history);
      var start := Wrapped(writeIndex - n, capacity);
      if start < writeIndex {
        r := values[start..writeIndex];
        assert r == all[start..writeIndex];
      } else {
        r := values[start..] + values[..writeIndex];
        assert values[start..] == all[start..] && values[..writeIndex] == all[..writeIndex];
      }
    }
  }

  /** The last n samples before the write index, around the end of the array. */
  lemma Unwrapped(values: seq<real>, w: nat, n: nat, history: seq<real>)
    requires w < |values| && n <= |values| && n <= |history|
    requires forall k | 0 <= k < n :: values[Slot(w, k, |values|)] == history[|history| - 1 - k]
    ensures (if n <= w then values[w - n..w] else values[w - n + |values|..] + values[..w]) == Newest(history, n)
  {
    var r := if n <= w then values[w - n..w] else values[w - n + |values|..] + values[..w];
    forall i | 0 <= i < n ensures r[i] == history[|history| - n + i] {
      assert r[i] == values[Slot(w, n - 1 - i, |values|)];
    }
  }

  /** A position less than one turn before or after the array. */
  method Wrapped(x: int, m: nat) returns (r: nat)
    requires m > 0 && 0 <= x + m && x < 2 * m
    ensures r == if x < 0 then x + m else if x < m then x else x - m
  {
    WrapIs(x, m);
    r := x % m;
  }

  /** Within one turn around the array the remainder is found by one correction. */
  lemma WrapIs(x: int, m: nat)
    requires m > 0 && 0 <= x + m && x < 2 * m
    ensures x % m == if x < 0 then x + m else if x < m then x else x - m
  {
    assert x / m == if x < 0 then -1 else if x < m then 0 else 1;
  }

  // --------------------------------------------------------------------- decoder

  datatype Format = UInt8 | Int16 | Int32 | Float32

  /** A float32 value; the integer formats only have finite ones. */
  datatype Level = Finite(value: real) | NotANumber | Infinite(positive: bool)

  /** How one stream is encoded; `float` reads four bytes as a float32. */
  datatype Encoding = Encoding(format: Format, channels: nat, float: seq<Byte> -> Level)

  function ItemBytes(format: Format): nat {
    match format
    case UInt8 => 1
    case Int16 => 2
    case Int32 => 4
    case Float32 => 4
  }

  function BytesOf(format: Format, count: nat): (n: nat)
    ensures count >= 1 ==> n >= 1
  {
    if count == 0 then 0 else ItemBytes(format) + BytesOf(format, count - 1)
  }

  function FrameBytes(e: Encoding): (n: nat)
    ensures e.channels >= 1 ==> n >= 1
  {
    BytesOf(e.format, e.channels)
  }

  /** Little-endian. */
  function Word(bytes: seq<Byte>): nat {
    if bytes == [] then 0 else bytes[0] + 256 * Word(bytes[1..])
  }

  function Signed(word: int, modulus: int): int {
    if 2 * word >= modulus then word - modulus else word
  }

  /** The distance between float32 values around a magnitude: 24 bits are kept. */
  function Spacing(magnitude: nat): (unit: nat)
    ensures unit >= 1
  {
    if magnitude < 0x100_0000 then 1 else 2 * Spacing(magnitude / 2)
  }

  /** The nearest multiple of the unit; the even one if there are two. */
  function Nearest(magnitude: nat, unit: nat): nat
    requires unit >= 1
  {
    var q, r := magnitude / unit, magnitude % unit;
    unit * if 2 * r < unit || (2 * r == unit && q % 2 == 0) then q else q + 1
  }

  /** An integer as a float32. */
  function Single(n: int): int {
    if n < 0 then 0 - Nearest(-n, Spacing(-n)) else Nearest(n, Spacing(n))
  }

  function Item(e: Encoding, bytes: seq<Byte>): Level {
    match e.format
    case UInt8 => Finite((Word(bytes) as real - 128.0) / 128.0)
    case Int16 => Finite(Signed(Word(bytes), 0x1_0000) as real / 32768.0)
    case Int32 => Finite(Single(Signed(Word(bytes), 0x1_0000_0000)) as real / 2147483648.0)
    case Float32 => e.float(bytes)
  }

  function Plus(a: Level, b: Level): Level {
    if a.NotANumber? || b.NotANumber? then NotANumber
    else if a.Infinite? then (if b.Infinite? && b.positive != a.positive then NotANumber else a)
    else if b.Infinite? then b
    else Finite(a.value + b.value)
  }

  function Sum(e: Encoding, bytes: seq<Byte>, count: nat): Level
    requires |bytes| == BytesOf(e.format, count)
    decreases count
  {
    if count == 0 then Finite(0.0)
    else
      var n := ItemBytes(e.format);
      Plus(Item(e, bytes[..n]), Sum(e, bytes[n..], count - 1))
  }

  /** nan_to_num. */
  function Clean(level: Level): real {
    match level
    case Finite(value) => value
    case NotANumber => 0.0
    case Infinite(positive) => if positive then 1.0 else -1.0
  }

  /** One frame mixed down to mono. */
  function Mono(e: Encoding, frame: seq<Byte>): real
    requires e.channels >= 1 && |frame| == FrameBytes(e)
  {
    var sum := Sum(e, frame, e.channels);
    Clean(if sum.Finite? then Finite(sum.value / e.channels as real) else sum)
  }

  /** Frames of a fixed size, each giving one sample. */
  datatype Framing = Framing(size: nat, mix: seq<Byte> -> real)

  function FramingOf(e: Encoding): (f: Framing)
    requires e.channels >= 1
    ensures f.size == FrameBytes(e) >= 1
  {
    Framing(FrameBytes(e), frame => if |frame| == FrameBytes(e) then Mono(e, frame) else 0.0)
  }

  /** The samples of all whole frames. */
  function Cut(f: Framing, data: seq<Byte>): seq<real>
    requires f.size >= 1
    decreases |data|
  {
    if |data| < f.size then [] else [f.mix(data[..f.size])] + Cut(f, data[f.size..])
  }

  /** The specification: the whole stream decoded at once. */
  function Frames(e: Encoding, data: seq<Byte>): seq<real>
    requires e.channels >= 1
  {
    Cut(FramingOf(e), data)
  }

  /** How many of `length` bytes fill whole frames of n bytes. */
  function Whole(length: nat, n: nat): (r: nat)
    requires n > 0
    ensures length - n < r <= length
  {
    if length < n then 0 else n + Whole(length - n, n)
  }

  lemma {:induction false} WholeIsRounded(length: nat, n: nat)
    requires n > 0
    ensures Whole(length, n) == length - length % n
    decreases length
  {
    if length >= n {
      WholeIsRounded(length - n, n);
      assert (length - n) % n == length % n by { OneTurn(length, n); }
    }
  }

  lemma {:induction false} Stride(a: int, b: int, n: nat)
    requires a < b
    ensures a * n + n <= b * n
    decreases b - a
  {
    assert b * n == (b - 1) * n + n;
    if a < b - 1 { Stride(a, b - 1, n); }
  }

  lemma OneTurn(x: nat, n: nat)
    requires 0 < n <= x
    ensures (x - n) % n == x % n
  {
    var p, q := x / n, (x - n) / n + 1;
    if p < q { Stride(p, q, n); } else if q < p { Stride(q, p, n); }
  }

  lemma {:induction false} WholeAdds(a: nat, b: nat, n: nat)
    requires n > 0 && Whole(a, n) == a
    ensures Whole(a + b, n) == a + Whole(b, n)
    decreases a
  {
    if a > 0 { WholeAdds(a - n, b, n); }
  }

  /** Decoding whole frames and then the rest is decoding everything. */
  lemma {:induction false} CutSplits(f: Framing, a: seq<Byte>, b: seq<Byte>)
    requires f.size >= 1 && Whole(|a|, f.size) == |a|
    ensures Cut(f, a + b) == Cut(f, a) + Cut(f, b)
    decreases |a|
  {
    if a == [] {
      assert a + b == b;
    } else {
      assert (a + b)[..f.size] == a[..f.size];
      assert (a + b)[f.size..] == a[f.size..] + b;
      CutSplits(f, a[f.size..], b);
    }
  }

  const FullScale: int := 0x8000_0000

  /** 32 bits do not fit into a float32: the conversion reaches the full scale from 64
      below it on. */
  lemma SingleIsBounded(n: int)
    requires -FullScale <= n < FullScale
    ensures -FullScale <= Single(n) <= FullScale
    ensures Single(n) == FullScale <==> n >= FullScale - 64
  {
    var m := if n < 0 then -n else n;
    SpacingIsSmall(m);
    NearestIsBounded(m, Spacing(m));
  }

  lemma SpacingIsSmall(m: nat)
    requires m <= FullScale
    ensures var u := Spacing(m);
            || (u == 1 && m < 0x100_0000) || (u == 2 && 0x100_0000 <= m < 0x200_0000) || (u == 4 && 0x200_0000 <= m < 0x400_0000)
            || (u == 8 && 0x400_0000 <= m < 0x800_0000) || (u == 16 && 0x800_0000 <= m < 0x1000_0000)
            || (u == 32 && 0x1000_0000 <= m < 0x2000_0000) || (u == 64 && 0x2000_0000 <= m < 0x4000_0000)
            || (u == 128 && 0x4000_0000 <= m < FullScale) || (u == 256 && m == FullScale)
  {
    Halved(m);
    Halved(m / 2);
    Halved(m / 4);
    Halved(m / 8);
    Halved(m / 16);
    Halved(m / 32);
    Halved(m / 64);
    Halved(m / 128);
    Halved(m / 256);
  }

  lemma Halved(m: nat)
    ensures Spacing(m) == if m < 0x100_0000 then 1 else 2 * Spacing(m / 2)
    ensures m / 2 / 2 == m / 4 && m / 4 / 2 == m / 8
  {
  }

  lemma NearestIsBounded(m: nat, u: nat)
    requires m <= FullScale && u in {1, 2, 4, 8, 16, 32, 64, 128, 256}
    requires u < 128 ==> m < 0x80_0000 * 2 * u
    requires u == 256 ==> m == FullScale
    ensures Nearest(m, u) <= FullScale
    ensures u < 128 ==> Nearest(m, u) < FullScale
    ensures u == 128 ==> (Nearest(m, u) == FullScale <==> m >= FullScale - 64)
  {
  }

  /** Integer formats decode into the unit range, which only int32 fills. */
  lemma {:induction false} SumIsBounded(e: Encoding, bytes: seq<Byte>, count: nat)
    requires !e.format.Float32? && |bytes| == BytesOf(e.format, count)
    ensures Sum(e, bytes, count).Finite?
    ensures -(count as real) <= Sum(e, bytes, count).value <= count as real
    ensures count > 0 && !e.format.Int32? ==> Sum(e, bytes, count).value < count as real
    decreases count
  {
    if count > 0 {
      var n := ItemBytes(e.format);
      WordIsBounded(bytes[..n]);
      SumIsBounded(e, bytes[n..], count - 1);
      if e.format.Int32? {
        SingleIsBounded(Signed(Word(bytes[..n]), 0x1_0000_0000));
      }
    }
  }

  function Power(n: nat): nat { if n == 0 then 1 else 256 * Power(n - 1) }

  lemma {:induction false} WordIsBounded(bytes: seq<Byte>)
    ensures Word(bytes) < Power(|bytes|)
    ensures Power(1) == 0x100 && Power(2) == 0x1_0000 && Power(4) == 0x1_0000_0000
  {
    assert Power(1) == 0x100 && Power(2) == 0x1_0000 && Power(3) == 0x100_0000 && Power(4) == 0x1_0000_0000;
    if bytes != [] {
      WordIsBounded(bytes[1..]);
    }
  }

  lemma Quotient(sum: real, c: real)
    requires c > 0.0 && -c <= sum <= c
    ensures -1.0 <= sum / c <= 1.0
    ensures sum < c ==> sum / c < 1.0
  {
  }

  lemma MonoIsInRange(e: Encoding, frame: seq<Byte>)
    requires e.channels >= 1 && !e.format.Float32? && |frame| == FrameBytes(e)
    ensures -1.0 <= Mono(e, frame) <= 1.0
    ensures !e.format.Int32? ==> Mono(e, frame) < 1.0
  {
    SumIsBounded(e, frame, e.channels);
    Quotient(Sum(e, frame, e.channels).value, e.channels as real);
  }

  lemma {:induction false} SamplesAreInRange(e: Encoding, data: seq<Byte>)
    requires e.channels >= 1 && !e.format.Float32?
    ensures forall x | x in Frames(e, data) :: -1.0 <= x <= 1.0 && (!e.format.Int32? ==> x < 1.0)
    decreases |data|
  {
    var n := FrameBytes(e);
    if |data| >= n {
      var f := FramingOf(e);
      MonoIsInRange(e, data[..n]);
      SamplesAreInRange(e, data[n..]);
      assert f.mix(data[..n]) == Mono(e, data[..n]);
      assert Frames(e, data) == [f.mix(data[..n])] + Frames(e, data[n..]);
    }
  }

  /** One channel of int32 reaches the end of the range exactly for the 64 greatest
      values. */
  lemma FullScaleExactlyWhen(e: Encoding, frame: seq<Byte>)
    requires e.channels == 1 && e.format.Int32? && |frame| == FrameBytes(e)
    ensures Mono(e, frame) == 1.0 <==> Signed(Word(frame), 0x1_0000_0000) >= FullScale - 64
  {
    WordIsBounded(frame);
    var n := Signed(Word(frame), 0x1_0000_0000);
    SingleIsBounded(n);
    assert frame[..4] == frame;
    assert Sum(e, frame, 1) == Finite(Single(n) as real / 2147483648.0 + 0.0);
    if Single(n) != FullScale {
      Below(Single(n));
    }
  }

  lemma Below(n: int)
    requires n < FullScale
    ensures n as real / 2147483648.0 < 1.0
  {
  }

  class PcmStreamDecoder {
    const encoding: Encoding
    var remainder: seq<Byte>
    ghost var stream: seq<Byte>
    ghost var decoded: seq<real>

    ghost predicate Valid()
      reads this
    {
      && encoding.channels >= 1
      && remainder == stream[Whole(|stream|, FrameBytes(encoding))..]
      && decoded == Frames(encoding, stream)
    }

    constructor (encoding: Encoding)
      requires encoding.channels >= 1
      ensures Valid() && stream == [] && decoded == [] && this.encoding == encoding
    {
      this.encoding, remainder, stream, decoded := encoding, [], [], [];
      EmptyStream(encoding);
    }

    /** Bytes that do not fill a frame wait for the next payload. */
    method Decode(payload: seq<Byte>) returns (output: seq<real>)
      requires Valid()
      modifies this
      ensures Valid() && stream == old(stream) + payload && decoded == old(decoded) + output
    {
      var f := FramingOf(encoding);
      var data := remainder + payload;
      var usable := |data| - |data| % f.size;
      WholeIsRounded(|data|, f.size);
      output := MixDown(f, data, usable);
      CutContinues(f, stream, payload);
      RestContinues(stream, payload, f.size);
      remainder := data[usable..];
      stream := stream + payload;
      decoded := decoded + output;
    }
  }

  /** The frames of the usable bytes, one after the other. */
  method MixDown(f: Framing, data: seq<Byte>, usable: nat) returns (output: seq<real>)
    requires f.size >= 1 && usable == Whole(|data|, f.size)
    ensures output == Cut(f, data)
  {
    output := [];
    var i := 0;
    assert data[0..] == data;
    while i < usable
      invariant i <= usable && usable == i + Whole(|data| - i, f.size)
      invariant output + Cut(f, data[i..]) == Cut(f, data)
    {
      NextFrame(f, data, i, output);
      output := output + [f.mix(data[i..i + f.size])];
      i := i + f.size;
    }
  }

  lemma NextFrame(f: Framing, data: seq<Byte>, i: nat, output: seq<real>)
    requires f.size >= 1 && i + f.size <= |data|
    ensures var n := f.size;
            output + Cut(f, data[i..]) == (output + [f.mix(data[i..i + n])]) + Cut(f, data[i + n..])
  {
    var n := f.size;
    assert data[i..][..n] == data[i..i + n] && data[i..][n..] == data[i + n..];
  }

  lemma EmptyStream(e: Encoding)
    requires e.channels >= 1
    ensures Frames(e, []) == [] && Whole(0, FrameBytes(e)) == 0
  {
  }

  function Rest(f: Framing, data: seq<Byte>): seq<Byte>
    requires f.size >= 1
  {
    data[Whole(|data|, f.size)..]
  }

  /** A stream goes on: what waited and what arrives make the new frames. */
  lemma CutContinues(f: Framing, stream: seq<Byte>, payload: seq<Byte>)
    requires f.size >= 1
    ensures Cut(f, stream + payload) == Cut(f, stream) + Cut(f, Rest(f, stream) + payload)
  {
    var whole := Whole(|stream|, f.size);
    var head, rest := stream[..whole], stream[whole..];
    WholeOfWhole(|stream|, f.size);
    assert stream == head + rest && stream + payload == head + (rest + payload);
    CutSplits(f, head, rest);
    CutSplits(f, head, rest + payload);
  }

  lemma RestContinues(stream: seq<Byte>, payload: seq<Byte>, n: nat)
    requires n > 0
    ensures var data := stream[Whole(|stream|, n)..] + payload;
            (stream + payload)[Whole(|stream + payload|, n)..] == data[Whole(|data|, n)..]
  {
    var whole := Whole(|stream|, n);
    var data := stream[whole..] + payload;
    WholeOfWhole(|stream|, n);
    WholeAdds(whole, |data|, n);
    assert stream + payload == stream[..whole] + data;
  }

  function Concat<T>(parts: seq<seq<T>>): seq<T> {
    if parts == [] then [] else parts[0] + Concat(parts[1..])
  }

  /** What comes out when the chunks are decoded one by one, `waiting` being left over
      from before. */
  function ChunkedCut(f: Framing, waiting: seq<Byte>, chunks: seq<seq<Byte>>): seq<real>
    requires f.size >= 1
    decreases |chunks|
  {
    if chunks == [] then []
    else
      var data := waiting + chunks[0];
      Cut(f, data) + ChunkedCut(f, Rest(f, data), chunks[1..])
  }

  /** However a stream is split into chunks, the same samples come out as from the
      whole stream decoded at once. */
  lemma {:induction false} AnySplitDecodesTheSame(f: Framing, before: seq<Byte>, chunks: seq<seq<Byte>>)
    requires f.size >= 1
    ensures Cut(f, before + Concat(chunks)) == Cut(f, before) + ChunkedCut(f, Rest(f, before), chunks)
    decreases |chunks|
  {
    if chunks == [] {
      assert before + [] == before;
    } else {
      var data := Rest(f, before) + chunks[0];
      CutContinues(f, before, chunks[0]);
      RestContinues(before, chunks[0], f.size);
      AnySplitDecodesTheSame(f, before + chunks[0], chunks[1..]);
      ConcatSplits(before, chunks);
      Associates(Cut(f, before), Cut(f, data), ChunkedCut(f, Rest(f, data), chunks[1..]));
    }
  }

  lemma ConcatSplits(before: seq<Byte>, chunks: seq<seq<Byte>>)
    requires chunks != []
    ensures before + Concat(chunks) == (before + chunks[0]) + Concat(chunks[1..])
  {
    assert before + (chunks[0] + Concat(chunks[1..])) == (before + chunks[0]) + Concat(chunks[1..]);
  }

  lemma Associates<T>(a: seq<T>, b: seq<T>, c: seq<T>)
    ensures (a + b) + c == a + (b + c)
  {
  }

  lemma {:induction false} WholeOfWhole(length: nat, n: nat)
    requires n > 0
    ensures Whole(Whole(length, n), n) == Whole(length, n)
    decreases length
  {
    if length >= n { WholeOfWhole(length - n, n); }
  }

  // -------------------------------------------------------------------- analyzer

  const HopSize: nat := 2048

  lemma HopArithmetic(total: nat, n: nat)
    ensures total % HopSize + n >= HopSize <==> (total + n) / HopSize > total / HopSize
    ensures (total % HopSize + n) % HopSize == (total + n) % HopSize
    ensures total % HopSize + n < HopSize ==> total % HopSize + n == (total + n) % HopSize
  {
  }

  /** push: when a hop is complete the newest samples are analysed. */
  class RealtimeAudioAnalyzer {
    const ring: AudioRingBuffer
    var sinceAnalysis: nat

    ghost predicate Valid()
      reads this, ring, ring.values
    {
      ring.Valid() && sinceAnalysis == |ring.history| % HopSize
    }

    constructor (capacity: nat)
      requires capacity >= 1
      ensures Valid() && fresh(ring) && fresh(ring.values) && ring.history == [] && ring.values.Length == capacity
    {
      ring := new AudioRingBuffer(capacity);
      sinceAnalysis := 0;
    }

    method Push(samples: seq<real>) returns (analysed: bool)
      requires Valid()
      modifies this, ring, ring.values
      ensures Valid() && ring.history == old(ring.history) + samples
      ensures analysed <==> |ring.history| / 2048 > old(|ring.history|) / 2048
    {
      if |samples| == 0 {
        return false;
      }
      HopArithmetic(|ring.history|, |samples|);
      ring.Append(samples);
      sinceAnalysis := sinceAnalysis + |samples|;
      if sinceAnalysis < HopSize {
        return false;
      }
      sinceAnalysis := sinceAnalysis % HopSize;
      return true;
    }
  }

  // ---------------------------------------------------------------------- worker

  const QueueCapacity: nat := 8

  /** The worker: a queue that drops its oldest chunk when full, and the stream of
      the chunks that were processed. */
  class RealtimeAnalysisWorker {
    const decoder: PcmStreamDecoder
    const analyzer: RealtimeAudioAnalyzer
    var running: bool
    var queue: seq<seq<Byte>>
    ghost var submitted: seq<seq<Byte>>

    ghost predicate Valid()
      reads this, decoder, analyzer, analyzer.ring, analyzer.ring.values
    {
      && decoder.Valid() && analyzer.Valid()
      && analyzer.ring.history == decoder.decoded
      && |queue| <= QueueCapacity
      && |queue| <= |submitted| && queue == Newest(submitted, |queue|)
    }

    constructor (encoding: Encoding, capacity: nat)
      requires encoding.channels >= 1 && capacity >= 1
      ensures Valid() && fresh(decoder) && fresh(analyzer) && fresh(analyzer.ring) && fresh(analyzer.ring.values)
      ensures decoder.stream == [] && queue == [] && submitted == [] && running
    {
      decoder := new PcmStreamDecoder(encoding);
      analyzer := new RealtimeAudioAnalyzer(capacity);
      running, queue, submitted := true, [], [];
    }

    /** The queue always holds the newest accepted chunks, in order. */
    method Submit(payload: seq<Byte>)
      requires Valid()
      modifies this`queue, this`submitted
      ensures Valid()
      ensures payload == [] || !running ==> queue == old(queue) && submitted == old(submitted)
      ensures payload != [] && running ==>
                && submitted == old(submitted) + [payload]
                && queue == Newest(old(queue) + [payload], Min(|old(queue)| + 1, 8))
    {
      if |payload| == 0 || !running {
        return;
      }
      if |queue| >= QueueCapacity {
        queue := queue[1..];
      }
      queue := queue + [payload];
      submitted := submitted + [payload];
    }

    /** One turn of the worker thread. */
    method Process() returns (analysed: bool)
      requires Valid() && queue != []
      modifies this`queue, decoder, analyzer, analyzer.ring, analyzer.ring.values
      ensures Valid() && queue == old(queue)[1..] && submitted == old(submitted)
      ensures decoder.stream == old(decoder.stream) + old(queue)[0]
      ensures analysed <==> |decoder.decoded| / 2048 > old(|decoder.decoded|) / 2048
    {
      var payload := queue[0];
      queue := queue[1..];
      var samples := decoder.Decode(payload);
      analysed := analyzer.Push(samples);
    }

    /** However the processed bytes were split into chunks, the buffer shows the newest
        samples of the whole stream decoded at once. */
    method Latest(count: int) returns (r: seq<real>)
      requires Valid()
      ensures var all := Frames(decoder.encoding, decoder.stream);
              var shown := Min(Max(count, 0), Min(analyzer.ring.values.Length, |all|));
              r == Newest(all, shown)
    {
      r := analyzer.ring.Latest(count);
    }
  }

  // ------------------------------------------------------------------ reductions

  /** Exact integer edges of `points` buckets over n elements. */
  function Edge(i: nat, n: nat, points: nat): (r: nat)
    requires points > 0 && i <= points
    ensures r <= n
  {
    EdgeInRange(i, n, points);
    i * n / points
  }

  lemma EdgeInRange(i: nat, n: nat, points: nat)
    requires points > 0 && i <= points
    ensures 0 <= i * n / points <= n
  {
    Product(i, points, n);
    Quotients(i * n, n, points);
  }

  lemma {:induction false} Product(a: nat, b: nat, n: nat)
    requires a <= b
    ensures a * n <= b * n
    decreases b - a
  {
    if a < b {
      assert b * n == (b - 1) * n + n;
      Product(a, b - 1, n);
    }
  }

  /** Dividing: x <= q * d gives x / d <= q, and the other way round. */
  lemma Quotients(x: nat, q: nat, d: nat)
    requires d > 0
    ensures x <= q * d ==> x / d <= q
    ensures q * d <= x ==> q <= x / d
  {
    var p := x / d;
    if q < p { Stride(q, p, d); } else if p < q { Stride(p, q, d); }
  }

  /** The edges are spread evenly: each is its share of n, rounded down. */
  lemma EdgesAreEven(i: nat, n: nat, points: nat)
    requires points > 0 && i <= points
    ensures Edge(i, n, points) * points <= i * n < (Edge(i, n, points) + 1) * points
  {
    var x, q := i * n, Edge(i, n, points);
    assert x == q * points + x % points;
    assert (q + 1) * points == q * points + points;
  }

  /** With at least one element per bucket the edges increase strictly, from 0 to n. */
  lemma EdgesIncrease(i: nat, n: nat, points: nat)
    requires 0 < points <= n && i < points
    ensures Edge(0, n, points) == 0 && Edge(points, n, points) == n
    ensures Edge(i, n, points) < Edge(i + 1, n, points)
  {
    Quotients(0 * n, 0, points);
    assert points * n == n * points;
    Quotients(points * n, n, points);
    var p := i * n / points;
    assert (p + 1) * points == p * points + points;
    assert (i + 1) * n == i * n + n;
    Quotients((i + 1) * n, p + 1, points);
  }

  /** The first position of the greatest level in a bucket. */
  function ArgMax(levels: seq<real>, lo: nat, hi: nat): (k: nat)
    requires lo < hi <= |levels|
    ensures lo <= k < hi
    ensures forall j | lo <= j < hi :: levels[j] <= levels[k]
    ensures forall j | lo <= j < k :: levels[j] < levels[k]
  {
    if hi == lo + 1 then lo
    else
      var k := ArgMax(levels, lo, hi - 1);
      if levels[hi - 1] > levels[k] then hi - 1 else k
  }

  /** The position chosen for bucket i. */
  function Pick(levels: seq<real>, points: nat, i: nat): (k: nat)
    requires 0 < points <= |levels| && i < points
    ensures Edge(i, |levels|, points) <= k < Edge(i + 1, |levels|, points)
    ensures forall j | Edge(i, |levels|, points) <= j < Edge(i + 1, |levels|, points) :: levels[j] <= levels[k]
    ensures forall j | Edge(i, |levels|, points) <= j < k :: levels[j] < levels[k]
  {
    EdgesIncrease(i, |levels|, points);
    ArgMax(levels, Edge(i, |levels|, points), Edge(i + 1, |levels|, points))
  }

  method ReduceSpectrum(frequencies: seq<real>, levels: seq<real>, points: nat)
    returns (reducedFrequencies: seq<real>, reducedLevels: seq<real>)
    requires |frequencies| == |levels|
    ensures |levels| <= points ==> reducedFrequencies == frequencies && reducedLevels == levels
    ensures |levels| > points ==>
              && |reducedFrequencies| == |reducedLevels| == points
              && forall i | 0 <= i < points ::
                   && reducedFrequencies[i] == frequencies[Pick(levels, points, i)]
                   && reducedLevels[i] == levels[Pick(levels, points, i)]
  {
    if |frequencies| <= points {
      return frequencies, levels;
    }
    reducedFrequencies, reducedLevels := [], [];
    for index := 0 to points
      invariant |reducedFrequencies| == |reducedLevels| == index
      invariant forall i | 0 <= i < index ::
        && reducedFrequencies[i] == frequencies[Pick(levels, points, i)]
        && reducedLevels[i] == levels[Pick(levels, points, i)]
    {
      EdgesIncrease(index, |levels|, points);
      var start, end := Edge(index, |levels|, points), Edge(index + 1, |levels|, points);
      var peak := start;
      for j := start + 1 to end
        invariant start <= peak < j && peak == ArgMax(levels, start, j)
      {
        if levels[j] > levels[peak] {
          peak := j;
        }
      }
      reducedFrequencies := reducedFrequencies + [frequencies[peak]];
      reducedLevels := reducedLevels + [levels[peak]];
    }
  }

  lemma {:induction false} EdgesAreOrdered(i: nat, j: nat, n: nat, points: nat)
    requires 0 < points <= n && i < j <= points
    ensures Edge(i, n, points) < Edge(j, n, points)
    decreases j - i
  {
    EdgesIncrease(j - 1, n, points);
    if i < j - 1 { EdgesAreOrdered(i, j - 1, n, points); }
  }

  /** The buckets partition the input: every position lies in exactly one. */
  lemma {:induction false} BucketOf(k: nat, n: nat, points: nat) returns (i: nat)
    requires 0 < points <= n && k < n
    ensures i < points && Edge(i, n, points) <= k < Edge(i + 1, n, points)
    ensures forall j | 0 <= j < points && Edge(j, n, points) <= k < Edge(j + 1, n, points) :: j == i
  {
    i := 0;
    EdgesIncrease(0, n, points);
    while Edge(i + 1, n, points) <= k
      invariant i < points && Edge(i, n, points) <= k
      decreases points - i
    {
      i := i + 1;
      EdgesIncrease(0, n, points);
    }
    forall j | 0 <= j < points && Edge(j, n, points) <= k < Edge(j + 1, n, points) ensures j == i {
      if j < i { EdgesAtMost(j + 1, i, n, points); }
      if i < j { EdgesAtMost(i + 1, j, n, points); }
    }
  }

  lemma EdgesAtMost(i: nat, j: nat, n: nat, points: nat)
    requires 0 < points <= n && i <= j <= points
    ensures Edge(i, n, points) <= Edge(j, n, points)
  {
    if i < j { EdgesAreOrdered(i, j, n, points); }
  }

  /** No level is lost above the reduction: every one, and so the maximum, is reached
      by the level kept for some bucket. */
  lemma ReductionKeepsPeak(levels: seq<real>, points: nat, k: nat) returns (i: nat)
    requires 0 < points <= |levels| && k < |levels|
    ensures i < points && levels[k] <= levels[Pick(levels, points, i)]
  {
    i := BucketOf(k, |levels|, points);
  }

  /** Strictly increasing frequencies stay strictly increasing. */
  lemma ReductionKeepsOrder(frequencies: seq<real>, levels: seq<real>, points: nat, i: nat, j: nat)
    requires |frequencies| == |levels| && 0 < points <= |levels| && i < j < points
    requires forall a, b | 0 <= a < b < |frequencies| :: frequencies[a] < frequencies[b]
    ensures frequencies[Pick(levels, points, i)] < frequencies[Pick(levels, points, j)]
  {
    EdgesAtMost(i + 1, j, |levels|, points);
  }

  // -------------------------------------------------------------------- envelope

  function Lowest(samples: seq<real>): (r: real)
    requires samples != []
    ensures r in samples && forall x | x in samples :: r <= x
  {
    if |samples| == 1 then samples[0]
    else
      var rest := Lowest(samples[1..]);
      assert samples == [samples[0]] + samples[1..];
      if samples[0] <= rest then samples[0] else rest
  }

  function Highest(samples: seq<real>): (r: real)
    requires samples != []
    ensures r in samples && forall x | x in samples :: x <= r
  {
    if |samples| == 1 then samples[0]
    else
      var rest := Highest(samples[1..]);
      assert samples == [samples[0]] + samples[1..];
      if samples[0] >= rest then samples[0] else rest
  }

  /** ceil(n / points), at least one. */
  function GroupSize(n: nat, points: nat): (g: nat)
    ensures g >= 1
  {
    var p := Max(points, 1);
    Max((n + p - 1) / p, 1)
  }

  /** No smaller groups would do with so few of them. */
  lemma GroupSizeIsLeast(n: nat, points: nat)
    requires points >= 1
    ensures n <= GroupSize(n, points) * points
    ensures n >= 1 ==> (GroupSize(n, points) - 1) * points < n
  {
    var q := (n + points - 1) / points;
    assert n + points - 1 == q * points + (n + points - 1) % points;
    assert (q - 1) * points == q * points - points;
    if q < 1 { Product(q, 1, points); }
  }

  /** All groups but the last are full. */
  lemma {:induction false} GroupsAreFull(samples: seq<real>, g: nat)
    requires g >= 1
    ensures var groups := Groups(samples, g);
            && (groups == [] <==> samples == [])
            && forall i | 0 <= i < |groups| - 1 :: |groups[i]| == g
    decreases |samples|
  {
    if |samples| > g {
      GroupsAreFull(samples[g..], g);
      var groups := Groups(samples, g);
      forall i | 0 <= i < |groups| - 1 ensures |groups[i]| == g {
        if i > 0 {
          assert groups[i] == Groups(samples[g..], g)[i - 1];
        }
      }
    }
  }

  /** Consecutive groups of g samples, the last one possibly shorter. */
  function Groups(samples: seq<real>, g: nat): (r: seq<seq<real>>)
    requires g >= 1
    ensures forall group | group in r :: 0 < |group| <= g
    decreases |samples|
  {
    if samples == [] then []
    else if |samples| <= g then [samples]
    else [samples[..g]] + Groups(samples[g..], g)
  }

  function DownsampleEnvelope(samples: seq<real>, points: nat): (r: seq<(real, real)>)
    ensures |r| == |Groups(samples, GroupSize(|samples|, points))|
  {
    var groups := Groups(samples, GroupSize(|samples|, points));
    seq(|groups|, i requires 0 <= i < |groups| => (Lowest(groups[i]), Highest(groups[i])))
  }


  lemma {:induction false} GroupsCover(samples: seq<real>, g: nat, count: nat)
    requires g >= 1 && |samples| <= count * g
    ensures Concat(Groups(samples, g)) == samples
    ensures |Groups(samples, g)| <= count
    decreases |samples|
  {
    if samples != [] {
      if |samples| <= g {
        assert Concat([samples]) == samples + Concat([]);
      } else {
        assert (count - 1) * g == count * g - g;
        GroupsCover(samples[g..], g, count - 1);
        assert samples == samples[..g] + samples[g..];
      }
    }
  }

  /** The envelope has at most `points` groups; they are exactly the input cut into
      consecutive pieces, and each bounds exactly its own samples. */
  lemma EnvelopeBoundsItsSamples(samples: seq<real>, points: nat)
    requires points >= 1
    ensures var groups := Groups(samples, GroupSize(|samples|, points));
            var envelope := DownsampleEnvelope(samples, points);
            && |envelope| == |groups| <= points
            && Concat(groups) == samples
            && forall i | 0 <= i < |groups| ::
                 && envelope[i].0 in groups[i] && envelope[i].1 in groups[i]
                 && (i < |groups| - 1 ==> |groups[i]| == GroupSize(|samples|, points))
                 && forall x | x in groups[i] :: envelope[i].0 <= x <= envelope[i].1
    ensures |samples| <= GroupSize(|samples|, points) * points
    ensures samples != [] ==> (GroupSize(|samples|, points) - 1) * points < |samples|
  {
    var g := GroupSize(|samples|, points);
    GroupSizeIsLeast(|samples|, points);
    Commutes(g, points);
    GroupsAreFull(samples, g);
    GroupsCover(samples, g, points);
    BoundsHold(samples, points);
  }

  lemma Commutes(a: nat, b: nat)
    ensures a * b == b * a
  {
  }

  lemma BoundsHold(samples: seq<real>, points: nat)
    ensures var groups, envelope := Groups(samples, GroupSize(|samples|, points)), DownsampleEnvelope(samples, points);
            && |envelope| == |groups|
            && forall i | 0 <= i < |groups| ::
                 && envelope[i].0 in groups[i] && envelope[i].1 in groups[i]
                 && forall x | x in groups[i] :: envelope[i].0 <= x <= envelope[i].1
  {
  }
}
