/** What the decoded samples are, byte by byte: each format's values, how the channels
    are mixed, and where in the stream a sample comes from. */
module AudioFormats {
  import opened RealtimeAudio

  /** A frame of a stream, by itself. */
  lemma OneFrame(e: Encoding, frame: seq<Byte>)
    requires e.channels >= 1 && |frame| == FrameBytes(e)
    ensures Frames(e, frame) == [Mono(e, frame)]
  {
    var f := FramingOf(e);
    assert frame[..f.size] == frame && frame[f.size..] == [];
    assert Cut(f, []) == [];
  }

  lemma OneChannel(e: Encoding, bytes: seq<Byte>)
    requires e.channels == 1 && |bytes| == ItemBytes(e.format)
    ensures FrameBytes(e) == |bytes| && Mono(e, bytes) == Clean(Item(e, bytes))
  {
    assert BytesOf(e.format, 0) == 0;
    assert bytes[..|bytes|] == bytes && bytes[|bytes|..] == [];
    assert Sum(e, bytes, 1) == Plus(Item(e, bytes), Sum(e, [], 0));
  }

  /** An unsigned byte, around its middle. */
  lemma UInt8Sample(e: Encoding, b: Byte)
    requires e.format == UInt8 && e.channels == 1
    ensures Frames(e, [b]) == [(b as real - 128.0) / 128.0]
  {
    OneChannel(e, [b]);
    OneFrame(e, [b]);
    assert Word([b]) == b + 256 * Word([b][1..]);
  }

  /** Two bytes, the low one first, in two's complement. */
  lemma Int16Sample(e: Encoding, lo: Byte, hi: Byte)
    requires e.format == Int16 && e.channels == 1
    ensures Frames(e, [lo, hi]) == [(lo + 256 * hi - (if hi >= 128 then 65536 else 0)) as real / 32768.0]
  {
    OneChannel(e, [lo, hi]);
    OneFrame(e, [lo, hi]);
    WordOfTwo(lo, hi);
  }

  lemma WordOfTwo(a: Byte, b: Byte)
    ensures Word([a, b]) == a + 256 * b
  {
    assert [a, b][1..] == [b] && [b][1..] == [];
    assert Word([b]) == b + 256 * Word([]);
  }

  lemma WordOfFour(a: Byte, b: Byte, c: Byte, d: Byte)
    ensures Word([a, b, c, d]) == a + 256 * b + 65536 * c + 16777216 * d
  {
    assert [a, b, c, d][1..] == [b, c, d] && [b, c, d][1..] == [c, d];
    WordOfTwo(c, d);
  }

  /** The whole number that four bytes make, the lowest first, in two's complement. */
  function Whole32(a: Byte, b: Byte, c: Byte, d: Byte): int {
    a + 256 * b + 65536 * c + 16777216 * d - if d >= 128 then 4294967296 else 0
  }

  /** Four bytes: exactly, as long as 24 bits suffice, and never further off than 64. */
  lemma Int32Sample(e: Encoding, a: Byte, b: Byte, c: Byte, d: Byte)
    requires e.format == Int32 && e.channels == 1
    ensures var n, samples := Whole32(a, b, c, d), Frames(e, [a, b, c, d]);
            && |samples| == 1
            && (-16777216 < n < 16777216 ==> samples[0] == n as real / 2147483648.0)
            && (n as real - 64.0) / 2147483648.0 <= samples[0] <= (n as real + 64.0) / 2147483648.0
  {
    OneChannel(e, [a, b, c, d]);
    OneFrame(e, [a, b, c, d]);
    WordOfFour(a, b, c, d);
    var n := Whole32(a, b, c, d);
    assert Signed(Word([a, b, c, d]), 0x1_0000_0000) == n;
    SingleIsNear(n);
    Monotone(n as real - 64.0, Single(n) as real);
    Monotone(Single(n) as real, n as real + 64.0);
  }

  /** The 64 greatest numbers are read as the end of the range. */
  lemma Int32FullScale(e: Encoding, a: Byte, b: Byte, c: Byte, d: Byte)
    requires e.format == Int32 && e.channels == 1
    ensures Frames(e, [a, b, c, d]) == [1.0] <==> Whole32(a, b, c, d) >= 2147483584
  {
    OneChannel(e, [a, b, c, d]);
    OneFrame(e, [a, b, c, d]);
    WordOfFour(a, b, c, d);
    FullScaleExactlyWhen(e, [a, b, c, d]);
  }

  lemma Monotone(x: real, y: real)
    requires x <= y
    ensures x / 2147483648.0 <= y / 2147483648.0
  {
  }

  lemma SingleIsNear(n: int)
    requires -FullScale <= n < FullScale
    ensures n - 64 <= Single(n) <= n + 64
    ensures -16777216 < n < 16777216 ==> Single(n) == n
  {
    var m := if n < 0 then -n else n;
    SpacingIsSmall(m);
    NearestIsNear(m, Spacing(m));
  }

  lemma NearestIsNear(m: nat, u: nat)
    requires u in {1, 2, 4, 8, 16, 32, 64, 128, 256} && (u == 256 ==> m == FullScale)
    ensures m - 64 <= Nearest(m, u) <= m + 64
    ensures u == 1 ==> Nearest(m, u) == m
  {
  }

  /** Four bytes of float32: what they say, with NaN as silence and the infinities as the
      ends of the range. */
  lemma Float32Sample(e: Encoding, bytes: seq<Byte>)
    requires e.format == Float32 && e.channels == 1 && |bytes| == 4
    ensures Frames(e, bytes)
            == [match e.float(bytes) case Finite(x) => x case NotANumber => 0.0 case Infinite(positive) => if positive then 1.0 else -1.0]
  {
    OneChannel(e, bytes);
    OneFrame(e, bytes);
  }

  // -------------------------------------------------------------------- the channels

  /** The same format with one channel. */
  function Single1(e: Encoding): Encoding {
    e.(channels := 1)
  }

  function Total(xs: seq<real>): real {
    if xs == [] then 0.0 else xs[0] + Total(xs[1..])
  }

  /** What each channel of a frame would be by itself. */
  function Voices(e: Encoding, items: seq<seq<Byte>>): seq<real>
    requires forall item | item in items :: |item| == ItemBytes(e.format)
  {
    seq(|items|, i requires 0 <= i < |items| => Voice(e, items[i]))
  }

  function Voice(e: Encoding, item: seq<Byte>): real
    requires |item| == ItemBytes(e.format)
  {
    var samples := Frames(Single1(e), item);
    if samples == [] then 0.0 else samples[0]
  }

  /** No channel is a NaN or an infinity. */
  predicate AllFinite(e: Encoding, items: seq<seq<Byte>>) {
    e.format == Float32 ==> forall item | item in items :: e.float(item).Finite?
  }

  lemma VoiceIs(e: Encoding, item: seq<Byte>)
    requires |item| == ItemBytes(e.format) && AllFinite(e, [item])
    ensures Item(e, item) == Finite(Voice(e, item))
  {
    assert item in [item];
    OneChannel(Single1(e), item);
    OneFrame(Single1(e), item);
    assert Item(Single1(e), item) == Item(e, item);
  }

  lemma {:induction false} SumIsTotal(e: Encoding, items: seq<seq<Byte>>)
    requires forall item | item in items :: |item| == ItemBytes(e.format)
    requires AllFinite(e, items)
    ensures |Concat(items)| == BytesOf(e.format, |items|)
    ensures Sum(e, Concat(items), |items|) == Finite(Total(Voices(e, items)))
    decreases |items|
  {
    if items != [] {
      var rest := items[1..];
      assert items[0] in items && forall item | item in rest :: item in items;
      SumIsTotal(e, rest);
      VoiceIs(e, items[0]);
      SumNext(e, items);
      TotalNext(e, items);
    }
  }

  lemma TotalNext(e: Encoding, items: seq<seq<Byte>>)
    requires items != [] && forall item | item in items :: |item| == ItemBytes(e.format)
    requires forall item | item in items[1..] :: item in items
    ensures Total(Voices(e, items)) == Voice(e, items[0]) + Total(Voices(e, items[1..]))
  {
    assert Voices(e, items)[1..] == Voices(e, items[1..]);
  }

  lemma SumNext(e: Encoding, items: seq<seq<Byte>>)
    requires items != [] && |items[0]| == ItemBytes(e.format) && |Concat(items[1..])| == BytesOf(e.format, |items| - 1)
    ensures |Concat(items)| == BytesOf(e.format, |items|)
    ensures Sum(e, Concat(items), |items|) == Plus(Item(e, items[0]), Sum(e, Concat(items[1..]), |items| - 1))
  {
    var n := ItemBytes(e.format);
    assert Concat(items)[..n] == items[0] && Concat(items)[n..] == Concat(items[1..]);
  }

  /** A frame of several channels is the mean of what they are by themselves. */
  lemma ChannelsAreAveraged(e: Encoding, items: seq<seq<Byte>>)
    requires e.channels == |items| >= 1
    requires forall item | item in items :: |item| == ItemBytes(e.format)
    requires AllFinite(e, items)
    ensures Frames(e, Concat(items)) == [Total(Voices(e, items)) / |items| as real]
  {
    SumIsTotal(e, items);
    OneFrame(e, Concat(items));
  }

  /** A NaN, or infinities of both signs, silence the frame. */
  lemma {:induction false} SumIsUndefined(e: Encoding, items: seq<seq<Byte>>)
    requires e.format == Float32 && forall item | item in items :: |item| == 4
    ensures |Concat(items)| == BytesOf(Float32, |items|)
    ensures var sum := Sum(e, Concat(items), |items|);
            var up, down := (exists item :: item in items && e.float(item) == Infinite(true)), (exists item :: item in items && e.float(item) == Infinite(false));
            && (sum.NotANumber? <==> (exists item :: item in items && e.float(item).NotANumber?) || (up && down))
            && (sum == Infinite(true) ==> up) && (sum == Infinite(false) ==> down)
            && (up && !sum.NotANumber? ==> sum == Infinite(true)) && (down && !sum.NotANumber? ==> sum == Infinite(false))
    decreases |items|
  {
    if items != [] {
      var rest := items[1..];
      assert items == [items[0]] + rest;
      SumIsUndefined(e, rest);
      assert Concat(items)[..4] == items[0] && Concat(items)[4..] == Concat(rest);
    }
  }

  lemma UndefinedFrame(e: Encoding, items: seq<seq<Byte>>)
    requires e.format == Float32 && e.channels == |items| >= 1 && forall item | item in items :: |item| == 4
    ensures var up, down := (exists item :: item in items && e.float(item) == Infinite(true)), (exists item :: item in items && e.float(item) == Infinite(false));
            var nan := exists item :: item in items && e.float(item).NotANumber?;
            && (nan || (up && down) ==> Frames(e, Concat(items)) == [0.0])
            && (!nan && up && !down ==> Frames(e, Concat(items)) == [1.0])
            && (!nan && down && !up ==> Frames(e, Concat(items)) == [-1.0])
  {
    SumIsUndefined(e, items);
    OneFrame(e, Concat(items));
  }

  // ---------------------------------------------------------------------- the stream

  /** How many bytes a frame has. */
  lemma FrameIs(e: Encoding)
    ensures FrameBytes(e) == e.channels * (if e.format == UInt8 then 1 else if e.format == Int16 then 2 else 4)
  {
    BytesAre(e.format, e.channels);
  }

  lemma {:induction false} BytesAre(format: Format, count: nat)
    ensures BytesOf(format, count) == count * ItemBytes(format)
  {
    if count > 0 {
      BytesAre(format, count - 1);
      assert count * ItemBytes(format) == (count - 1) * ItemBytes(format) + ItemBytes(format);
    }
  }

  /** The k-th sample of a stream is that of its k-th frame. */
  lemma {:induction false} SampleAt(e: Encoding, data: seq<Byte>, k: nat)
    requires e.channels >= 1 && (k + 1) * FrameBytes(e) <= |data|
    ensures 0 <= k * FrameBytes(e) <= (k + 1) * FrameBytes(e)
    ensures var n := FrameBytes(e);
            k < |Frames(e, data)| && Frames(e, data[k * n..(k + 1) * n]) == [Frames(e, data)[k]]
    decreases k
  {
    var n := FrameBytes(e);
    OneMoreFrame(k, n);
    if k == 0 {
      assert data[0 * n..(0 + 1) * n] == data[..n];
      OneFrame(e, data[..n]);
    } else {
      OneMoreFrame(k - 1, n);
      FirstFrameAside(e, data, k, k * n, (k + 1) * n);
      SampleAt(e, data[n..], k - 1);
      assert data[n..][(k - 1) * n..(k - 1 + 1) * n] == data[k * n..(k + 1) * n];
    }
  }

  lemma FirstFrameAside(e: Encoding, data: seq<Byte>, k: nat, lo: nat, hi: nat)
    requires e.channels >= 1 && k >= 1 && FrameBytes(e) <= lo <= hi <= |data|
    ensures data[FrameBytes(e)..][lo - FrameBytes(e)..hi - FrameBytes(e)] == data[lo..hi]
    ensures |Frames(e, data)| == |Frames(e, data[FrameBytes(e)..])| + 1
    ensures k - 1 < |Frames(e, data[FrameBytes(e)..])| ==> Frames(e, data)[k] == Frames(e, data[FrameBytes(e)..])[k - 1]
  {
  }

  /** There are as many samples as whole frames. */
  lemma {:induction false} CountIs(e: Encoding, data: seq<Byte>)
    requires e.channels >= 1
    ensures |Frames(e, data)| * FrameBytes(e) <= |data| < (|Frames(e, data)| + 1) * FrameBytes(e)
    decreases |data|
  {
    var n := FrameBytes(e);
    if |data| >= n {
      CountIs(e, data[n..]);
      OneMoreFrame(|Frames(e, data[n..])|, n);
    }
  }

  lemma OneMoreFrame(k: nat, n: nat)
    ensures (k + 1) * n == k * n + n && (k + 1 + 1) * n == (k + 1) * n + n
  {
  }
}
