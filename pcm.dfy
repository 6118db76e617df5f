/**
  16-bit little-endian PCM as the audio mixer of server/media_relay.py unpacks and packs it
  (`struct.unpack('<…h')` and `struct.pack('<…h')`), and the sample averaging it mixes with.
 */
module Pcm {
  import opened Wrappers
  import opened Bytes

  const MinSample: int := -32768
  const MaxSample: int := 32767

  predicate IsSample(x: int) { MinSample <= x <= MaxSample }

  predicate AllSamples(s: seq<int>) { forall i :: 0 <= i < |s| ==> IsSample(s[i]) }

  /** The signed 16-bit value of a little-endian byte pair. */
  function SampleOf(lo: byte, hi: byte): (x: int)
    ensures IsSample(x)
  {
    var u := lo as int + 256 * hi as int;
    if u >= 32768 then u - 65536 else u
  }

  /** The byte pair of a sample, low byte first. */
  function PairOf(x: int): (r: (byte, byte))
    requires IsSample(x)
    ensures SampleOf(r.0, r.1) == x
  {
    var u := if x < 0 then x + 65536 else x;
    ((u % 256) as byte, (u / 256) as byte)
  }

  /** `struct.unpack('<%dh' % (len(b) // 2), b)`: refused unless the length is even. */
  function Unpack(b: seq<byte>): (r: Option<seq<int>>)
    ensures r.Some? <==> |b| % 2 == 0
    ensures r.Some? ==> |r.value| == |b| / 2 && AllSamples(r.value)
    decreases |b|
  {
    if |b| == 0 then Some([])
    else if |b| == 1 then None
    else match Unpack(b[2..])
      case None => None
      case Some(rest) => Some([SampleOf(b[0], b[1])] + rest)
  }

  /** `struct.pack('<%dh' % len(s), *s)`: refused when a value does not fit in 16 bits. */
  function Pack(s: seq<int>): (r: Option<seq<byte>>)
    ensures r.Some? <==> AllSamples(s)
    ensures r.Some? ==> |r.value| == 2 * |s|
  {
    if s == [] then Some([])
    else if !IsSample(s[0]) then None
    else match Pack(s[1..])
      case None => None
      case Some(rest) => var (lo, hi) := PairOf(s[0]); Some([lo, hi] + rest)
  }

  /** Unpacking what was packed gives the samples back. */
  lemma {:induction false} UnpackPack(s: seq<int>)
    requires AllSamples(s)
    ensures Unpack(Pack(s).value) == Some(s)
  {
    if s != [] {
      UnpackPack(s[1..]);
      var b := Pack(s).value;
      var p := PairOf(s[0]);
      assert b == [p.0, p.1] + Pack(s[1..]).value;
      assert b[2..] == Pack(s[1..]).value;
      assert b[0] == p.0 && b[1] == p.1;
      assert Unpack(b) == Some([SampleOf(p.0, p.1)] + s[1..]);
      assert [s[0]] + s[1..] == s;
    }
  }

  /** Packing what was unpacked gives the bytes back. */
  lemma {:induction false} PackUnpack(b: seq<byte>)
    requires |b| % 2 == 0
    ensures Pack(Unpack(b).value) == Some(b)
    decreases |b|
  {
    if |b| > 0 {
      PackUnpack(b[2..]);
      var u := b[0] as int + 256 * b[1] as int;
      var p := PairOf(SampleOf(b[0], b[1]));
      assert p.0 == b[0] && p.1 == b[1];
      assert [b[0], b[1]] + b[2..] == b;
    }
  }

  /** `max(-32768, min(32767, x))` */
  function Clamp(x: int): (r: int)
    ensures IsSample(r)
    ensures IsSample(x) ==> r == x
  {
    if x < MinSample then MinSample else if x > MaxSample then MaxSample else x
  }

  /** The shortest length among the sources (`min(len(s) for s in sources)`). */
  function MinLength(sources: seq<seq<int>>): (n: nat)
    requires sources != []
    ensures forall k :: 0 <= k < |sources| ==> n <= |sources[k]|
    ensures exists k :: 0 <= k < |sources| && n == |sources[k]|
  {
    if |sources| == 1 then |sources[0]|
    else
      var rest := MinLength(sources[1..]);
      assert forall k :: 1 <= k < |sources| ==> sources[k] == sources[1..][k - 1];
      if |sources[0]| <= rest then |sources[0]| else rest
  }

  /** The sum of the `i`-th samples of all sources (`sum(s[i] for s in sources)`). */
  function SumAt(sources: seq<seq<int>>, i: nat): int
    requires forall k :: 0 <= k < |sources| ==> i < |sources[k]|
  {
    if sources == [] then 0 else sources[0][i] + SumAt(sources[1..], i)
  }

  /** The mix of `_average_audio_samples`: per position, the floored mean of the sources, clamped. */
  function Mix(sources: seq<seq<int>>): (r: seq<int>)
    ensures sources == [] ==> r == []
    ensures sources != [] ==> |r| == MinLength(sources)
    ensures AllSamples(r)
  {
    if sources == [] then []
    else seq(MinLength(sources), i requires 0 <= i < MinLength(sources) => Clamp(SumAt(sources, i) / |sources|))
  }

  /** `_average_audio_samples`: one pass over the positions both sources share. */
  method AverageAudioSamples(sources: seq<seq<int>>) returns (mixed: seq<int>)
    ensures mixed == Mix(sources)
  {
    if sources == [] {
      return [];
    }
    var n := MinLength(sources);
    mixed := [];
    var i := 0;
    while i < n
      invariant 0 <= i <= n
      invariant mixed == Mix(sources)[..i]
    {
      var avg := SumAt(sources, i) / |sources|;
      mixed := mixed + [Clamp(avg)];
      i := i + 1;
    }
  }

  /** A sum of `n` values between `lo` and `hi` lies between `n·lo` and `n·hi`. */
  lemma {:induction false} SumAtBounds(sources: seq<seq<int>>, i: nat, lo: int, hi: int)
    requires forall k :: 0 <= k < |sources| ==> i < |sources[k]| && lo <= sources[k][i] <= hi
    ensures lo * |sources| <= SumAt(sources, i) <= hi * |sources|
  {
    if sources != [] {
      SumAtBounds(sources[1..], i, lo, hi);
    }
  }

  lemma PositiveFactor(a: int, n: int)
    requires n > 0 && a * n > 0
    ensures a > 0
  {
  }

  lemma NonNegativeFactor(a: int, n: int)
    requires n > 0 && a * n >= 0
    ensures a >= 0
  {
  }

  /** Floored division keeps a value between `lo·n` and `hi·n` between `lo` and `hi`. */
  lemma DivBounds(s: int, n: int, lo: int, hi: int)
    requires n > 0 && lo * n <= s <= hi * n
    ensures lo <= s / n <= hi
  {
    var q := s / n;
    assert s == q * n + s % n && 0 <= s % n < n;
    assert (q + 1 - lo) * n == q * n + n - lo * n;
    PositiveFactor(q + 1 - lo, n);
    assert (hi - q) * n == hi * n - q * n;
    NonNegativeFactor(hi - q, n);
  }

  /**
    The mix at a position lies within the range the sources span there: silence mixes to
    silence, agreeing sources to their common value, and the 16-bit clamp never bites.
   */
  lemma MixWithinSources(sources: seq<seq<int>>, i: nat, lo: int, hi: int)
    requires sources != [] && i < MinLength(sources)
    requires forall k :: 0 <= k < |sources| ==> lo <= sources[k][i] <= hi
    requires forall k :: 0 <= k < |sources| ==> AllSamples(sources[k])
    ensures lo <= Mix(sources)[i] <= hi
    ensures Mix(sources)[i] == SumAt(sources, i) / |sources|
  {
    SumAtBounds(sources, i, lo, hi);
    DivBounds(SumAt(sources, i), |sources|, lo, hi);
    SumAtBounds(sources, i, MinSample, MaxSample);
    DivBounds(SumAt(sources, i), |sources|, MinSample, MaxSample);
  }

  /** A lone source is its own mix. */
  lemma SingleSourceMix(s: seq<int>)
    requires AllSamples(s)
    ensures Mix([s]) == s
  {
    forall i | 0 <= i < |s|
      ensures Mix([s])[i] == s[i]
    {
      MixWithinSources([s], i, s[i], s[i]);
    }
  }
}
