/** Samples, clipping and mixing (internal/audio/tones.go, internal/audio/g711.go). */
module Audio {

  const FRAME := 160

  /** 16-bit samples and 32-bit sums, whose ranges every operation has to keep. */
  type Sample = x: int | -0x8000 <= x < 0x8000

  type Int32 = x: int | -0x8000_0000 <= x < 0x8000_0000

  function Clip(v: Int32): Sample {
    if v > 0x7FFF then 0x7FFF else if v < -0x8000 then -0x8000 else v
  }

  function Sum2(a: Sample, b: Sample): Int32 {
    var x: int, y: int := a, b;
    x + y
  }

  /** dst with src added, where there is src. */
  function Mixed(dst: seq<Sample>, src: seq<Sample>): (r: seq<Sample>)
    ensures |r| == |dst|
    ensures forall j | 0 <= j < |dst| :: r[j] == if j < |src| then Clip(Sum2(dst[j], src[j])) else dst[j]
  {
    if dst == [] then []
    else if src == [] then dst
    else [Clip(Sum2(dst[0], src[0]))] + Mixed(dst[1..], src[1..])
  }

  /** MixInto, on the first n samples of an array. */
  method MixInto(dst: array<Sample>, n: nat, src: seq<Sample>)
    requires n <= dst.Length
    modifies dst
    ensures dst[..] == Mixed(old(dst[..n]), src) + old(dst[n..])
  {
    var i := 0;
    while i < n && i < |src|
      invariant 0 <= i <= n
      invariant i <= |src|
      invariant forall j | 0 <= j < i :: dst[j] == Clip(Sum2(old(dst[j]), src[j]))
      invariant forall j | i <= j < dst.Length :: dst[j] == old(dst[j])
    {
      dst[i] := Clip(Sum2(dst[i], src[i]));
      i := i + 1;
    }
  }
}
