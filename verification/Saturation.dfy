/** Saturating 16-bit vector arithmetic and what repeated saturating addition
    means for the parties of one conference. */
module Saturation {
  import opened Words

  function Clamp(x: int): (r: int)
    ensures Short(r) && (Short(x) ==> r == x)
    ensures x > 32767 ==> r == 32767
    ensures x < -32768 ==> r == -32768
  {
    if x > 32767 then 32767 else if x < -32768 then -32768 else x
  }

  /** Every lane of `dst` becomes the sum of both lanes, held to 16 bits. */
  method Acss(dst: array<int>, src: array<int>)
    requires dst.Length == src.Length
    modifies dst
    ensures forall x :: 0 <= x < dst.Length ==> dst[x] == Clamp(old(dst[x]) + old(src[x]))
  {
    for x := 0 to dst.Length
      invariant forall y :: 0 <= y < x ==> dst[y] == Clamp(old(dst[y]) + old(src[y]))
      invariant forall y :: x <= y < dst.Length ==> dst[y] == old(dst[y]) && src[y] == old(src[y])
    {
      var sum := dst[x] + src[x];
      if sum > 32767 {
        sum := 32767;
      } else if sum < -32768 {
        sum := -32768;
      }
      dst[x] := sum;
    }
  }

  /** Every lane of `dst` becomes its difference to that of `src`, held to 16 bits. */
  method Scss(dst: array<int>, src: array<int>)
    requires dst.Length == src.Length
    modifies dst
    ensures forall x :: 0 <= x < dst.Length ==> dst[x] == Clamp(old(dst[x]) - old(src[x]))
  {
    for x := 0 to dst.Length
      invariant forall y :: 0 <= y < x ==> dst[y] == Clamp(old(dst[y]) - old(src[y]))
      invariant forall y :: x <= y < dst.Length ==> dst[y] == old(dst[y]) && src[y] == old(src[y])
    {
      var sum := dst[x] - src[x];
      if sum > 32767 {
        sum := 32767;
      } else if sum < -32768 {
        sum := -32768;
      }
      dst[x] := sum;
    }
  }

  ghost predicate Between(share: int, sample: int) {
    0 <= share <= sample || sample <= share <= 0
  }

  /** What a listener with own audio `own` gets from a conference holding `sum` after
      having added `share` to it. */
  function Heard(own: int, share: int, sum: int): int {
    Clamp(Clamp(own - share) + sum)
  }

  /** Taking a saturating addition back gives an exact part of the sample, which is
      then added without saturation. */
  lemma AmountReallyAdded(sum: int, sample: int)
    requires Short(sum) && Short(sample)
    ensures var share := Clamp(sum + sample) - sum;
            Clamp(share) == share && Between(share, sample) && Clamp(sum + share) == Clamp(sum + sample) == sum + share
  {
  }

  /** A listener with silent own audio hears the clamp of the conference without the
      own share, except after a share of -32768 into a negative sum. */
  lemma SilentListener(share: int, sum: int)
    requires Short(share) && Short(sum)
    ensures Heard(0, share, sum) == Clamp(sum - share) <==> share > -32768 || sum >= 0
  {
  }

  /** A listener keeps its own audio and gets the conference without its share besides,
      where nothing clips. */
  lemma ListenerKeepsOwn(own: int, share: int, sum: int)
    requires Short(own - share) && Short(own - share + sum)
    ensures Heard(own, share, sum) == own + (sum - share)
  {
  }
}
