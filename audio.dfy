/** Duration guard and segmenter of the audio pipeline. Audio is known only
    by its length in whole milliseconds (`len(audio)` of a decoded clip). */
module Audio {

  const MsPerMinute: nat := 60_000
  /** Longest accepted audio, in minutes. */
  const MaxMinutes: nat := 50
  /** The same ceiling in milliseconds. */
  const MaxDurationMs: nat := 3_000_000
  /** Length of one transcription segment: 20 minutes, the provider's limit. */
  const SegmentMs: nat := 1_200_000

  /** A slice `[start, end)` of the audio, in milliseconds. */
  datatype Segment = Segment(start: nat, end: nat)

  function Min(a: int, b: int): int { if a <= b then a else b }

  /** The guard `duration_ms / 60000 > 50`, a true division compared as a
      number of minutes; for whole milliseconds it is exactly "longer than
      3,000,000 ms". */
  predicate ExceedsCeiling(durationMs: nat): (r: bool)
    ensures r <==> durationMs > MaxDurationMs
  {
    (durationMs as real) / (MsPerMinute as real) > MaxMinutes as real
  }

  /** `ceil(d / SegmentMs)`. */
  function SegmentCount(d: nat): nat {
    (d + SegmentMs - 1) / SegmentMs
  }

  /** The start offsets `range(from, d, SegmentMs)`. */
  function SegmentStarts(from: nat, d: nat): (r: seq<nat>)
    ensures |r| == if from < d then SegmentCount(d - from) else 0
    ensures forall k :: 0 <= k < |r| ==> r[k] == from + k * SegmentMs < d
    decreases d - from
  {
    if from < d then [from] + SegmentStarts(from + SegmentMs, d) else []
  }

  /** Slicing an audio clip of length `d` as `audio[from:to]`: both ends are
      clamped to the length of the clip. */
  function Slice(d: nat, from: nat, to: nat): Segment {
    Segment(Min(from, d), Min(to, d))
  }

  /** The segments `[audio[i:i + SegmentMs] for i in range(0, d, SegmentMs)]`:
      there are `ceil(d / SegmentMs)` of them; the `k`-th starts at
      `k * SegmentMs`, below `d`, and ends at `min(start + SegmentMs, d)`. */
  function Segments(d: nat): (r: seq<Segment>)
    ensures |r| == SegmentCount(d)
    ensures forall k :: 0 <= k < |r| ==>
      r[k].start == k * SegmentMs < d && r[k].end == Min(k * SegmentMs + SegmentMs, d)
  {
    var starts := SegmentStarts(0, d);
    var r := seq(|starts|, k requires 0 <= k < |starts| => Slice(d, starts[k], starts[k] + SegmentMs));
    assert forall k :: 0 <= k < |r| ==> r[k] == Slice(d, starts[k], starts[k] + SegmentMs);
    r
  }

  /** Total number of milliseconds in a list of segments. */
  function TotalLength(segs: seq<Segment>): int {
    if segs == [] then 0 else TotalLength(segs[..|segs| - 1]) + (segs[|segs| - 1].end - segs[|segs| - 1].start)
  }

  /** Each segment follows the previous one without gap or overlap. */
  predicate Contiguous(segs: seq<Segment>) {
    forall k :: 0 <= k < |segs| - 1 ==> segs[k].end == segs[k + 1].start
  }

  /** The segments tile `[0, d)`: no audio means no segment; otherwise the
      first starts at 0, the last ends at `d`, each is non-empty and at most
      `SegmentMs` long, each begins where the previous one ends, and their
      lengths add up to `d`. */
  lemma SegmentsTile(d: nat)
    ensures d == 0 <==> Segments(d) == []
    ensures Segments(d) != [] ==> Segments(d)[0].start == 0 && Segments(d)[|Segments(d)| - 1].end == d
    ensures forall k :: 0 <= k < |Segments(d)| ==>
      Segments(d)[k].start < Segments(d)[k].end <= Segments(d)[k].start + SegmentMs
    ensures Contiguous(Segments(d))
    ensures TotalLength(Segments(d)) == d
  {
    var segs := Segments(d);
    if segs != [] {
      var n := |segs|;
      assert (n - 1) * SegmentMs < d;
      assert d <= n * SegmentMs;
      ContiguousTotal(segs);
    }
  }

  /** The lengths of a contiguous run add up to the distance it spans. */
  lemma {:induction false} ContiguousTotal(segs: seq<Segment>)
    requires segs != [] && Contiguous(segs)
    ensures TotalLength(segs) == segs[|segs| - 1].end - segs[0].start
  {
    if |segs| > 1 {
      var init := segs[..|segs| - 1];
      assert Contiguous(init);
      ContiguousTotal(init);
      assert init[|init| - 1] == segs[|segs| - 2];
      assert TotalLength(init[..0]) == 0;
    } else {
      assert segs[..0] == [];
    }
  }

  /** Every millisecond `t` of the audio lies in exactly one segment, the one
      with index `t / SegmentMs`. */
  lemma SegmentsCover(d: nat, t: nat)
    requires t < d
    ensures t / SegmentMs < |Segments(d)|
    ensures Segments(d)[t / SegmentMs].start <= t < Segments(d)[t / SegmentMs].end
    ensures forall k :: 0 <= k < |Segments(d)| && Segments(d)[k].start <= t < Segments(d)[k].end ==> k == t / SegmentMs
  {
    var segs := Segments(d);
    var q := t / SegmentMs;
    assert q * SegmentMs <= t < q * SegmentMs + SegmentMs;
    forall k | 0 <= k < |segs| && segs[k].start <= t < segs[k].end
      ensures k == q
    {
      assert k * SegmentMs <= t < k * SegmentMs + SegmentMs;
    }
  }

  /** Audio that passes the guard is cut into at most three segments. */
  lemma AtMostThreeSegments(d: nat)
    requires !ExceedsCeiling(d)
    ensures |Segments(d)| <= 3
  {
  }

  /** The 45-minute example: segments of 20, 20 and 5 minutes. */
  lemma FortyFiveMinutes()
    ensures Segments(45 * MsPerMinute) ==
      [Segment(0, 1_200_000), Segment(1_200_000, 2_400_000), Segment(2_400_000, 2_700_000)]
  {
    var segs := Segments(45 * MsPerMinute);
    assert |segs| == 3;
  }
}
