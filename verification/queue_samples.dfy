/** queue_sample_buckets of app/db.py: deepest queue and average token level per bucket, gaps filled. */
module QueueSamples {
  import opened Common
  import opened Charts

  datatype Sample = Sample(at: real, depth: int, tokens: real)

  predicate In(v: View, sample: Sample, i: nat)
    requires v.bucket > 0
  {
    Slot(v, sample.at) == Some(i)
  }

  function Count(v: View, samples: seq<Sample>, i: nat): nat
    requires v.bucket > 0
  {
    if samples == [] then 0
    else
      var (init, last) := (Count(v, samples[..|samples| - 1], i), samples[|samples| - 1]);
      if In(v, last, i) then init + 1 else init
  }

  function Tokens(v: View, samples: seq<Sample>, i: nat): real
    requires v.bucket > 0
  {
    if samples == [] then 0.0
    else
      var (init, last) := (Tokens(v, samples[..|samples| - 1], i), samples[|samples| - 1]);
      if In(v, last, i) then init + last.tokens else init
  }

  /** The depth shown for bucket i: no sample of the bucket exceeds it, and one attains it unless the
      queue was empty whenever it was sampled. */
  ghost predicate IsDepth(v: View, samples: seq<Sample>, i: nat, depth: int)
    requires v.bucket > 0
  {
    && (forall s <- samples :: In(v, s, i) ==> s.depth <= depth)
    && depth >= 0
    && (depth > 0 ==> exists s <- samples :: In(v, s, i) && s.depth == depth)
  }

  /** The average of bucket i, if it has samples. */
  function Average(v: View, samples: seq<Sample>, i: nat): Option<real>
    requires v.bucket > 0
  {
    if Count(v, samples, i) == 0 then None else Some(Tokens(v, samples, i) / Count(v, samples, i) as real)
  }

  function Averages(v: View, samples: seq<Sample>): (averages: seq<Option<real>>)
    requires v.bucket > 0
    ensures |averages| == v.count && forall i | 0 <= i < v.count :: averages[i] == Average(v, samples, i)
  {
    seq(v.count, i requires 0 <= i => Average(v, samples, i))
  }

  /** `level` stands for bucket i: the average of the nearest nonempty bucket not after i, else of the
      first nonempty bucket, else 0. */
  ghost predicate Fills(averages: seq<Option<real>>, i: nat, level: real)
    requires i < |averages|
  {
    || (exists j | 0 <= j <= i :: averages[j] == Some(level) && forall k | j < k <= i :: averages[k].None?)
    || (exists j | i < j < |averages| :: averages[j] == Some(level) && forall k | 0 <= k < j :: averages[k].None?)
    || (level == 0.0 && forall k | 0 <= k < |averages| :: averages[k].None?)
  }

  /** The level is determined: no two values fill the same bucket. */
  lemma FillIsUnique(averages: seq<Option<real>>, i: nat, one: real, other: real)
    requires i < |averages| && Fills(averages, i, one) && Fills(averages, i, other)
    ensures one == other
  {
  }

  /** The sample is as old as the interval of bucket i says. */
  ghost predicate Within(v: View, sample: Sample, i: nat) {
    v.bucket as real * (v.count - 1 - i) as real <= v.now - sample.at < v.bucket as real * (v.count - i) as real
  }

  ghost function Own(v: View, samples: seq<Sample>, i: nat): seq<Sample> {
    if samples == [] then []
    else
      var (init, last) := (Own(v, samples[..|samples| - 1], i), samples[|samples| - 1]);
      if Within(v, last, i) then init + [last] else init
  }

  function SumOfTokens(samples: seq<Sample>): real {
    if samples == [] then 0.0 else SumOfTokens(samples[..|samples| - 1]) + samples[|samples| - 1].tokens
  }

  lemma InIsWithin(v: View, sample: Sample, i: nat)
    requires v.bucket > 0 && i < v.count
    ensures In(v, sample, i) <==> Within(v, sample, i)
  {
    SlotIsAnInterval(v, sample.at, i);
  }

  lemma SumPush(samples: seq<Sample>, last: Sample)
    ensures SumOfTokens(samples + [last]) == SumOfTokens(samples) + last.tokens
  {
    assert (samples + [last])[..|samples|] == samples;
  }

  lemma {:induction false} OwnAreCounted(v: View, samples: seq<Sample>, i: nat)
    requires v.bucket > 0 && i < v.count
    ensures Count(v, samples, i) == |Own(v, samples, i)| && Tokens(v, samples, i) == SumOfTokens(Own(v, samples, i))
  {
    if samples == [] {
    } else {
      var rest, last := samples[..|samples| - 1], samples[|samples| - 1];
      OwnAreCounted(v, rest, i);
      InIsWithin(v, last, i);
      SumPush(Own(v, rest, i), last);
    }
  }

  /** A bucket shows its own samples, those as old as its interval says: their number, and the average of
      their tokens. */
  lemma BucketShowsItsOwn(v: View, samples: seq<Sample>, i: nat)
    requires v.bucket > 0 && i < v.count
    ensures var own := Own(v, samples, i);
            && Count(v, samples, i) == |own| && Tokens(v, samples, i) == SumOfTokens(own)
            && Average(v, samples, i) == if own == [] then None else Some(SumOfTokens(own) / |own| as real)
  {
    OwnAreCounted(v, samples, i);
  }

  /** What the first fill loop knows after bucket i. */
  ghost predicate LastKnown(averages: seq<Option<real>>, i: int, level: Option<real>)
    requires i < |averages|
  {
    match level
    case Some(x) => exists j | 0 <= j <= i :: averages[j] == Some(x) && forall k | j < k <= i :: averages[k].None?
    case None => forall k | 0 <= k <= i :: averages[k].None?
  }

  ghost predicate Aggregated(v: View, samples: seq<Sample>, i: nat, depth: int, total: real, count: nat)
    requires v.bucket > 0
  {
    IsDepth(v, samples, i, depth) && total == Tokens(v, samples, i) && count == Count(v, samples, i)
  }

  lemma OneMoreSample(v: View, samples: seq<Sample>, n: nat, i: nat, depth: int, total: real, count: nat)
    requires v.bucket > 0 && n < |samples| && Aggregated(v, samples[..n], i, depth, total, count)
    ensures var sample := samples[n];
            if In(v, sample, i) then
              Aggregated(v, samples[..n + 1], i, if depth < sample.depth then sample.depth else depth, total + sample.tokens, count + 1)
            else
              Aggregated(v, samples[..n + 1], i, depth, total, count)
  {
    var before, after := samples[..n], samples[..n + 1];
    assert after[..n] == before && after[n] == samples[n];
    assert forall s <- after :: s in before || s == samples[n];
    assert forall s <- before :: s in after;
    assert samples[n] in after;
  }

  method AggregateSamples(v: View, samples: seq<Sample>)
    returns (depths: array<int>, totals: array<real>, counts: array<nat>)
    requires v.bucket > 0
    ensures depths.Length == totals.Length == counts.Length == v.count
    ensures forall i | 0 <= i < v.count :: Aggregated(v, samples, i, depths[i], totals[i], counts[i])
  {
    depths := new int[v.count](_ => 0);
    totals := new real[v.count](_ => 0.0);
    counts := new nat[v.count](_ => 0);
    for n := 0 to |samples|
      invariant depths as object != counts as object
      invariant forall i | 0 <= i < v.count :: Aggregated(v, samples[..n], i, depths[i], totals[i], counts[i])
    {
      var sample := samples[n];
      forall i | 0 <= i < v.count {
        OneMoreSample(v, samples, n, i, depths[i], totals[i], counts[i]);
      }
      var slot := Slot(v, sample.at);
      if slot.Some? {
        var i := slot.value;
        depths[i] := if depths[i] < sample.depth then sample.depth else depths[i];
        totals[i] := totals[i] + sample.tokens;
        counts[i] := counts[i] + 1;
      }
    }
    assert samples[..|samples|] == samples;
  }

  /** A bucket before the first known one takes the level of that one. */
  lemma FillOf(averages: seq<Option<real>>, known: seq<Option<real>>, i: nat, j: nat, firstKnown: real)
    requires |known| == |averages| && i < |known| && j <= |known|
    requires forall k | 0 <= k < |known| :: LastKnown(averages, k, known[k])
    requires forall k | 0 <= k < j :: known[k].None?
    requires if j < |known| then known[j] == Some(firstKnown) else firstKnown == 0.0
    ensures Fills(averages, i, if known[i].None? then firstKnown else known[i].value)
  {
    if known[i].None? {
      assert forall k | 0 <= k < j :: LastKnown(averages, k, known[k]) ==> averages[k].None?;
      if j < |known| {
        assert LastKnown(averages, j, known[j]);
        assert averages[j] == Some(firstKnown);
        assert LastKnown(averages, i, known[i]);
      }
    } else {
      assert LastKnown(averages, i, known[i]);
    }
  }

  /** The two loops that fill the gaps. */
  method FillGaps(averages: seq<Option<real>>) returns (levels: seq<real>)
    ensures |levels| == |averages| && forall i | 0 <= i < |averages| :: Fills(averages, i, levels[i])
  {
    var known: seq<Option<real>>, lastKnown: Option<real> := [], None;
    for i := 0 to |averages|
      invariant |known| == i && LastKnown(averages, i - 1, lastKnown)
      invariant forall k | 0 <= k < i :: LastKnown(averages, k, known[k])
    {
      if averages[i].Some? {
        lastKnown := averages[i];
      }
      known := known + [lastKnown];
    }
    var firstKnown, j := 0.0, 0;
    while j < |known| && known[j].None?
      invariant 0 <= j <= |known|
      invariant forall k | 0 <= k < j :: known[k].None?
    {
      j := j + 1;
    }
    if j < |known| {
      firstKnown := known[j].value;
    }
    levels := [];
    for i := 0 to |known|
      invariant |levels| == i && forall k | 0 <= k < i :: Fills(averages, k, levels[k])
    {
      FillOf(averages, known, i, j, firstKnown);
      levels := levels + [if known[i].None? then firstKnown else known[i].value];
    }
  }

  /** queue_sample_buckets on the selected samples, token levels before rounding. */
  method SampleBuckets(v: View, samples: seq<Sample>) returns (depths: array<int>, levels: seq<real>)
    requires v.bucket > 0
    ensures depths.Length == v.count && forall i | 0 <= i < v.count :: IsDepth(v, samples, i, depths[i])
    ensures |levels| == v.count && forall i | 0 <= i < v.count :: Fills(Averages(v, samples), i, levels[i])
  {
    var totals, counts;
    depths, totals, counts := AggregateSamples(v, samples);
    var averages: seq<Option<real>> := [];
    for i := 0 to v.count
      invariant averages == Averages(v, samples)[..i]
    {
      averages := averages + [if counts[i] == 0 then None else Some(totals[i] / counts[i] as real)];
    }
    assert averages == Averages(v, samples);
    levels := FillGaps(averages);
  }
}
