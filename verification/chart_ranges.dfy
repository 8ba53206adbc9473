/** Window and bucket arithmetic of app/chart_ranges.py. */
module ChartRanges {
  import opened Common

  /** The keys of RANGE_PRESETS; every other key means the whole history. */
  datatype RangeKey = FiveMinutes | HalfHour | OneHour | SixHours | OneDay | All

  datatype Range = Range(window: nat, bucket: nat, count: nat)

  function Ceil(x: real): (n: int)
    ensures (n - 1) as real < x <= n as real
  {
    -(-x).Floor
  }

  /** math.ceil(n / d) on integers. */
  function CeilDiv(n: nat, d: nat): (q: nat)
    requires d > 0
    ensures d * (q - 1) < n <= d * q
  {
    var q := (n + d - 1) / d;
    assert n + d - 1 == d * q + (n + d - 1) % d;
    q
  }

  /** round(n / 40): the nearest integer, and the even one of two that are equally near. */
  function RoundFortieth(n: nat): (q: nat)
    ensures n - 20 <= 40 * q <= n + 20
    ensures 40 * q == n - 20 || 40 * q == n + 20 ==> q % 2 == 0
  {
    var (q, r) := (n / 40, n % 40);
    if r < 20 || (r == 20 && q % 2 == 0) then q else q + 1
  }

  function Preset(key: RangeKey): Range
    requires !key.All?
  {
    match key
    case FiveMinutes => Range(300, 10, 300 / 10)
    case HalfHour => Range(1800, 60, 1800 / 60)
    case OneHour => Range(3600, 120, 3600 / 120)
    case SixHours => Range(21600, 600, 21600 / 600)
    case OneDay => Range(86400, 1800, 86400 / 1800)
  }

  /** `age` is the age of the oldest request in seconds, if there is one. */
  function ResolveRange(key: RangeKey, age: Option<real>): Range {
    if !key.All? then Preset(key)
    else
      var window: nat := if age.None? || age.value <= 0.0 then 300 else if Ceil(age.value) < 60 then 60 else Ceil(age.value);
      var rounded := RoundFortieth(window);
      var bucket := if rounded < 10 then 10 else rounded;
      Range(window, bucket, CeilDiv(window, bucket))
  }

  /** The buckets cover the window and none of them is superfluous. */
  lemma BucketsCoverTheWindow(key: RangeKey, age: Option<real>)
    ensures var r := ResolveRange(key, age);
            r.bucket >= 10 && r.bucket * (r.count - 1) < r.window <= r.bucket * r.count
    ensures !key.All? ==> var r := ResolveRange(key, age); r.bucket * r.count == r.window
  {
  }

  /** The windows are what the keys say, cut into 30, 36 or 48 buckets. */
  lemma PresetsMeanWhatTheySay(key: RangeKey, age: Option<real>)
    requires !key.All?
    ensures var r := ResolveRange(key, age);
            && (key.FiveMinutes? ==> r.window == 5 * 60 && r.count == 30)
            && (key.HalfHour? ==> r.window == 30 * 60 && r.count == 30)
            && (key.OneHour? ==> r.window == 60 * 60 && r.count == 30)
            && (key.SixHours? ==> r.window == 6 * 60 * 60 && r.count == 36)
            && (key.OneDay? ==> r.window == 24 * 60 * 60 && r.count == 48)
  {
  }

  /** Without any history "all" shows five minutes. */
  lemma AllWithoutHistory(age: Option<real>)
    requires age.Some? ==> age.value <= 0.0
    ensures ResolveRange(All, age).window == 5 * 60 && ResolveRange(All, age).count == 30
  {
  }

  /** "All" shows the whole history and at most a second, or a padded minute, more. */
  lemma AllShowsTheHistory(age: real)
    requires age > 0.0
    ensures var w := ResolveRange(All, Some(age)).window as real;
            age <= w && (w < age + 1.0 || w == 60.0)
  {
  }

  lemma MoreBucketsSpanMore(bucket: nat, fewer: int, more: int)
    requires fewer <= more
    ensures bucket * fewer <= bucket * more
  {
  }

  lemma CountOfBucket(window: nat, bucket: nat)
    requires bucket >= 10 && window <= 40 * bucket + 20
    ensures CeilDiv(window, bucket) <= 42
    ensures window > 40 * bucket - 30 ==> CeilDiv(window, bucket) >= 38
  {
    var count := CeilDiv(window, bucket);
    if count >= 43 {
      MoreBucketsSpanMore(bucket, 42, count - 1);
    }
    if count <= 37 {
      MoreBucketsSpanMore(bucket, count, 37);
    }
  }

  /** "All" aims at 40 buckets: it never has more than 42, and it has at least 38 exactly when the
      window is longer than 370 seconds. */
  lemma AllHasAboutFortyBuckets(age: Option<real>)
    ensures var r := ResolveRange(All, age); r.count <= 42 && (r.count >= 38 <==> r.window > 370)
  {
    var r := ResolveRange(All, age);
    var rounded := RoundFortieth(r.window);
    CountOfBucket(r.window, r.bucket);
    if r.window <= 370 {
      assert r.bucket == 10;
    }
  }
}
