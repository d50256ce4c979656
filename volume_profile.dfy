/**
 * The volume profile: traded volume per price bucket over a rolling window,
 * its point of control and the high/low volume node signal
 * (src/indicators/volume/volume_profile.rs).
 *
 * The bucket map is an association list in first-insertion order, which
 * is one of the iteration orders the source's hash map may have.
 */
module VolumeProfileTracker {
  import opened Wrappers
  import opened CommonMath

  datatype VolumeNode = VolumeNode(priceLevel: real, volume: real)

  datatype VolumeProfileSignal = NearHVN | NearLVN | POCSupport | POCResistance | Neutral

  /** Bucket index to accumulated volume. */
  type Levels = seq<(int, real)>

  /** The volume recorded for `key`: the first entry with that key. */
  function Lookup(levels: Levels, key: int): Option<real>
  {
    if |levels| == 0 then None
    else if levels[0].0 == key then Some(levels[0].1)
    else Lookup(levels[1..], key)
  }

  /** No key occurs twice, as in a hash map. */
  predicate DistinctKeys(levels: Levels)
  {
    |levels| == 0 || (Lookup(levels[1..], levels[0].0).None? && DistinctKeys(levels[1..]))
  }

  /** The keys in map order. */
  function KeyList(levels: Levels): (r: seq<int>)
    ensures |r| == |levels| && forall i :: 0 <= i < |levels| ==> r[i] == levels[i].0
  {
    if |levels| == 0 then [] else [levels[0].0] + KeyList(levels[1..])
  }

  /** A key has an entry exactly when it is among the keys. */
  lemma {:induction false} LookupFindsKeys(levels: Levels, key: int)
    ensures Lookup(levels, key).Some? <==> key in KeyList(levels)
  {
    if |levels| > 0 {
      LookupFindsKeys(levels[1..], key);
      assert KeyList(levels) == [levels[0].0] + KeyList(levels[1..]);
    }
  }

  function GetOr(x: Option<real>, default: real): real
  {
    match x
    case Some(v) => v
    case None => default
  }

  /** Sets the volume of `key`: in place when present, appended when new. */
  function SetLevel(levels: Levels, key: int, v: real): (r: Levels)
    ensures Lookup(r, key) == Some(v)
    ensures forall k :: k != key ==> Lookup(r, k) == Lookup(levels, k)
    ensures DistinctKeys(levels) ==> DistinctKeys(r)
    ensures KeyList(r) == KeyList(levels) + (if Lookup(levels, key).Some? then [] else [key])
  {
    if |levels| == 0 then [(key, v)]
    else if levels[0].0 == key then
      assert ([(key, v)] + levels[1..])[1..] == levels[1..];
      [(key, v)] + levels[1..]
    else
      var rest := SetLevel(levels[1..], key, v);
      assert ([levels[0]] + rest)[1..] == rest;
      [levels[0]] + rest
  }

  /** The bucket of a price: the price in ticks, rounded half away from zero. */
  function Bucket(price: real, tickSize: real): int
    requires tickSize > 0.0
  {
    RoundHalfAway(price / tickSize)
  }

  /** The profile state: bucket volumes, tick size, window length and the retained samples. */
  datatype VpState = VpState(levels: Levels, tickSize: real, lookback: nat, dataPoints: seq<(real, real)>)

  predicate VpValid(s: VpState)
  {
    s.tickSize > 0.0 && DistinctKeys(s.levels) && |s.dataPoints| <= s.lookback
  }

  function VpInit(tickSize: real, lookback: nat): (s: VpState)
    ensures tickSize > 0.0 ==> VpValid(s)
  {
    VpState([], tickSize, lookback, [])
  }

  /** Takes an evicted sample's volume out of its bucket, never below zero; an absent bucket is left alone. */
  function Evict(levels: Levels, bucket: int, volume: real): (r: Levels)
    ensures DistinctKeys(levels) ==> DistinctKeys(r)
    ensures KeyList(r) == KeyList(levels)
    ensures Lookup(levels, bucket).None? ==> r == levels
    ensures Lookup(levels, bucket).Some? ==> Lookup(r, bucket) == Some(Max(Lookup(levels, bucket).value - volume, 0.0))
    ensures forall k :: k != bucket ==> Lookup(r, k) == Lookup(levels, k)
  {
    match Lookup(levels, bucket)
    case Some(entry) => SetLevel(levels, bucket, Max(entry - volume, 0.0))
    case None => levels
  }

  /** Adds a sample's volume to its bucket, creating the bucket at zero first. */
  function Deposit(levels: Levels, bucket: int, volume: real): (r: Levels)
    ensures DistinctKeys(levels) ==> DistinctKeys(r)
    ensures Lookup(r, bucket) == Some(GetOr(Lookup(levels, bucket), 0.0) + volume)
    ensures forall k :: k != bucket ==> Lookup(r, k) == Lookup(levels, k)
  {
    SetLevel(levels, bucket, GetOr(Lookup(levels, bucket), 0.0) + volume)
  }

  /**
   * One sample: append it, evict the oldest sample once the window is over
   * `lookback`, and add the new volume to its bucket. Buckets are never removed.
   */
  function VpStep(s: VpState, close: real, volume: real): (r: VpState)
    requires VpValid(s)
    ensures VpValid(r) && r.tickSize == s.tickSize && r.lookback == s.lookback
    ensures r.dataPoints == SlideWindow(s.dataPoints, (close, volume), s.lookback)
    ensures KeyList(r.levels) == KeyList(s.levels)
      + (if Lookup(s.levels, Bucket(close, s.tickSize)).Some? then [] else [Bucket(close, s.tickSize)])
  {
    var pushed := s.dataPoints + [(close, volume)];
    var evicted := if |pushed| > s.lookback then Evict(s.levels, Bucket(pushed[0].0, s.tickSize), pushed[0].1) else s.levels;
    var points := if |pushed| > s.lookback then pushed[1..] else pushed;
    VpState(Deposit(evicted, Bucket(close, s.tickSize), volume), s.tickSize, s.lookback, points)
  }

  /** The volume of the samples in `points` that fall into bucket `key`. */
  function BucketVolume(points: seq<(real, real)>, key: int, tickSize: real): real
    requires tickSize > 0.0
  {
    if |points| == 0 then 0.0
    else
      var last := points[|points| - 1];
      BucketVolume(points[..|points| - 1], key, tickSize) + (if Bucket(last.0, tickSize) == key then last.1 else 0.0)
  }

  /** The first sample's share can be split off the front. */
  lemma {:induction false} BucketVolumeFront(points: seq<(real, real)>, key: int, tickSize: real)
    requires tickSize > 0.0 && |points| > 0
    ensures BucketVolume(points, key, tickSize)
      == (if Bucket(points[0].0, tickSize) == key then points[0].1 else 0.0) + BucketVolume(points[1..], key, tickSize)
  {
    if |points| > 1 {
      var init := points[..|points| - 1];
      BucketVolumeFront(init, key, tickSize);
      assert init[1..] == points[1..][..|points[1..]| - 1];
      assert init[0] == points[0];
    }
  }

  lemma {:induction false} BucketVolumeNonNegative(points: seq<(real, real)>, key: int, tickSize: real)
    requires tickSize > 0.0 && forall i :: 0 <= i < |points| ==> points[i].1 >= 0.0
    ensures BucketVolume(points, key, tickSize) >= 0.0
  {
    if |points| > 0 {
      BucketVolumeNonNegative(points[..|points| - 1], key, tickSize);
    }
  }

  /** A bucket no sample falls into holds no volume. */
  lemma {:induction false} BucketVolumeAbsent(points: seq<(real, real)>, key: int, tickSize: real)
    requires tickSize > 0.0 && forall i :: 0 <= i < |points| ==> Bucket(points[i].0, tickSize) != key
    ensures BucketVolume(points, key, tickSize) == 0.0
  {
    if |points| > 0 {
      BucketVolumeAbsent(points[..|points| - 1], key, tickSize);
    }
  }

  /**
   * Every bucket holds exactly the volume of the samples `points` that fall
   * into it, and every sample has its bucket; volumes are non-negative.
   */
  ghost predicate Matches(levels: Levels, points: seq<(real, real)>, tickSize: real)
    requires tickSize > 0.0
  {
    && (forall i :: 0 <= i < |points| ==> points[i].1 >= 0.0)
    && (forall i :: 0 <= i < |points| ==> Lookup(levels, Bucket(points[i].0, tickSize)).Some?)
    && (forall k :: Lookup(levels, k).Some? ==> Lookup(levels, k) == Some(BucketVolume(points, k, tickSize)))
  }

  /** The bucket totals of a state agree with its retained samples. */
  ghost predicate TotalsMatch(s: VpState)
    requires s.tickSize > 0.0
  {
    Matches(s.levels, s.dataPoints, s.tickSize)
  }

  /** Depositing a new sample's volume extends the agreement to that sample. */
  lemma DepositMatches(levels: Levels, points: seq<(real, real)>, tickSize: real, close: real, volume: real)
    requires tickSize > 0.0 && Matches(levels, points, tickSize) && volume >= 0.0
    ensures Matches(Deposit(levels, Bucket(close, tickSize), volume), points + [(close, volume)], tickSize)
  {
    var b := Bucket(close, tickSize);
    var r := Deposit(levels, b, volume);
    var q := points + [(close, volume)];
    assert q[..|q| - 1] == points;
    if Lookup(levels, b).None? {
      BucketVolumeAbsent(points, b, tickSize);
    }
    forall i | 0 <= i < |q| ensures q[i].1 >= 0.0 && Lookup(r, Bucket(q[i].0, tickSize)).Some? {
      if i < |points| {
        assert q[i] == points[i];
      }
    }
  }

  /** Taking the oldest sample's volume out of its bucket leaves the agreement for the rest. */
  lemma EvictMatches(levels: Levels, points: seq<(real, real)>, tickSize: real)
    requires tickSize > 0.0 && Matches(levels, points, tickSize) && |points| > 0
    ensures Matches(Evict(levels, Bucket(points[0].0, tickSize), points[0].1), points[1..], tickSize)
  {
    var fb := Bucket(points[0].0, tickSize);
    var r := Evict(levels, fb, points[0].1);
    BucketVolumeFront(points, fb, tickSize);
    forall i | 0 <= i < |points[1..]| ensures points[1..][i].1 >= 0.0 {
      assert points[1..][i] == points[i + 1];
    }
    BucketVolumeNonNegative(points[1..], fb, tickSize);
    forall k | Lookup(r, k).Some? ensures Lookup(r, k) == Some(BucketVolume(points[1..], k, tickSize)) {
      BucketVolumeFront(points, k, tickSize);
    }
    forall i | 0 <= i < |points[1..]| ensures Lookup(r, Bucket(points[1..][i].0, tickSize)).Some? {
      assert points[1..][i] == points[i + 1];
    }
  }

  /**
   * With a window of at least one sample and non-negative volumes, the
   * floor at zero never bites: after every update each bucket is the sum of
   * its retained samples.
   */
  lemma StepKeepsTotals(s: VpState, close: real, volume: real)
    requires VpValid(s) && TotalsMatch(s) && s.lookback >= 1 && volume >= 0.0
    ensures TotalsMatch(VpStep(s, close, volume))
  {
    var t := s.tickSize;
    var pushed := s.dataPoints + [(close, volume)];
    if |pushed| > s.lookback {
      assert pushed[0] == s.dataPoints[0];
      EvictMatches(s.levels, s.dataPoints, t);
      var evicted := Evict(s.levels, Bucket(pushed[0].0, t), pushed[0].1);
      DepositMatches(evicted, s.dataPoints[1..], t, close, volume);
      assert pushed[1..] == s.dataPoints[1..] + [(close, volume)];
    } else {
      DepositMatches(s.levels, s.dataPoints, t, close, volume);
    }
  }

  /** A profile fed `samples` in order. */
  function VpFeed(s: VpState, samples: seq<(real, real)>): (r: VpState)
    requires VpValid(s)
    ensures VpValid(r) && r.tickSize == s.tickSize && r.lookback == s.lookback
  {
    if |samples| == 0 then s
    else VpStep(VpFeed(s, samples[..|samples| - 1]), samples[|samples| - 1].0, samples[|samples| - 1].1)
  }

  /** The retained samples are the `lookback` most recent ones. */
  lemma {:induction false} VpFeedWindow(s: VpState, samples: seq<(real, real)>)
    requires VpValid(s) && s.dataPoints == []
    ensures VpFeed(s, samples).dataPoints == SlideAll(samples, s.lookback)
  {
    if |samples| > 0 {
      VpFeedWindow(s, samples[..|samples| - 1]);
    }
  }

  /** The distinct buckets of `samples` in order of first appearance. */
  function NewBuckets(samples: seq<(real, real)>, tickSize: real): seq<int>
    requires tickSize > 0.0
  {
    if |samples| == 0 then []
    else
      var seen := NewBuckets(samples[..|samples| - 1], tickSize);
      var b := Bucket(samples[|samples| - 1].0, tickSize);
      if b in seen then seen else seen + [b]
  }

  /**
   * Buckets are created in the order their first sample arrives and never
   * removed, whatever is evicted.
   */
  lemma {:induction false} FeedBuckets(tickSize: real, lookback: nat, samples: seq<(real, real)>)
    requires tickSize > 0.0
    ensures KeyList(VpFeed(VpInit(tickSize, lookback), samples).levels) == NewBuckets(samples, tickSize)
  {
    if |samples| > 0 {
      var init := samples[..|samples| - 1];
      FeedBuckets(tickSize, lookback, init);
      var s := VpFeed(VpInit(tickSize, lookback), init);
      LookupFindsKeys(s.levels, Bucket(samples[|samples| - 1].0, tickSize));
    }
  }

  /** From a fresh profile, bucket totals always match the retained samples while volumes are non-negative. */
  lemma {:induction false} FeedKeepsTotals(tickSize: real, lookback: nat, samples: seq<(real, real)>)
    requires tickSize > 0.0 && lookback >= 1
    requires forall i :: 0 <= i < |samples| ==> samples[i].1 >= 0.0
    ensures TotalsMatch(VpFeed(VpInit(tickSize, lookback), samples))
  {
    if |samples| > 0 {
      var init := samples[..|samples| - 1];
      FeedKeepsTotals(tickSize, lookback, init);
      StepKeepsTotals(VpFeed(VpInit(tickSize, lookback), init), samples[|samples| - 1].0, samples[|samples| - 1].1);
    }
  }

  predicate SortedDesc(t: seq<VolumeNode>)
  {
    forall i, j :: 0 <= i < j < |t| ==> t[i].volume >= t[j].volume
  }

  /** Places `x` before the first node of no greater volume, so that equal volumes keep their order. */
  function InsertDesc(x: VolumeNode, t: seq<VolumeNode>): (r: seq<VolumeNode>)
    ensures |r| == |t| + 1
    ensures r[0] == x || (|t| > 0 && r[0] == t[0])
  {
    if |t| == 0 then [x]
    else if t[0].volume <= x.volume then [x] + t
    else [t[0]] + InsertDesc(x, t[1..])
  }

  lemma {:induction false} InsertDescPermutes(x: VolumeNode, t: seq<VolumeNode>)
    ensures multiset(InsertDesc(x, t)) == multiset(t) + multiset{x}
  {
    if |t| > 0 {
      assert t == [t[0]] + t[1..];
      if t[0].volume > x.volume {
        InsertDescPermutes(x, t[1..]);
      }
    }
  }

  lemma {:induction false} InsertDescSorted(x: VolumeNode, t: seq<VolumeNode>)
    requires SortedDesc(t)
    ensures SortedDesc(InsertDesc(x, t))
  {
    if |t| > 0 && t[0].volume > x.volume {
      InsertDescSorted(x, t[1..]);
      var rest := InsertDesc(x, t[1..]);
      forall j | 0 < j < |rest| ensures rest[0].volume >= rest[j].volume {
      }
    }
  }

  /** The stable sort by descending volume. */
  function SortDesc(s: seq<VolumeNode>): (r: seq<VolumeNode>)
    ensures |r| == |s|
  {
    if |s| == 0 then [] else InsertDesc(s[0], SortDesc(s[1..]))
  }

  /** The sort orders by descending volume and keeps every node. */
  lemma {:induction false} SortDescCorrect(s: seq<VolumeNode>)
    ensures SortedDesc(SortDesc(s)) && multiset(SortDesc(s)) == multiset(s)
  {
    if |s| > 0 {
      SortDescCorrect(s[1..]);
      InsertDescSorted(s[0], SortDesc(s[1..]));
      InsertDescPermutes(s[0], SortDesc(s[1..]));
      assert s == [s[0]] + s[1..];
    }
  }

  /** The first node of the sorted list has the largest volume of all. */
  lemma SortedHeadIsMax(s: seq<VolumeNode>)
    requires |s| > 0
    ensures SortDesc(s)[0] in s
    ensures forall n :: n in s ==> n.volume <= SortDesc(s)[0].volume
  {
    var r := SortDesc(s);
    SortDescCorrect(s);
    assert r[0] in multiset(s);
    forall n | n in s ensures n.volume <= r[0].volume {
      assert n in multiset(r);
      var j :| 0 <= j < |r| && r[j] == n;
    }
  }

  /** The price a bucket stands for. */
  function LevelPrice(bucket: int, tickSize: real): real
  {
    bucket as real * tickSize
  }

  function NodesOf(levels: Levels, tickSize: real): (r: seq<VolumeNode>)
    ensures |r| == |levels|
    ensures forall i :: 0 <= i < |levels| ==> r[i] == VolumeNode(LevelPrice(levels[i].0, tickSize), levels[i].1)
  {
    seq(|levels|, i requires 0 <= i < |levels| => VolumeNode(LevelPrice(levels[i].0, tickSize), levels[i].1))
  }

  function SumVolumes(nodes: seq<VolumeNode>): real
  {
    if |nodes| == 0 then 0.0 else SumVolumes(nodes[..|nodes| - 1]) + nodes[|nodes| - 1].volume
  }

  /**
   * The signal: near the POC (within two ticks) support when above it,
   * resistance otherwise; elsewhere a high volume node above 1.5 times the
   * mean bucket, a low volume node below half of it, neutral between.
   */
  function VpSignalOf(currentPrice: real, poc: real, tickSize: real, currentVolume: real, avgVolume: real): (r: VolumeProfileSignal)
    ensures r == POCSupport <==> Abs(currentPrice - poc) < tickSize * 2.0 && currentPrice > poc
    ensures r == POCResistance <==> Abs(currentPrice - poc) < tickSize * 2.0 && currentPrice <= poc
    ensures r == NearHVN <==> Abs(currentPrice - poc) >= tickSize * 2.0 && currentVolume > avgVolume * 1.5
    ensures r == NearLVN <==>
      Abs(currentPrice - poc) >= tickSize * 2.0 && currentVolume <= avgVolume * 1.5 && currentVolume < avgVolume * 0.5
    ensures r == Neutral <==>
      Abs(currentPrice - poc) >= tickSize * 2.0 && avgVolume * 0.5 <= currentVolume <= avgVolume * 1.5
  {
    if Abs(currentPrice - poc) < tickSize * 2.0 then
      (if currentPrice > poc then POCSupport else POCResistance)
    else if currentVolume > avgVolume * 1.5 then NearHVN
    else if currentVolume < avgVolume * 0.5 then NearLVN
    else Neutral
  }

  /** What `get_profile` reports: the sorted nodes, the POC and the signal. */
  datatype Profile = Profile(nodes: seq<VolumeNode>, poc: real, signal: VolumeProfileSignal)

  /** The mean bucket volume, 0 without buckets. */
  function MeanVolume(nodes: seq<VolumeNode>): real
  {
    if |nodes| == 0 then 0.0 else SumVolumes(nodes) / |nodes| as real
  }

  /** The price of the newest retained sample, 0 without samples. */
  function LastPrice(points: seq<(real, real)>): real
  {
    if |points| == 0 then 0.0 else points[|points| - 1].0
  }

  /**
   * The profile of a state: the buckets as nodes sorted by descending
   * volume, the price of the first as the POC (0 without buckets), and the
   * signal for the newest price and its bucket's volume.
   */
  function ProfileOf(s: VpState): (r: Profile)
    requires s.tickSize > 0.0
    ensures SortedDesc(r.nodes) && multiset(r.nodes) == multiset(NodesOf(s.levels, s.tickSize))
    ensures |s.levels| == 0 ==> r.poc == 0.0
    ensures |s.levels| > 0 ==> r.poc == r.nodes[0].priceLevel
  {
    var raw := NodesOf(s.levels, s.tickSize);
    SortDescCorrect(raw);
    var nodes := SortDesc(raw);
    var poc := if |nodes| == 0 then 0.0 else nodes[0].priceLevel;
    var currentPrice := LastPrice(s.dataPoints);
    var currentVolume := GetOr(Lookup(s.levels, Bucket(currentPrice, s.tickSize)), 0.0);
    Profile(nodes, poc, VpSignalOf(currentPrice, poc, s.tickSize, currentVolume, MeanVolume(nodes)))
  }

  /** The POC is the price of a bucket whose volume no other bucket exceeds. */
  lemma PocIsHeaviestBucket(s: VpState)
    requires s.tickSize > 0.0 && |s.levels| > 0
    ensures exists i :: (0 <= i < |s.levels| && ProfileOf(s).poc == LevelPrice(s.levels[i].0, s.tickSize)
      && forall j :: 0 <= j < |s.levels| ==> s.levels[j].1 <= s.levels[i].1)
  {
    var raw := NodesOf(s.levels, s.tickSize);
    var head := SortDesc(raw)[0];
    SortedHeadIsMax(raw);
    assert ProfileOf(s).poc == head.priceLevel;
    var i :| 0 <= i < |raw| && raw[i] == head;
    forall j | 0 <= j < |s.levels| ensures s.levels[j].1 <= s.levels[i].1 {
      assert raw[j] in raw;
    }
    assert raw[i].priceLevel == LevelPrice(s.levels[i].0, s.tickSize);
  }

  /** Sorting nodes already in descending order changes nothing. */
  lemma {:induction false} SortedIsFixed(s: seq<VolumeNode>)
    requires SortedDesc(s)
    ensures SortDesc(s) == s
  {
    if |s| > 0 {
      SortedIsFixed(s[1..]);
      assert s == [s[0]] + s[1..];
    }
  }

  /**
   * The unit scenario, as bucket totals: ticks of 1 and a 20-sample window,
   * ten samples of 1000 at 100 and five of 200 at 105. The POC is 100 and
   * the last price sits in a low volume node.
   */
  lemma HeavyBucketIsPoc(levels: Levels, points: seq<(real, real)>)
    requires |levels| == 2 && levels[0] == (100, 10000.0) && levels[1] == (105, 1000.0)
    requires 0 < |points| <= 20 && points[|points| - 1] == (105.0, 200.0)
    ensures var p := ProfileOf(VpState(levels, 1.0, 20, points));
      p.poc == 100.0 && p.signal == NearLVN
  {
    var raw := NodesOf(levels, 1.0);
    SortedIsFixed(raw);
    assert SumVolumes(raw) == 11000.0 by {
      assert SumVolumes(raw[..1]) == 10000.0 by {
        assert raw[..1][..0] == [];
      }
    }
    assert Bucket(105.0, 1.0) == 105;
    assert Lookup(levels, 105) == Some(1000.0) by {
      assert levels[1..][0] == levels[1];
    }
  }

  /** One more sample of 10 at 110 opens a third, thin bucket: the signal is a low volume node. */
  lemma ThinPrintIsLowVolumeNode(levels: Levels, points: seq<(real, real)>)
    requires |levels| == 3 && levels[0] == (100, 10000.0) && levels[1] == (105, 1000.0) && levels[2] == (110, 10.0)
    requires 0 < |points| <= 20 && points[|points| - 1] == (110.0, 10.0)
    ensures var p := ProfileOf(VpState(levels, 1.0, 20, points));
      p.poc == 100.0 && p.signal == NearLVN
  {
    var raw := NodesOf(levels, 1.0);
    SortedIsFixed(raw);
    assert SumVolumes(raw) == 11010.0 by {
      assert SumVolumes(raw[..1]) == 10000.0 by {
        assert raw[..1][..0] == [];
      }
      assert SumVolumes(raw[..2]) == 11000.0 by {
        assert raw[..2][..1] == raw[..1];
      }
    }
    assert Bucket(110.0, 1.0) == 110;
    assert Lookup(levels, 110) == Some(10.0) by {
      assert levels[1..][0] == levels[1];
      assert levels[1..][1..][0] == levels[2];
      assert Lookup(levels[1..][1..], 110) == Some(10.0);
      assert Lookup(levels[1..], 110) == Some(10.0);
    }
  }

  // The unit scenario fed update by update: ten samples of 1000 at 100,
  // five of 200 at 105, then one of 10 at 110, with ticks of 1 and a
  // 20-sample window.

  function ScenarioSample(i: nat): (real, real)
  {
    if i < 10 then (100.0, 1000.0) else if i < 15 then (105.0, 200.0) else (110.0, 10.0)
  }

  predicate IsScenario(samples: seq<(real, real)>)
  {
    forall i :: 0 <= i < |samples| ==> samples[i] == ScenarioSample(i)
  }

  lemma ScenarioPrefix(samples: seq<(real, real)>)
    requires |samples| > 0 && IsScenario(samples)
    ensures IsScenario(samples[..|samples| - 1])
  {
    var init := samples[..|samples| - 1];
    forall i | 0 <= i < |init| ensures init[i] == ScenarioSample(i) {
      assert init[i] == samples[i];
    }
  }

  lemma {:induction false} ScenarioBuckets(samples: seq<(real, real)>)
    requires |samples| <= 16 && IsScenario(samples)
    ensures NewBuckets(samples, 1.0) ==
      if |samples| == 0 then [] else if |samples| <= 10 then [100] else if |samples| <= 15 then [100, 105] else [100, 105, 110]
  {
    if |samples| > 0 {
      ScenarioPrefix(samples);
      ScenarioBuckets(samples[..|samples| - 1]);
      assert Bucket(100.0, 1.0) == 100 && Bucket(105.0, 1.0) == 105 && Bucket(110.0, 1.0) == 110;
    }
  }

  lemma {:induction false} ScenarioVolumes(samples: seq<(real, real)>)
    requires |samples| <= 16 && IsScenario(samples)
    ensures BucketVolume(samples, 100, 1.0) == 1000.0 * (if |samples| < 10 then |samples| else 10) as real
    ensures BucketVolume(samples, 105, 1.0) == 200.0 * (if |samples| < 10 then 0 else if |samples| < 15 then |samples| - 10 else 5) as real
    ensures BucketVolume(samples, 110, 1.0) == (if |samples| < 16 then 0.0 else 10.0)
  {
    if |samples| > 0 {
      ScenarioPrefix(samples);
      ScenarioVolumes(samples[..|samples| - 1]);
      assert Bucket(100.0, 1.0) == 100 && Bucket(105.0, 1.0) == 105 && Bucket(110.0, 1.0) == 110;
    }
  }

  /**
   * From a fresh profile with non-negative volumes, a bucket exists exactly
   * when some sample fell into it, and holds the volume of the retained
   * samples in it.
   */
  lemma FeedLookup(tickSize: real, lookback: nat, samples: seq<(real, real)>, key: int)
    requires tickSize > 0.0 && lookback >= 1
    requires forall i :: 0 <= i < |samples| ==> samples[i].1 >= 0.0
    ensures var s := VpFeed(VpInit(tickSize, lookback), samples);
      Lookup(s.levels, key) == if key in NewBuckets(samples, tickSize) then Some(BucketVolume(s.dataPoints, key, tickSize)) else None
  {
    var s := VpFeed(VpInit(tickSize, lookback), samples);
    FeedBuckets(tickSize, lookback, samples);
    FeedKeepsTotals(tickSize, lookback, samples);
    LookupFindsKeys(s.levels, key);
  }

  /** A window of 20 keeps all of up to 20 samples. */
  lemma ShortFeedKeepsAll(tickSize: real, samples: seq<(real, real)>)
    requires tickSize > 0.0 && |samples| <= 20
    ensures var s := VpFeed(VpInit(tickSize, 20), samples);
      s.tickSize == tickSize && s.lookback == 20 && s.dataPoints == samples
  {
    VpFeedWindow(VpInit(tickSize, 20), samples);
    SlideAllKeepsMostRecent(samples, 20);
    assert samples[0..] == samples;
  }

  /** Up to 20 samples into a window of 20: each bucket holds all its samples' volume. */
  lemma ShortFeedTotal(samples: seq<(real, real)>, key: int, v: real)
    requires |samples| <= 20 && forall i :: 0 <= i < |samples| ==> samples[i].1 >= 0.0
    requires key in NewBuckets(samples, 1.0) && BucketVolume(samples, key, 1.0) == v
    ensures Lookup(VpFeed(VpInit(1.0, 20), samples).levels, key) == Some(v)
  {
    ShortFeedKeepsAll(1.0, samples);
    FeedLookup(1.0, 20, samples, key);
  }

  /** The scenario keeps every sample and creates the buckets in order of first appearance. */
  lemma ScenarioKeys(samples: seq<(real, real)>)
    requires (|samples| == 15 || |samples| == 16) && IsScenario(samples)
    ensures var s := VpFeed(VpInit(1.0, 20), samples);
      && s.tickSize == 1.0 && s.lookback == 20 && s.dataPoints == samples
      && KeyList(s.levels) == if |samples| == 15 then [100, 105] else [100, 105, 110]
  {
    ShortFeedKeepsAll(1.0, samples);
    FeedBuckets(1.0, 20, samples);
    ScenarioBuckets(samples);
  }

  /** The bucket totals the scenario leaves. */
  lemma ScenarioTotal(samples: seq<(real, real)>, key: int, v: real)
    requires (|samples| == 15 || |samples| == 16) && IsScenario(samples)
    requires (key == 100 && v == 10000.0) || (key == 105 && v == 1000.0) || (key == 110 && v == 10.0 && |samples| == 16)
    ensures Lookup(VpFeed(VpInit(1.0, 20), samples).levels, key) == Some(v)
  {
    ScenarioBuckets(samples);
    ScenarioVolumes(samples);
    assert forall i :: 0 <= i < |samples| ==> samples[i].1 >= 0.0;
    ShortFeedTotal(samples, key, v);
  }

  /** After the fifteen heavy samples the POC is 100 and the signal is not neutral. */
  lemma HeavyVolumeSetsPoc(samples: seq<(real, real)>)
    requires |samples| == 15 && IsScenario(samples)
    ensures var p := ProfileOf(VpFeed(VpInit(1.0, 20), samples));
      p.poc == 100.0 && p.signal != Neutral
  {
    var s := VpFeed(VpInit(1.0, 20), samples);
    ScenarioKeys(samples);
    ScenarioTotal(samples, 100, 10000.0);
    ScenarioTotal(samples, 105, 1000.0);
    assert s.levels[0].0 == 100 && s.levels[1].0 == 105;
    assert s.levels[1..][0] == s.levels[1];
    assert s == VpState(s.levels, 1.0, 20, samples);
    HeavyBucketIsPoc(s.levels, samples);
  }

  /** The sixteenth sample, a thin print at 110, reads as a low volume node. */
  lemma ThinPrintReadsLow(samples: seq<(real, real)>)
    requires |samples| == 16 && IsScenario(samples)
    ensures ProfileOf(VpFeed(VpInit(1.0, 20), samples)).signal == NearLVN
  {
    var s := VpFeed(VpInit(1.0, 20), samples);
    ScenarioKeys(samples);
    ScenarioTotal(samples, 100, 10000.0);
    ScenarioTotal(samples, 105, 1000.0);
    ScenarioTotal(samples, 110, 10.0);
    assert s.levels[0].0 == 100 && s.levels[1].0 == 105 && s.levels[2].0 == 110;
    assert s.levels[1..][0] == s.levels[1];
    assert s.levels[1..][1..][0] == s.levels[2];
    assert Lookup(s.levels[1..][1..], 110) == Some(s.levels[2].1);
    assert Lookup(s.levels[1..], 110) == Some(s.levels[2].1);
    assert s == VpState(s.levels, 1.0, 20, samples);
    ThinPrintIsLowVolumeNode(s.levels, samples);
  }

  /** The stateful volume profile. */
  class VolumeProfile {
    var priceLevels: Levels
    const tickSize: real
    const lookback: nat
    var dataPoints: seq<(real, real)>

    ghost predicate Valid()
      reads this
    {
      VpValid(State())
    }

    function State(): VpState
      reads this
    {
      VpState(priceLevels, tickSize, lookback, dataPoints)
    }

    constructor (tickSize: real, lookback: nat)
      requires tickSize > 0.0
      ensures Valid() && State() == VpInit(tickSize, lookback)
    {
      priceLevels := [];
      this.tickSize := tickSize;
      this.lookback := lookback;
      dataPoints := [];
    }

    method Update(close: real, volume: real)
      requires Valid()
      modifies this
      ensures Valid() && State() == VpStep(old(State()), close, volume)
    {
      ghost var before := State();
      dataPoints := dataPoints + [(close, volume)];
      ghost var pushed := dataPoints;
      if |dataPoints| > lookback {
        var (removedPrice, removedVolume) := dataPoints[0];
        dataPoints := dataPoints[1..];
        var bucket := Bucket(removedPrice, tickSize);
        match Lookup(priceLevels, bucket) {
          case Some(entry) =>
            priceLevels := SetLevel(priceLevels, bucket, Max(entry - removedVolume, 0.0));
          case None =>
        }
        assert priceLevels == Evict(before.levels, Bucket(pushed[0].0, tickSize), pushed[0].1);
      }
      ghost var evicted := priceLevels;
      assert evicted == (if |pushed| > lookback then Evict(before.levels, Bucket(pushed[0].0, tickSize), pushed[0].1) else before.levels);
      var bucket := Bucket(close, tickSize);
      priceLevels := SetLevel(priceLevels, bucket, GetOr(Lookup(priceLevels, bucket), 0.0) + volume);
      assert priceLevels == Deposit(evicted, bucket, volume);
    }

    /** The profile now; reading it changes nothing. */
    function GetProfile(): (r: Profile)
      requires Valid()
      reads this
      ensures r == ProfileOf(State())
    {
      ProfileOf(State())
    }
  }
}
