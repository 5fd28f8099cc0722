/** The `ohlc_data` view of backend/core/views.py: the asset's points in the
    window grouped into fixed-length buckets, one candle per bucket. */
module Ohlc {
  import opened Common
  import opened Models
  import opened Views

  /** The `bucket_minutes` table of `ohlc_data`. */
  const BucketSizes: map<string, nat> := map["1m" := 1, "5m" := 5, "15m" := 15, "1h" := 60, "4h" := 240, "1d" := 1440]

  /** `request.GET.get("interval", "1h")` looked up in `bucket_minutes`, 60 when
      unknown. Every size divides a day, so the buckets tile each day. */
  function BucketMinutes(interval: Option<string>): (m: nat)
    ensures m > 0 && 1440 % m == 0
    ensures interval.None? ==> m == 60
    ensures interval.Some? && interval.value !in BucketSizes ==> m == 60
    ensures interval.Some? && interval.value in BucketSizes ==> m == BucketSizes[interval.value]
  {
    var name := if interval.Some? then interval.value else "1h";
    if name in BucketSizes then BucketSizes[name] else 60
  }

  /** `q // size * size`: `q` rounded down to a multiple of `size`. */
  function TruncateTo(q: nat, size: nat): (m: nat)
    requires size > 0
    ensures m <= q < m + size
    ensures m % size == 0
  {
    MultipleMod(q / size, size);
    q / size * size
  }

  lemma MultipleMod(c: nat, size: nat)
    requires size > 0
    ensures (c * size) % size == 0
  {
    var q, r := (c * size) / size, (c * size) % size;
    assert (c - q) * size == r by {
      assert c * size == q * size + r;
    }
    MultipleOfSize(c - q, size);
  }

  /** A non-zero multiple of `size` is at least `size` away from 0. */
  lemma MultipleOfSize(d: int, size: nat)
    requires size > 0
    ensures d >= 1 ==> d * size >= size
    ensures d <= -1 ==> d * size <= -(size as int)
  {
    if d >= 1 {
      assert d * size == (d - 1) * size + size;
      assert (d - 1) * size >= 0;
    } else if d <= -1 {
      assert d * size == (d + 1) * size - size;
      assert (d + 1) * size <= 0;
    }
  }


  /** The bucket of a timestamp: its minute of the day truncated to a multiple
      of the bucket size, seconds dropped, on the same day. */
  function BucketStart(t: int, size: nat): int
    requires size > 0
  {
    var minutes := TruncateTo((t % Day) / 60, size);
    t - t % Day + minutes * 60
  }

  /** A bucket starts on a whole minute of the same day as the timestamp, at
      most `size` minutes before it. */
  lemma BucketHoldsTimestamp(t: int, size: nat)
    requires size > 0
    ensures var b := BucketStart(t, size);
            b <= t < b + size * 60 && b % 60 == 0 && b / Day == t / Day
    ensures (BucketStart(t, size) % Day) % (size * 60) == 0
  {
    var q := (t % Day) / 60;
    var minutes := TruncateTo(q, size);
    var c := minutes / size;
    assert minutes == c * size;
    var b := BucketStart(t, size);
    assert b == (t / Day) * Day + minutes * 60;
    assert 0 <= minutes * 60 < Day;
    DayOffset(t / Day, minutes * 60);
    assert minutes * 60 == c * (size * 60);
    MultipleMod(c, size * 60);
  }

  /** A whole number of days plus an offset within the day leaves that offset. */
  lemma DayOffset(d: int, off: int)
    requires 0 <= off < Day
    ensures (d * Day + off) % Day == off && (d * Day + off) / Day == d
  {
  }

  /** The points of `ps`, in order, that fall into bucket `k`. */
  function Group(ps: seq<PricePoint>, size: nat, k: int): (g: seq<PricePoint>)
    requires size > 0
    ensures forall p :: p in g <==> p in ps && BucketStart(p.timestamp, size) == k
    ensures |g| <= |ps|
  {
    if ps == [] then []
    else
      var n := |ps| - 1;
      assert ps == ps[..n] + [ps[n]];
      Group(ps[..n], size, k) + (if BucketStart(ps[n].timestamp, size) == k then [ps[n]] else [])
  }

  lemma GroupSnoc(ps: seq<PricePoint>, p: PricePoint, size: nat, k: int)
    requires size > 0
    ensures Group(ps + [p], size, k) == Group(ps, size, k) + (if BucketStart(p.timestamp, size) == k then [p] else [])
  {
    assert (ps + [p])[..|ps|] == ps;
  }

  /** The buckets that some point of `ps` falls into. */
  function BucketKeys(ps: seq<PricePoint>, size: nat): (r: set<int>)
    requires size > 0
    ensures |r| <= |ps|
  {
    if ps == [] then {}
    else
      var n := |ps| - 1;
      assert ps == ps[..n] + [ps[n]];
      BucketKeys(ps[..n], size) + {BucketStart(ps[n].timestamp, size)}
  }

  lemma {:induction false} BucketKeysMembers(ps: seq<PricePoint>, size: nat)
    requires size > 0
    ensures forall k :: k in BucketKeys(ps, size) <==> exists p :: p in ps && BucketStart(p.timestamp, size) == k
  {
    if ps != [] {
      var n := |ps| - 1;
      assert ps == ps[..n] + [ps[n]];
      BucketKeysMembers(ps[..n], size);
    }
  }

  lemma {:induction false} BucketKeyOf(ps: seq<PricePoint>, size: nat, p: PricePoint)
    requires size > 0 && p in ps
    ensures BucketStart(p.timestamp, size) in BucketKeys(ps, size)
  {
    var n := |ps| - 1;
    assert ps == ps[..n] + [ps[n]];
    if p != ps[n] {
      assert p in ps[..n];
      BucketKeyOf(ps[..n], size, p);
    }
  }

  lemma BucketKeysSnoc(ps: seq<PricePoint>, p: PricePoint, size: nat)
    requires size > 0
    ensures BucketKeys(ps + [p], size) == BucketKeys(ps, size) + {BucketStart(p.timestamp, size)}
  {
    assert (ps + [p])[..|ps|] == ps;
  }

  lemma GroupsNonEmpty(ps: seq<PricePoint>, size: nat)
    requires size > 0
    ensures forall k | k in BucketKeys(ps, size) :: |Group(ps, size, k)| > 0
  {
    BucketKeysMembers(ps, size);
    forall k | k in BucketKeys(ps, size) ensures |Group(ps, size, k)| > 0 {
      var p :| p in ps && BucketStart(p.timestamp, size) == k;
      assert p in Group(ps, size, k);
    }
  }

  /** The `buckets` dictionary once every point of `ps` is appended to its bucket. */
  function Buckets(ps: seq<PricePoint>, size: nat): (r: map<int, seq<PricePoint>>)
    requires size > 0
    ensures r.Keys == BucketKeys(ps, size)
    ensures forall k | k in r :: r[k] == Group(ps, size, k) && |r[k]| > 0
  {
    GroupsNonEmpty(ps, size);
    map k | k in BucketKeys(ps, size) :: Group(ps, size, k)
  }

  lemma GroupSnocAt(ps: seq<PricePoint>, p: PricePoint, size: nat, k: int)
    requires size > 0
    ensures var b := BucketStart(p.timestamp, size);
            Group(ps + [p], size, k) ==
              if k != b then Group(ps, size, k)
              else (if k in BucketKeys(ps, size) then Group(ps, size, k) else []) + [p]
  {
    GroupSnoc(ps, p, size, k);
    var g := Group(ps, size, k);
    if k !in BucketKeys(ps, size) && g != [] {
      assert g[0] in g;
    }
  }

  /** A map with the keys and groups of `Buckets(ps, size)` is that map. */
  lemma BucketsExtensional(m: map<int, seq<PricePoint>>, ps: seq<PricePoint>, size: nat)
    requires size > 0
    requires m.Keys == BucketKeys(ps, size)
    requires forall k | k in m :: m[k] == Group(ps, size, k)
    ensures m == Buckets(ps, size)
  {
  }

  /** `buckets[bucket_time].append(p)` on a `defaultdict(list)`. */
  lemma BucketsSnoc(ps: seq<PricePoint>, p: PricePoint, size: nat)
    requires size > 0
    ensures var b := BucketStart(p.timestamp, size);
            var before := Buckets(ps, size);
            Buckets(ps + [p], size) == before[b := (if b in before then before[b] else []) + [p]]
  {
    var b := BucketStart(p.timestamp, size);
    var before := Buckets(ps, size);
    var expected := before[b := (if b in before then before[b] else []) + [p]];
    BucketKeysSnoc(ps, p, size);
    forall k | k in expected ensures expected[k] == Group(ps + [p], size, k) {
      GroupSnocAt(ps, p, size, k);
    }
    BucketsExtensional(expected, ps + [p], size);
  }

  function Min(s: seq<real>): (m: real)
    requires |s| > 0
    ensures m in s && forall i :: 0 <= i < |s| ==> m <= s[i]
  {
    if |s| == 1 then s[0]
    else
      var rest := Min(s[1..]);
      assert forall i :: 1 <= i < |s| ==> s[i] == s[1..][i - 1];
      if s[0] <= rest then s[0] else rest
  }

  function Max(s: seq<real>): (m: real)
    requires |s| > 0
    ensures m in s && forall i :: 0 <= i < |s| ==> s[i] <= m
  {
    if |s| == 1 then s[0]
    else
      var rest := Max(s[1..]);
      assert forall i :: 1 <= i < |s| ==> s[i] == s[1..][i - 1];
      if rest <= s[0] then s[0] else rest
  }

  datatype Candle = Candle(timestamp: int, open: real, close: real, low: real, high: real)

  /** One candle: the first and last price of the bucket, its lowest and its highest. */
  function MakeCandle(k: int, group: seq<PricePoint>): (c: Candle)
    requires |group| > 0
    ensures c.timestamp == k
    ensures c.open == group[0].priceUsd && c.close == group[|group| - 1].priceUsd
  {
    var values := PriceValues(group);
    Candle(k, values[0], values[|values| - 1], Min(values), Max(values))
  }

  /** A candle's low and high are the lowest and the highest price of its
      bucket: every price lies between them and both occur. */
  lemma CandleSpansBucket(k: int, group: seq<PricePoint>)
    requires |group| > 0
    ensures var c := MakeCandle(k, group);
            (forall q | q in group :: c.low <= q.priceUsd <= c.high) &&
            c.low <= c.open <= c.high && c.low <= c.close <= c.high &&
            c.low in PriceValues(group) && c.high in PriceValues(group)
  {
    var values := PriceValues(group);
    forall q | q in group ensures Min(values) <= q.priceUsd <= Max(values) {
      var i :| 0 <= i < |group| && group[i] == q;
      assert values[i] == q.priceUsd;
    }
    assert values[0] == group[0].priceUsd && values[|values| - 1] == group[|group| - 1].priceUsd;
  }

  /** The candles of the given buckets, in the order of `keys`. */
  function CandlesOver(keys: seq<int>, groups: map<int, seq<PricePoint>>): (r: seq<Candle>)
    requires forall i :: 0 <= i < |keys| ==> keys[i] in groups && |groups[keys[i]]| > 0
    ensures |r| == |keys|
    ensures forall i :: 0 <= i < |keys| ==> r[i] == MakeCandle(keys[i], groups[keys[i]])
  {
    seq(|keys|, i requires 0 <= i < |keys| => MakeCandle(keys[i], groups[keys[i]]))
  }

  predicate StrictlyIncreasing(s: seq<int>)
  {
    forall i, j :: 0 <= i < j < |s| ==> s[i] < s[j]
  }

  lemma SomeElement(s: set<int>)
    requires s != {}
    ensures exists y :: y in s
  {
    if forall y :: y !in s {
      assert false;
    }
  }

  /** The least element of a non-empty set. */
  ghost function SetMin(s: set<int>): (m: int)
    requires s != {}
    ensures m in s && forall x | x in s :: m <= x
    decreases |s|
  {
    SomeElement(s);
    var y :| y in s;
    if s == {y} then
      assert forall x | x in s :: x == y;
      y
    else
      var rest := SetMin(s - {y});
      assert forall x | x in s :: x == y || x in s - {y};
      if y < rest then y else rest
  }

  /** The elements of `s` in increasing order. */
  ghost function SortedSet(s: set<int>): (r: seq<int>)
    ensures StrictlyIncreasing(r)
    ensures forall x :: x in r <==> x in s
    ensures |r| == |s|
    decreases |s|
  {
    if s == {} then []
    else
      var m := SetMin(s);
      var rest := SortedSet(s - {m});
      ConsLeast(m, rest);
      [m] + rest
  }

  /** A value below every element of a strictly increasing sequence may head it. */
  lemma ConsLeast(m: int, rest: seq<int>)
    requires StrictlyIncreasing(rest) && forall x :: x in rest ==> m < x
    ensures StrictlyIncreasing([m] + rest)
  {
    assert forall i :: 0 <= i < |rest| ==> rest[i] in rest;
  }

  /** A strictly increasing sequence is determined by its elements. */
  lemma {:induction false} IncreasingUnique(a: seq<int>, b: seq<int>)
    requires StrictlyIncreasing(a) && StrictlyIncreasing(b)
    requires forall x :: x in a <==> x in b
    ensures a == b
    decreases |a|
  {
    if a != [] { assert a[0] in a; }
    if b != [] { assert b[0] in b; }
    if a != [] && b != [] {
      assert a[0] == b[0];
      TailElements(a, b);
      TailElements(b, a);
      IncreasingUnique(a[1..], b[1..]);
      assert a == [a[0]] + a[1..] && b == [b[0]] + b[1..];
    }
  }

  /** With equal heads and equal elements, what follows the head of `a`
      follows the head of `b`. */
  lemma TailElements(a: seq<int>, b: seq<int>)
    requires StrictlyIncreasing(a) && StrictlyIncreasing(b)
    requires a != [] && b != [] && a[0] == b[0]
    requires forall x :: x in a <==> x in b
    ensures forall x :: x in a[1..] ==> x in b[1..]
  {
    forall x | x in a[1..] ensures x in b[1..] {
      var i :| 0 <= i < |a| - 1 && a[1..][i] == x;
      assert a[i + 1] == x && x > a[0] && x in b;
      var j :| 0 <= j < |b| && b[j] == x;
      assert j > 0 && b[1..][j - 1] == x;
    }
  }

  /** `sorted(buckets.keys())`: repeatedly takes the least remaining key. */
  method SortKeys(s: set<int>) returns (r: seq<int>)
    ensures r == SortedSet(s)
  {
    r := [];
    var rest := s;
    while rest != {}
      invariant SortState(s, r, rest)
      decreases |rest|
    {
      ghost var least := SetMin(rest);
      var m :| m in rest && forall x | x in rest :: m <= x;
      SortStep(s, r, rest, m);
      r := r + [m];
      rest := rest - {m};
    }
    IncreasingUnique(r, SortedSet(s));
  }

  /** The invariant of `SortKeys`: `r` is increasing, holds the elements of `s`
      not in `rest`, and lies below all of `rest`. */
  ghost predicate SortState(s: set<int>, r: seq<int>, rest: set<int>)
  {
    StrictlyIncreasing(r) &&
    (forall x :: x in s <==> x in r || x in rest) &&
    (forall i, x :: 0 <= i < |r| && x in rest ==> r[i] < x)
  }

  /** Moving the least remaining element to the end of `r` keeps the invariant. */
  lemma SortStep(s: set<int>, r: seq<int>, rest: set<int>, m: int)
    requires SortState(s, r, rest)
    requires m in rest && forall x | x in rest :: m <= x
    ensures SortState(s, r + [m], rest - {m})
  {
    var r' := r + [m];
    assert forall i :: 0 <= i < |r| ==> r'[i] == r[i];
  }

  /** The candles of `ohlc_data` for the window `ps`: one per bucket, in time order. */
  ghost function Candles(ps: seq<PricePoint>, size: nat): (r: seq<Candle>)
    requires size > 0
  {
    var groups := Buckets(ps, size);
    CandlesOver(SortedSet(groups.Keys), groups)
  }

  /** The `i`-th candle is the candle of the `i`-th bucket in increasing order. */
  lemma CandlesUnfold(ps: seq<PricePoint>, size: nat)
    requires size > 0
    ensures var keys := SortedSet(BucketKeys(ps, size));
            |Candles(ps, size)| == |keys| &&
            forall i :: 0 <= i < |keys| ==> Candles(ps, size)[i] == MakeCandle(keys[i], Group(ps, size, keys[i]))
  {
    var groups := Buckets(ps, size);
    var keys := SortedSet(groups.Keys);
    assert forall i :: 0 <= i < |keys| ==> keys[i] in keys;
  }

  /** One candle per bucket, oldest first, never more candles than points. */
  lemma CandlesOrdered(ps: seq<PricePoint>, size: nat)
    requires size > 0
    ensures var r := Candles(ps, size);
            |r| <= |ps| && forall i, j :: 0 <= i < j < |r| ==> r[i].timestamp < r[j].timestamp
  {
    CandlesUnfold(ps, size);
  }

  /** Every candle's open and close lie between its low and its high. */
  lemma CandlesWellFormed(ps: seq<PricePoint>, size: nat)
    requires size > 0
    ensures var r := Candles(ps, size);
            forall i :: 0 <= i < |r| ==> r[i].low <= r[i].open <= r[i].high && r[i].low <= r[i].close <= r[i].high
  {
    CandlesUnfold(ps, size);
    var keys := SortedSet(BucketKeys(ps, size));
    forall i | 0 <= i < |keys|
      ensures var c := Candles(ps, size)[i]; c.low <= c.open <= c.high && c.low <= c.close <= c.high
    {
      CandleSpansBucket(keys[i], Group(ps, size, keys[i]));
    }
  }

  /** The candles' timestamps are exactly the buckets some point of `ps` falls into. */
  lemma CandleTimestamps(ps: seq<PricePoint>, size: nat, k: int)
    requires size > 0
    ensures k in BucketKeys(ps, size) <==>
      exists i :: 0 <= i < |Candles(ps, size)| && Candles(ps, size)[i].timestamp == k
  {
    CandlesUnfold(ps, size);
    var r := Candles(ps, size);
    var keys := SortedSet(BucketKeys(ps, size));
    if k in keys {
      var i :| 0 <= i < |keys| && keys[i] == k;
      assert r[i].timestamp == k;
    }
    if exists i :: 0 <= i < |r| && r[i].timestamp == k {
      var i :| 0 <= i < |r| && r[i].timestamp == k;
      assert keys[i] in keys;
    }
  }

  /** Each candle summarises the points of its bucket, in window order. */
  lemma CandleSummarisesBucket(ps: seq<PricePoint>, size: nat, i: int)
    requires size > 0 && 0 <= i < |Candles(ps, size)|
    ensures var c := Candles(ps, size)[i];
            c == MakeCandle(c.timestamp, Group(ps, size, c.timestamp))
  {
    CandlesUnfold(ps, size);
  }

  /** Every point of the window is summarised by the candle of its bucket, and
      lies between that candle's low and high. */
  lemma PointInItsCandle(ps: seq<PricePoint>, size: nat, p: PricePoint) returns (i: nat)
    requires size > 0 && p in ps
    ensures i < |Candles(ps, size)|
    ensures Candles(ps, size)[i].timestamp == BucketStart(p.timestamp, size)
    ensures Candles(ps, size)[i].low <= p.priceUsd <= Candles(ps, size)[i].high
  {
    var r := Candles(ps, size);
    var k := BucketStart(p.timestamp, size);
    BucketKeyOf(ps, size, p);
    CandleTimestamps(ps, size, k);
    i :| 0 <= i < |r| && r[i].timestamp == k;
    CandleSummarisesBucket(ps, size, i);
    var g := Group(ps, size, k);
    assert p in g;
    var c := MakeCandle(k, g);
    CandleSpansBucket(k, g);
    assert c.low <= p.priceUsd <= c.high;
    assert r[i] == c;
  }

  /** Grouping keeps the order of the window: a bucket of an oldest-first
      window is itself oldest first. */
  lemma {:induction false} GroupAscending(ps: seq<PricePoint>, size: nat, k: int)
    requires size > 0 && Ascending(ps)
    ensures Ascending(Group(ps, size, k))
  {
    if ps != [] {
      var n := |ps| - 1;
      var init, p := ps[..n], ps[n];
      assert ps == init + [p];
      PrefixAscending(ps, n);
      GroupAscending(init, size, k);
      GroupSnoc(init, p, size, k);
      var g := Group(init, size, k);
      forall x | x in g ensures x.timestamp <= p.timestamp {
        LastIsLatest(ps, x);
      }
      SnocAscending(g, p);
    }
  }

  lemma PrefixAscending(ps: seq<PricePoint>, n: nat)
    requires Ascending(ps) && n <= |ps|
    ensures Ascending(ps[..n])
  {
  }

  /** The last point of an ascending sequence is no older than any before it. */
  lemma LastIsLatest(ps: seq<PricePoint>, x: PricePoint)
    requires Ascending(ps) && |ps| > 0 && x in ps[..|ps| - 1]
    ensures x.timestamp <= ps[|ps| - 1].timestamp
  {
    var j :| 0 <= j < |ps| - 1 && ps[..|ps| - 1][j] == x;
  }

  /** A point no older than every point of an ascending sequence may end it. */
  lemma SnocAscending(g: seq<PricePoint>, p: PricePoint)
    requires Ascending(g) && forall x | x in g :: x.timestamp <= p.timestamp
    ensures Ascending(g + [p])
  {
    assert forall i :: 0 <= i < |g| ==> (g + [p])[i] == g[i] && g[i] in g;
  }

  /** On an oldest-first window the candle of a bucket opens at the price of
      the bucket's earliest point and closes at the price of its latest one. */
  lemma CandleOpensEarliest(ps: seq<PricePoint>, size: nat, k: int)
    requires size > 0 && Ascending(ps) && k in BucketKeys(ps, size)
    ensures var g := Group(ps, size, k);
            |g| > 0 && MakeCandle(k, g).open == g[0].priceUsd && MakeCandle(k, g).close == g[|g| - 1].priceUsd &&
            forall q | q in ps && BucketStart(q.timestamp, size) == k ::
              g[0].timestamp <= q.timestamp <= g[|g| - 1].timestamp
  {
    GroupsNonEmpty(ps, size);
    GroupEnds(ps, size, k);
  }

  /** The first and the last point of a bucket of an oldest-first window are
      its earliest and its latest. */
  lemma GroupEnds(ps: seq<PricePoint>, size: nat, k: int)
    requires size > 0 && Ascending(ps) && |Group(ps, size, k)| > 0
    ensures var g := Group(ps, size, k);
            forall q | q in ps && BucketStart(q.timestamp, size) == k :: g[0].timestamp <= q.timestamp <= g[|g| - 1].timestamp
  {
    var g := Group(ps, size, k);
    GroupAscending(ps, size, k);
    forall q | q in ps && BucketStart(q.timestamp, size) == k
      ensures g[0].timestamp <= q.timestamp <= g[|g| - 1].timestamp
    {
      assert q in g;
      AscendingEnds(g, q);
    }
  }

  /** In an ascending sequence every element lies between the first and the last. */
  lemma AscendingEnds(g: seq<PricePoint>, q: PricePoint)
    requires Ascending(g) && q in g
    ensures g[0].timestamp <= q.timestamp <= g[|g| - 1].timestamp
  {
    var j :| 0 <= j < |g| && g[j] == q;
  }

  /** `ohlc_data` as a specification: the candles of the asset's points in the
      window, oldest first; none when the window is empty. */
  ghost function Ohlc(assets: seq<Asset>, prices: seq<PricePoint>, symbol: string,
                interval: Option<string>, rangeParam: Option<string>, now: int): (r: Response<seq<Candle>>)
    ensures GetAssetBySymbol(assets, symbol).NotFound? <==> r == Error(404, AssetNotFound)
    ensures GetAssetBySymbol(assets, symbol).MultipleFound? <==> r == Error(500, ServerError)
    ensures r.Ok? <==> GetAssetBySymbol(assets, symbol).Found?
  {
    match GetAssetBySymbol(assets, symbol)
    case NotFound => Error(404, AssetNotFound)
    case MultipleFound => Error(500, ServerError)
    case Found(pk) =>
      var window := OrderByTimestamp(InWindow(prices, pk, WindowStart(OhlcRanges, rangeParam, now), now));
      if window == [] then Ok([]) else Ok(Candles(window, BucketMinutes(interval)))
  }

  /** Every point of the asset inside the window lies between the low and the
      high of the candle of its bucket. */
  lemma OhlcCoversWindow(assets: seq<Asset>, prices: seq<PricePoint>, symbol: string,
                         interval: Option<string>, rangeParam: Option<string>, now: int, p: PricePoint)
    returns (i: nat)
    requires GetAssetBySymbol(assets, symbol).Found?
    requires p in prices && p.asset == GetAssetBySymbol(assets, symbol).pk
    requires WindowStart(OhlcRanges, rangeParam, now) <= p.timestamp <= now
    ensures Ohlc(assets, prices, symbol, interval, rangeParam, now).Ok?
    ensures i < |Ohlc(assets, prices, symbol, interval, rangeParam, now).body|
    ensures Ohlc(assets, prices, symbol, interval, rangeParam, now).body[i].timestamp == BucketStart(p.timestamp, BucketMinutes(interval))
    ensures Ohlc(assets, prices, symbol, interval, rangeParam, now).body[i].low <= p.priceUsd
    ensures p.priceUsd <= Ohlc(assets, prices, symbol, interval, rangeParam, now).body[i].high
  {
    var pk := GetAssetBySymbol(assets, symbol).pk;
    var window := OrderByTimestamp(InWindow(prices, pk, WindowStart(OhlcRanges, rangeParam, now), now));
    assert p in window;
    var candles := Candles(window, BucketMinutes(interval));
    assert Ohlc(assets, prices, symbol, interval, rangeParam, now) == Ok(candles);
    i := PointInItsCandle(window, BucketMinutes(interval), p);
  }

  /** The first loop of `ohlc_data`: appends every point to its bucket. */
  method BucketPoints(window: seq<PricePoint>, size: nat) returns (buckets: map<int, seq<PricePoint>>)
    requires size > 0
    ensures buckets == Buckets(window, size)
  {
    buckets := map[];
    var i := 0;
    while i < |window|
      invariant 0 <= i <= |window|
      invariant buckets == Buckets(window[..i], size)
    {
      var p := window[i];
      var b := BucketStart(p.timestamp, size);
      BucketsPrefixStep(window, i, size);
      buckets := buckets[b := (if b in buckets then buckets[b] else []) + [p]];
      i := i + 1;
    }
    assert window[..|window|] == window;
  }

  /** One more point of the window appended to its bucket. */
  lemma BucketsPrefixStep(window: seq<PricePoint>, i: nat, size: nat)
    requires size > 0 && i < |window|
    ensures var b := BucketStart(window[i].timestamp, size);
            var before := Buckets(window[..i], size);
            Buckets(window[..i + 1], size) == before[b := (if b in before then before[b] else []) + [window[i]]]
  {
    assert window[..i + 1] == window[..i] + [window[i]];
    BucketsSnoc(window[..i], window[i], size);
  }

  /** The second loop of `ohlc_data`: one candle per bucket, in sorted bucket order. */
  method EmitCandles(buckets: map<int, seq<PricePoint>>, keys: seq<int>) returns (candles: seq<Candle>)
    requires forall n :: 0 <= n < |keys| ==> keys[n] in buckets && |buckets[keys[n]]| > 0
    ensures candles == CandlesOver(keys, buckets)
  {
    candles := [];
    var j := 0;
    while j < |keys|
      invariant 0 <= j <= |keys|
      invariant |candles| == j
      invariant forall n :: 0 <= n < j ==> candles[n] == MakeCandle(keys[n], buckets[keys[n]])
    {
      candles := candles + [MakeCandle(keys[j], buckets[keys[j]])];
      j := j + 1;
    }
    ghost var spec := CandlesOver(keys, buckets);
    assert |spec| == |candles|;
    assert forall n :: 0 <= n < |keys| ==> spec[n] == candles[n];
  }

  /** Every key in sorted order names a non-empty bucket. */
  lemma BucketOrderValid(ps: seq<PricePoint>, size: nat)
    requires size > 0
    ensures var g := Buckets(ps, size);
            var keys := SortedSet(g.Keys);
            forall n :: 0 <= n < |keys| ==> keys[n] in g && |g[keys[n]]| > 0
  {
    var g := Buckets(ps, size);
    var keys := SortedSet(g.Keys);
    forall n | 0 <= n < |keys| ensures keys[n] in g && |g[keys[n]]| > 0 {
      assert keys[n] in keys;
    }
  }

  /** `ohlc_data`. */
  method OhlcData(assets: seq<Asset>, prices: seq<PricePoint>, symbol: string,
                  interval: Option<string>, rangeParam: Option<string>, now: int) returns (r: Response<seq<Candle>>)
    ensures r == Ohlc(assets, prices, symbol, interval, rangeParam, now)
  {
    var lookup := GetAssetBySymbol(assets, symbol);
    if lookup.NotFound? {
      return Error(404, AssetNotFound);
    } else if lookup.MultipleFound? {
      return Error(500, ServerError);
    }
    var window := OrderByTimestamp(InWindow(prices, lookup.pk, WindowStart(OhlcRanges, rangeParam, now), now));
    if window == [] {
      return Ok([]);
    }
    var candles := WindowCandles(window, BucketMinutes(interval));
    return Ok(candles);
  }

  /** The two loops of `ohlc_data` on a non-empty window: bucket the points,
      then emit one candle per bucket in sorted order. */
  method WindowCandles(window: seq<PricePoint>, size: nat) returns (candles: seq<Candle>)
    requires size > 0
    ensures candles == Candles(window, size)
  {
    var buckets := BucketPoints(window, size);
    var keys := SortKeys(buckets.Keys);
    BucketOrderValid(window, size);
    candles := EmitCandles(buckets, keys);
  }
}
