/** The performance chart: the recent match batches are reversed in place, expanded into one
    numbered point per match, and each point is given a position, a marker when its k/d differs
    from a neighbour, and a match-number label at the two ends. */
module Performance {
  import opened Wrappers
  import opened Json
  import Text
  import StatsData

  /** A recent-match batch as the chart reads it: how many matches it covers and its k/d. */
  datatype Batch = Batch(count: int, kd: real)

  /** `MatchEssential`: one match number and the k/d of its batch. */
  datatype Point = Point(id: int, kd: real)

  /** One drawn point: its x position, its k/d, whether a marker is drawn and its label, if any. */
  datatype Mark = Mark(x: int, kd: real, marker: bool, text: Option<string>)

  datatype Chart = Chart(matchCount: int, caption: string, lowest: real, highest: real,
                         points: seq<Point>, rangeKd: real, marks: seq<Mark>)

  /** The chart's inner padding in pixels. */
  const Padding := 20

  function Pos(n: int): nat
  {
    if n > 0 then n else 0
  }

  /** `match_count`: the sum of the batch sizes. */
  function Total(bs: seq<Batch>): int
  {
    if bs == [] then 0 else Total(bs[..|bs| - 1]) + bs[|bs| - 1].count
  }

  /** How many points the expansion yields: `range(1, count + 1)` is empty for count <= 0. */
  function PointCount(bs: seq<Batch>): nat
  {
    if bs == [] then 0 else PointCount(bs[..|bs| - 1]) + Pos(bs[|bs| - 1].count)
  }

  /** The points of one batch whose numbering continues after `start`. */
  function Run(start: int, b: Batch): (r: seq<Point>)
    ensures |r| == Pos(b.count)
  {
    seq(Pos(b.count), i requires 0 <= i < Pos(b.count) => Point(start + i + 1, b.kd))
  }

  /** The points of all batches, numbered on from `start`, batch after batch. */
  function Expand(bs: seq<Batch>, start: int): seq<Point>
  {
    if bs == [] then []
    else
      var init := bs[..|bs| - 1];
      Expand(init, start) + Run(start + Total(init), bs[|bs| - 1])
  }

  function Reversed(s: seq<Batch>): (r: seq<Batch>)
    ensures |r| == |s|
    ensures forall i :: 0 <= i < |s| ==> r[i] == s[|s| - 1 - i]
  {
    if s == [] then [] else [s[|s| - 1]] + Reversed(s[..|s| - 1])
  }

  predicate NonNegativeCounts(bs: seq<Batch>)
  {
    forall i :: 0 <= i < |bs| ==> bs[i].count >= 0
  }

  /** Every point carries the k/d of a batch, and the expansion yields one point per match. */
  lemma {:induction false} ExpandShape(bs: seq<Batch>, start: int)
    ensures |Expand(bs, start)| == PointCount(bs)
    ensures NonNegativeCounts(bs) ==> PointCount(bs) == Total(bs)
    ensures NonNegativeCounts(bs) ==>
      forall k :: 0 <= k < |Expand(bs, start)| ==> Expand(bs, start)[k].id == start + 1 + k
    ensures forall k :: 0 <= k < |Expand(bs, start)| ==>
      exists j :: 0 <= j < |bs| && Expand(bs, start)[k].kd == bs[j].kd
  {
    if bs != [] {
      var init := bs[..|bs| - 1];
      var last := bs[|bs| - 1];
      ExpandShape(init, start);
      var e := Expand(bs, start);
      var head := Expand(init, start);
      var run := Run(start + Total(init), last);
      assert e == head + run;
      forall k | 0 <= k < |e|
        ensures exists j :: 0 <= j < |bs| && e[k].kd == bs[j].kd
      {
        if k < |head| {
          var j :| 0 <= j < |init| && head[k].kd == init[j].kd;
          assert bs[j] == init[j];
        } else {
          assert e[k] == run[k - |head|];
          assert e[k].kd == bs[|bs| - 1].kd;
        }
      }
      if NonNegativeCounts(bs) {
        assert NonNegativeCounts(init) by {
          forall i | 0 <= i < |init| ensures init[i].count >= 0 { assert init[i] == bs[i]; }
        }
        forall k | 0 <= k < |e| ensures e[k].id == start + 1 + k {
          if k >= |head| {
            assert e[k] == run[k - |head|];
          }
        }
      }
    }
  }

  lemma {:induction false} TotalReversed(s: seq<Batch>)
    ensures Total(Reversed(s)) == Total(s)
  {
    if s != [] {
      var init := s[..|s| - 1];
      TotalReversed(init);
      TotalCons(s[|s| - 1], Reversed(init));
    }
  }

  lemma {:induction false} TotalCons(b: Batch, s: seq<Batch>)
    ensures Total([b] + s) == b.count + Total(s)
    decreases |s|
  {
    if s != [] {
      var init := s[..|s| - 1];
      assert ([b] + s)[..|s|] == [b] + init;
      TotalCons(b, init);
    }
  }

  lemma {:induction false} NonNegativeReversed(s: seq<Batch>)
    requires NonNegativeCounts(s)
    ensures NonNegativeCounts(Reversed(s))
  {
    if s != [] {
      var init := s[..|s| - 1];
      assert NonNegativeCounts(init) by {
        forall i | 0 <= i < |init| ensures init[i].count >= 0 { assert init[i] == s[i]; }
      }
      NonNegativeReversed(init);
    }
  }

  /** With no negative batch size, the points after the reversal are numbered consecutively
      from lifetime − match_count + 1 up to lifetime, and there are exactly match_count of them. */
  lemma ExpandedIdsEndAtLifetime(bs: seq<Batch>, lifetime: int)
    requires NonNegativeCounts(bs)
    ensures var pts := Expand(Reversed(bs), lifetime - Total(bs));
      |pts| == Total(bs)
      && (forall k :: 0 <= k < |pts| ==> pts[k].id == lifetime - Total(bs) + 1 + k)
      && (pts != [] ==> pts[|pts| - 1].id == lifetime)
  {
    var rs := Reversed(bs);
    var start := lifetime - Total(bs);
    TotalReversed(bs);
    NonNegativeReversed(bs);
    ExpandShape(rs, start);
    var pts := Expand(rs, start);
    assert |pts| == Total(bs);
    if pts != [] {
      assert pts[|pts| - 1].id == start + 1 + (|pts| - 1);
    }
  }

  /** The first loop of `generate`: the k/d of each batch, in order, and `match_count`. */
  method Tally(batches: array<Batch>) returns (kds: seq<real>, matchCount: int)
    ensures |kds| == batches.Length
    ensures forall i :: 0 <= i < batches.Length ==> kds[i] == batches[i].kd
    ensures matchCount == Total(batches[..])
  {
    kds := [];
    matchCount := 0;
    var i := 0;
    while i < batches.Length
      invariant 0 <= i <= batches.Length && |kds| == i
      invariant forall j :: 0 <= j < i ==> kds[j] == batches[j].kd
      invariant matchCount == Total(batches[..i])
    {
      assert batches[..i + 1][..i] == batches[..i];
      kds := kds + [batches[i].kd];
      matchCount := matchCount + batches[i].count;
      i := i + 1;
    }
    assert batches[..i] == batches[..];
  }

  /** `matches.reverse()`: the list reversed in place. */
  method ReverseInPlace(a: array<Batch>)
    modifies a
    ensures a[..] == Reversed(old(a[..]))
  {
    var lo, hi := 0, a.Length - 1;
    while lo < hi
      invariant 0 <= lo <= hi + 1 && hi < a.Length && lo + hi == a.Length - 1
      invariant forall k :: 0 <= k < lo ==> a[k] == old(a[a.Length - 1 - k])
      invariant forall k :: hi < k < a.Length ==> a[k] == old(a[a.Length - 1 - k])
      invariant forall k :: lo <= k <= hi ==> a[k] == old(a[k])
    {
      a[lo], a[hi] := a[hi], a[lo];
      lo, hi := lo + 1, hi - 1;
    }
  }

  /** The inner loop of the expansion: `range(1, count + 1)` appends the points numbered
      `matchId + 1` up to `matchId + count`. */
  method AppendRun(points: seq<Point>, matchId: int, b: Batch) returns (out: seq<Point>)
    ensures out == points + Run(matchId, b)
  {
    out := points;
    var i := 1;
    while i < b.count + 1
      invariant 1 <= i <= Pos(b.count) + 1
      invariant out == points + Run(matchId, b)[..i - 1]
    {
      assert Run(matchId, b)[..i] == Run(matchId, b)[..i - 1] + [Point(matchId + i, b.kd)];
      out := out + [Point(matchId + i, b.kd)];
      i := i + 1;
    }
    assert Run(matchId, b)[..i - 1] == Run(matchId, b);
  }

  /** The expansion loop: starting at `first`, each batch appends `count` points numbered on
      from the running match id, which then advances by `count`. */
  method ExpandBatches(bs: seq<Batch>, first: int) returns (points: seq<Point>)
    ensures points == Expand(bs, first)
  {
    points := [];
    var matchId := first;
    var j := 0;
    while j < |bs|
      invariant 0 <= j <= |bs|
      invariant points == Expand(bs[..j], first)
      invariant matchId == first + Total(bs[..j])
    {
      ExpandStep(bs, j, first, points, matchId);
      points := AppendRun(points, matchId, bs[j]);
      matchId := matchId + bs[j].count;
      j := j + 1;
    }
    assert bs[..j] == bs;
  }

  lemma ExpandStep(bs: seq<Batch>, j: nat, first: int, points: seq<Point>, matchId: int)
    requires j < |bs| && points == Expand(bs[..j], first) && matchId == first + Total(bs[..j])
    ensures matchId + bs[j].count == first + Total(bs[..j + 1])
    ensures points + Run(matchId, bs[j]) == Expand(bs[..j + 1], first)
  {
    assert bs[..j + 1][..j] == bs[..j];
  }

  // ---------------------------------------------------------------------------
  // Markers and labels

  /** The k/d the drawing loop compares point `i` (1-based) with on its left: the previous point
      from point 3 on, and the sentinel −1 for points 1 and 2. */
  function Predecessor(points: seq<Point>, i: int): real
    requires 1 <= i <= |points|
  {
    if i - 2 > 0 then points[i - 2].kd else -1.0
  }

  /** The k/d on the right: the next point, or the sentinel −1 after the last one. */
  function Successor(points: seq<Point>, i: int): real
    requires 1 <= i <= |points|
  {
    if i < |points| then points[i].kd else -1.0
  }

  function MarkAt(points: seq<Point>, i: int, matchCount: int, interval: int): Mark
    requires 1 <= i <= |points|
  {
    var kd := points[i - 1].kd;
    Mark(Padding + interval * i, kd,
         kd != Predecessor(points, i) || kd != Successor(points, i),
         if i == 1 || i == matchCount then Some(Text.IntToString(points[i - 1].id)) else None)
  }

  /** The drawing loop of `generate`: for each point its position, marker and label, and the k/d
      range the y axis uses, floored at 0.1. */
  method Plot(points: seq<Point>, matchCount: int, interval: int, lowest: real, highest: real)
    returns (marks: seq<Mark>, rangeKd: real)
    ensures |marks| == |points|
    ensures forall k :: 0 <= k < |points| ==> marks[k] == MarkAt(points, k + 1, matchCount, interval)
    ensures points != [] ==> rangeKd >= 0.1 && rangeKd >= highest - lowest
    ensures highest - lowest >= 0.1 || points == [] ==> rangeKd == highest - lowest
  {
    rangeKd := highest - lowest;
    marks := [];
    var left := Padding + interval;
    var i := 1;
    while i < |points| + 1
      invariant 1 <= i <= |points| + 1 && |marks| == i - 1
      invariant left == Padding + interval * i
      invariant forall k :: 0 <= k < i - 1 ==> marks[k] == MarkAt(points, k + 1, matchCount, interval)
      invariant i > 1 ==> rangeKd >= 0.1 && rangeKd >= highest - lowest
      invariant i == 1 || highest - lowest >= 0.1 ==> rangeKd == highest - lowest
    {
      var lastNo := if i - 2 > 0 then points[i - 2].kd else -1.0;
      var nextNo := if i < |points| then points[i].kd else -1.0;
      var point := points[i - 1];
      if rangeKd < 0.1 {
        rangeKd := 0.1;
      }
      var marker := point.kd != lastNo || point.kd != nextNo;
      var caption := if i == 1 || i == matchCount then Some(Text.IntToString(point.id)) else None;
      marks := marks + [Mark(left, point.kd, marker, caption)];
      left := left + interval;
      i := i + 1;
    }
  }

  /** A marker is left out exactly where the point's k/d equals both neighbours; from point 3 up
      to the one before last these are the true neighbours. */
  lemma MarkerRule(points: seq<Point>, i: int, matchCount: int, interval: int)
    requires 3 <= i < |points|
    ensures !MarkAt(points, i, matchCount, interval).marker
        <==> points[i - 1].kd == points[i - 2].kd && points[i - 1].kd == points[i].kd
  {
  }

  /** Because of the −1 sentinel, points 1, 2 and the last point get a marker whenever their k/d is
      not −1, even when point 2 equals both of its real neighbours. */
  lemma SentinelMarkers(points: seq<Point>, matchCount: int, interval: int)
    requires |points| >= 1
    requires points[0].kd != -1.0
    requires |points| >= 2 ==> points[1].kd != -1.0
    requires points[|points| - 1].kd != -1.0
    ensures MarkAt(points, 1, matchCount, interval).marker
    ensures |points| >= 2 ==> MarkAt(points, 2, matchCount, interval).marker
    ensures MarkAt(points, |points|, matchCount, interval).marker
  {
  }

  /** The other side of the sentinel: k/d values of −1 at the start, which a player with more
      wins than matches produces, leave points 1 and 2 without a marker. */
  lemma MinusOneHidesMarkers(points: seq<Point>, matchCount: int, interval: int)
    requires |points| >= 2 && points[0].kd == -1.0 && points[1].kd == -1.0
    requires |points| >= 3 ==> points[2].kd == -1.0
    ensures !MarkAt(points, 1, matchCount, interval).marker
    ensures !MarkAt(points, 2, matchCount, interval).marker
  {
  }

  /** Labels are drawn only at point 1 and at point `match_count`, and show the match number. */
  lemma LabelsAtEnds(points: seq<Point>, i: int, matchCount: int, interval: int)
    requires 1 <= i <= |points|
    ensures MarkAt(points, i, matchCount, interval).text.Some? <==> i == 1 || i == matchCount
    ensures MarkAt(points, i, matchCount, interval).text.Some? ==>
      Text.ParseInt(MarkAt(points, i, matchCount, interval).text.value) == Some(points[i - 1].id)
  {
    Text.ParseIntRoundTrip(points[i - 1].id);
  }

  /** The k/d of each batch, in order. */
  function Kds(bs: seq<Batch>): (kds: seq<real>)
    ensures |kds| == |bs|
  {
    seq(|bs|, i requires 0 <= i < |bs| => bs[i].kd)
  }

  /** `integers.lowest(*kds)`: the least k/d. */
  function Min(kds: seq<real>): (m: real)
    requires kds != []
    ensures m in kds && forall i :: 0 <= i < |kds| ==> m <= kds[i]
  {
    if |kds| == 1 then kds[0]
    else var m := Min(kds[..|kds| - 1]); if kds[|kds| - 1] < m then kds[|kds| - 1] else m
  }

  /** `integers.highest(*kds)`: the greatest k/d. */
  function Max(kds: seq<real>): (m: real)
    requires kds != []
    ensures m in kds && forall i :: 0 <= i < |kds| ==> kds[i] <= m
  {
    if |kds| == 1 then kds[0]
    else var m := Max(kds[..|kds| - 1]); if kds[|kds| - 1] > m then kds[|kds| - 1] else m
  }

  /** `Performance.generate` on a chart `width` pixels wide: tallies the batches, reverses them in
      place (when there are any), expands them into points numbered up to `lifetime` and plots
      them. The spacing `round(total / (match_count + 2))` raises ZeroDivisionError when
      match_count is −2; the batches are already reversed by then. */
  method Generate(batches: array<Batch>, lifetime: int, width: int) returns (r: Result<Chart>)
    modifies batches
    ensures batches[..] == Reversed(old(batches[..]))
    ensures r.Err? <==> batches.Length > 0 && Total(old(batches[..])) == -2
    ensures r.Err? ==> r.error == ZeroDivisionError
    ensures r.Ok? ==> r.value.matchCount == Total(old(batches[..]))
    ensures r.Ok? ==> r.value.caption == "Last " + Text.IntToString(r.value.matchCount) + " matches"
    ensures r.Ok? ==>
      r.value.lowest == (if batches.Length == 0 then 0.0 else Min(Kds(old(batches[..]))))
      && r.value.highest == (if batches.Length == 0 then 1.0 else Max(Kds(old(batches[..]))))
    ensures r.Ok? ==> r.value.points == Expand(Reversed(old(batches[..])), lifetime - r.value.matchCount)
    ensures r.Ok? ==> |r.value.marks| == |r.value.points|
    ensures r.Ok? && r.value.points != [] ==>
      r.value.matchCount + 2 != 0
      && forall k :: 0 <= k < |r.value.points| ==>
           r.value.marks[k] == MarkAt(r.value.points, k + 1, r.value.matchCount, Interval(width, r.value.matchCount))
    ensures r.Ok? && r.value.points != [] ==>
      r.value.rangeKd >= 0.1 && r.value.rangeKd >= r.value.highest - r.value.lowest
    ensures r.Ok? && (r.value.highest - r.value.lowest >= 0.1 || r.value.points == []) ==>
      r.value.rangeKd == r.value.highest - r.value.lowest
  {
    var kds, matchCount := Tally(batches);
    assert kds == Kds(batches[..]);
    var first := lifetime - matchCount;
    var caption := "Last " + Text.IntToString(matchCount) + " matches";
    var lowest := if kds == [] then 0.0 else Min(kds);
    var highest := if kds == [] then 1.0 else Max(kds);
    if batches.Length == 0 {
      assert batches[..] == Reversed(old(batches[..]));
      return Ok(Chart(matchCount, caption, lowest, highest, [], highest - lowest, []));
    }
    ReverseInPlace(batches);
    var points := ExpandBatches(batches[..], first);
    if matchCount + 2 == 0 {
      return Err(ZeroDivisionError);
    }
    var interval := Interval(width, matchCount);
    var marks, rangeKd := Plot(points, matchCount, interval, lowest, highest);
    r := Ok(Chart(matchCount, caption, lowest, highest, points, rangeKd, marks));
  }

  /** `interval_size`: the chart's inner width shared among `match_count + 2` slots, rounded. */
  function Interval(width: int, matchCount: int): int
    requires matchCount + 2 != 0
  {
    Text.Round((width - Padding * 2) as real / (matchCount + 2) as real)
  }

  // ---------------------------------------------------------------------------
  // From the normalised document to the chart's input

  /** The tally loop's read of one match: `match.kd` raises AttributeError when the Match never
      set its k/d, and `match_count += match.matches` raises TypeError unless `matches` is a
      number; it yields the k/d appended to `kds`. */
  function TallyOf(m: StatsData.Match): (r: Result<Value>)
    ensures m.kd.None? ==> r == Err(AttributeError)
    ensures m.kd.Some? ==> (r.Ok? <==> IsNumber(m.matches))
    ensures m.kd.Some? && r.Err? ==> r.error == TypeError
    ensures r.Ok? ==> Some(r.value) == m.kd
  {
    if m.kd.None? then Err(AttributeError)
    else if !IsNumber(m.matches) then Err(TypeError)
    else Ok(m.kd.value)
  }

  /** A batch as the rest of `generate` uses a Match: `range(1, match.matches + 1)` needs an
      integer `matches` (a bool counts as 0 or 1), and `round(lowest(kds), 1)` a numeric k/d. */
  function BatchOf(m: StatsData.Match): (r: Result<Batch>)
    ensures m.kd.None? ==> r == Err(AttributeError)
    ensures m.kd.Some? ==> (r.Ok? <==> (m.matches.Int? || m.matches.Bool?) && IsNumber(m.kd.value))
    ensures m.kd.Some? && r.Err? ==> r.error == TypeError
    ensures r.Ok? ==> TallyOf(m).Ok? && r.value.kd == Num(m.kd.value) && r.value.count as real == Num(m.matches)
  {
    if m.kd.None? then Err(AttributeError)
    else if !(m.matches.Int? || m.matches.Bool?) || !IsNumber(m.kd.value) then Err(TypeError)
    else Ok(Batch(if m.matches.Int? then m.matches.i else if m.matches.b then 1 else 0, Num(m.kd.value)))
  }

  /** The batches of all recent matches, in order. The tally loop reads every match first, so the
      first match it cannot read decides the error; a match that passes the tally but whose
      `matches` is a float or whose k/d is not a number raises TypeError later, whichever it is. */
  function BatchesOf(ms: seq<StatsData.Match>): (r: Result<seq<Batch>>)
    ensures r.Ok? <==> forall i :: 0 <= i < |ms| ==> BatchOf(ms[i]).Ok?
    ensures r.Ok? ==> |r.value| == |ms| && forall i :: 0 <= i < |ms| ==> Ok(r.value[i]) == BatchOf(ms[i])
    ensures (exists i :: 0 <= i < |ms| && TallyOf(ms[i]).Err?) ==>
      r.Err? && exists i :: 0 <= i < |ms| && TallyOf(ms[i]) == Err(r.error)
                            && forall j :: 0 <= j < i ==> TallyOf(ms[j]).Ok?
    ensures (forall i :: 0 <= i < |ms| ==> TallyOf(ms[i]).Ok?) && r.Err? ==> r.error == TypeError
  {
    var kds :- Each(TallyOf, ms);
    Each(BatchOf, ms)
  }

  /** `int(data.lifetime.matches)`: AttributeError when the lifetime list never set `matches`,
      otherwise Python's `int` of it. */
  function LifetimeMatches(l: StatsData.Lifetime): (r: Result<int>)
    ensures "matches" !in l.attrs ==> r == Err(AttributeError)
    ensures r.Ok? <==> "matches" in l.attrs && StatsData.PyInt(l.attrs["matches"]).Ok?
    ensures "matches" in l.attrs && r.Err? ==> r == StatsData.PyInt(l.attrs["matches"])
  {
    if "matches" !in l.attrs then Err(AttributeError) else StatsData.PyInt(l.attrs["matches"])
  }

  /** A lifetime total written as decimal text reads back as that number. */
  lemma LifetimeMatchesDecimal(l: StatsData.Lifetime, n: int)
    requires "matches" in l.attrs && l.attrs["matches"] == Str(Text.IntToString(n))
    ensures LifetimeMatches(l) == Ok(n)
  {
    Text.ParseIntRoundTrip(n);
  }

  /** `Performance.generate(data)` from the normalised document: the lifetime total is read first,
      then every match, and only then is the chart drawn, so a bad lifetime total wins over a bad
      match, and both over the ZeroDivisionError of the spacing. */
  method GenerateFromStats(data: StatsData.Parsed, width: int) returns (r: Result<Chart>)
    ensures LifetimeMatches(data.lifetime).Err? ==> r == Err(LifetimeMatches(data.lifetime).error)
    ensures LifetimeMatches(data.lifetime).Ok? && BatchesOf(data.matches).Err? ==>
      r == Err(BatchesOf(data.matches).error)
    ensures LifetimeMatches(data.lifetime).Ok? && BatchesOf(data.matches).Ok? ==>
      Drawn(BatchesOf(data.matches).value, LifetimeMatches(data.lifetime).value, r)
  {
    var lifetime := LifetimeMatches(data.lifetime);
    if lifetime.Err? {
      return Err(lifetime.error);
    }
    var bs := BatchesOf(data.matches);
    if bs.Err? {
      return Err(bs.error);
    }
    r := Draw(bs.value, lifetime.value, width);
  }

  /** What drawing the batches gives: ZeroDivisionError exactly when there are batches and they
      total −2, otherwise a chart of that total whose points number the reversed batches on from
      `lifetime` minus the total. */
  predicate Drawn(bs: seq<Batch>, lifetime: int, r: Result<Chart>)
  {
    (r.Err? <==> bs != [] && Total(bs) == -2)
    && (r.Err? ==> r.error == ZeroDivisionError)
    && (r.Ok? ==> r.value.matchCount == Total(bs))
    && (r.Ok? ==> r.value.points == Expand(Reversed(bs), lifetime - r.value.matchCount))
  }

  /** `generate` on batches held in a fresh list. */
  method Draw(bs: seq<Batch>, lifetime: int, width: int) returns (r: Result<Chart>)
    ensures Drawn(bs, lifetime, r)
  {
    var batches := NewBatches(bs);
    r := Generate(batches, lifetime, width);
  }

  method NewBatches(bs: seq<Batch>) returns (a: array<Batch>)
    ensures fresh(a) && a[..] == bs
  {
    a := new Batch[|bs|](i => if 0 <= i < |bs| then bs[i] else Batch(0, 0.0));
  }
}
