/** Normalisation of a player-statistics JSON document into the records the dashboard draws:
    the player's identity, lifetime totals, recent match batches and per-mode statistics.
    Every missing field takes a default; only values of the wrong shape raise. */
module StatsData {
  import opened Wrappers
  import opened Json
  import Text

  // ---------------------------------------------------------------------------
  // UserData

  datatype UserData = UserData(accountId: Value, platformId: Value, platform: Value, name: Value)

  /** `UserData(data)`: account id, platform id, platform name and display name, defaulting to
      '', 0, '' and ''. */
  function UserDataOf(data: map<string, Value>): (u: UserData)
    ensures "accountId" in data ==> u.accountId == data["accountId"]
    ensures "accountId" !in data ==> u.accountId == Str("")
    ensures "platformId" in data ==> u.platformId == data["platformId"]
    ensures "platformId" !in data ==> u.platformId == Int(0)
    ensures "platformNameLong" in data ==> u.platform == data["platformNameLong"]
    ensures "platformNameLong" !in data ==> u.platform == Str("")
    ensures "epicUserHandle" in data ==> u.name == data["epicUserHandle"]
    ensures "epicUserHandle" !in data ==> u.name == Str("")
  {
    UserData(GetOr(data, "accountId", Str("")), GetOr(data, "platformId", Int(0)),
             GetOr(data, "platformNameLong", Str("")), GetOr(data, "epicUserHandle", Str("")))
  }

  // ---------------------------------------------------------------------------
  // LifetimeStats

  /** The eleven `lifeTimeStats` keys and the attribute each is stored under. */
  const KeyTable: map<string, string> := map[
    "Top 3" := "top_3", "Top 5s" := "top_5s", "Top 3s" := "top_3s", "Top 6s" := "top_6s",
    "Top 12s" := "top_12s", "Top 25s" := "top_25s", "Score" := "score",
    "Matches Played" := "matches", "Wins" := "wins", "Kills" := "kills", "K/d" := "kd"]

  function AttrFor(key: Value): Option<string>
  {
    if key.Str? && key.s in KeyTable then Some(KeyTable[key.s]) else None
  }

  /** The lifetime totals: the attributes the loop set, and the derived win percentage. */
  datatype Lifetime = Lifetime(attrs: map<string, Value>, winPercent: Option<real>)

  function KeyOf(item: Value): Value
    requires item.Object?
  {
    GetOr(item.fields, "key", Str(""))
  }

  function ValueOf(item: Value): Value
    requires item.Object?
  {
    GetOr(item.fields, "value", Str(""))
  }

  predicate AllObjects(items: seq<Value>)
  {
    forall i :: 0 <= i < |items| ==> items[i].Object?
  }

  /** The value of the last item whose key is stored under attribute `a`, if any. */
  function LastValueFor(items: seq<Value>, a: string): Option<Value>
    requires AllObjects(items)
  {
    if items == [] then None
    else
      var last := items[|items| - 1];
      if AttrFor(KeyOf(last)) == Some(a) then Some(ValueOf(last))
      else LastValueFor(items[..|items| - 1], a)
  }

  /** The attributes the loop leaves set: each known attribute holds its last value. */
  function AttrsOf(items: seq<Value>): map<string, Value>
    requires AllObjects(items)
  {
    map a | a in KeyTable.Values && LastValueFor(items, a).Some? :: LastValueFor(items, a).value
  }

  lemma {:induction false} LastValueInTable(items: seq<Value>)
    requires AllObjects(items)
    ensures forall a :: LastValueFor(items, a).Some? ==> a in KeyTable.Values
  {
    if items != [] {
      assert AllObjects(items[..|items| - 1]);
      LastValueInTable(items[..|items| - 1]);
    }
  }

  /** One more item sets the attribute its key names, if any, and keeps the others. */
  lemma AttrsStep(items: seq<Value>, i: nat)
    requires i < |items| && AllObjects(items[..i]) && items[i].Object?
    ensures AllObjects(items[..i + 1])
    ensures AttrsOf(items[..i + 1]) == match AttrFor(KeyOf(items[i]))
      case Some(a) => AttrsOf(items[..i])[a := ValueOf(items[i])]
      case None => AttrsOf(items[..i])
  {
    var p := items[..i + 1];
    assert p[..i] == items[..i] && p[i] == items[i];
    assert AllObjects(p);
    forall b ensures LastValueFor(p, b) ==
      (if AttrFor(KeyOf(items[i])) == Some(b) then Some(ValueOf(items[i])) else LastValueFor(items[..i], b)) {
    }
  }

  /** Python `int(v)`. */
  function PyInt(v: Value): Result<int>
  {
    match v
    case Int(i) => Ok(i)
    case Bool(b) => Ok(if b then 1 else 0)
    case Real(r) => Ok(if r >= 0.0 then r.Floor else -((-r).Floor))
    case Str(s) => (match Text.ParseInt(s) case Some(i) => Ok(i) case None => Err(ValueError))
    case _ => Err(TypeError)
  }

  /** Whether the loop left attribute `a` set to something other than None. */
  predicate IsSet(attrs: map<string, Value>, a: string)
  {
    a in attrs && attrs[a] != Null
  }

  /** The win percentage of the source, `int(wins) / int(matches) * 100` (its rounding to two
      decimals is not modelled). */
  function WinPercent(attrs: map<string, Value>): (r: Result<Option<real>>)
    ensures !IsSet(attrs, "wins") || !IsSet(attrs, "matches") ==> r == Ok(None)
    ensures IsSet(attrs, "wins") && IsSet(attrs, "matches") ==>
      var w := PyInt(attrs["wins"]);
      var m := PyInt(attrs["matches"]);
      (w.Err? ==> r == Err(w.error))
      && (w.Ok? && m.Err? ==> r == Err(m.error))
      && (w.Ok? && m.Ok? && m.value == 0 ==> r == Err(ZeroDivisionError))
      && (w.Ok? && m.Ok? && m.value != 0 ==> r.Ok? && r.value.Some? && r.value.value * m.value as real == w.value as real * 100.0)
  {
    if "matches" in attrs && attrs["matches"] != Null && "wins" in attrs && attrs["wins"] != Null then
      var wins :- PyInt(attrs["wins"]);
      var matches :- PyInt(attrs["matches"]);
      if matches == 0 then Err(ZeroDivisionError)
      else Ok(Some(wins as real / matches as real * 100.0))
    else Ok(None)
  }

  /** A win percentage of at most `matches` wins lies between 0 and 100. */
  lemma WinPercentBounds(attrs: map<string, Value>)
    requires IsSet(attrs, "wins") && IsSet(attrs, "matches")
    requires PyInt(attrs["wins"]).Ok? && PyInt(attrs["matches"]).Ok?
    requires 0 <= PyInt(attrs["wins"]).value <= PyInt(attrs["matches"]).value
    requires PyInt(attrs["matches"]).value != 0
    ensures WinPercent(attrs).Ok? && WinPercent(attrs).value.Some?
    ensures 0.0 <= WinPercent(attrs).value.value <= 100.0
  {
    var w := PyInt(attrs["wins"]).value as real;
    var m := PyInt(attrs["matches"]).value as real;
    assert WinPercent(attrs) == Ok(Some(w / m * 100.0));
    PercentBounds(w, m, w / m * 100.0);
  }

  lemma PercentBounds(w: real, m: real, p: real)
    requires 0.0 <= w <= m && 0.0 < m && p == w / m * 100.0
    ensures 0.0 <= p <= 100.0
  {
  }

  /** The lifetime totals `LifetimeStats(data)` ends with: only a list is read; for each item the
      value under a known key is stored, a later duplicate overwriting an earlier one and unknown
      keys being ignored; a non-dict item raises; then the win percentage is derived. */
  function LifetimeOf(data: Value): (r: Result<Lifetime>)
    ensures !data.List? ==> r == Ok(Lifetime(map[], None))
    ensures data.List? && !AllObjects(data.items) ==> r == Err(AttributeError)
    ensures data.List? && AllObjects(data.items) ==> (r.Ok? <==> WinPercent(AttrsOf(data.items)).Ok?)
    ensures r.Err? && AllObjects(data.items) ==> r.error == WinPercent(AttrsOf(data.items)).error
    ensures r.Ok? ==> r.value.attrs.Keys <= KeyTable.Values && WinPercent(r.value.attrs) == Ok(r.value.winPercent)
    ensures r.Ok? && data.List? ==> forall a :: a in r.value.attrs <==> LastValueFor(data.items, a).Some?
    ensures r.Ok? && data.List? ==> forall a :: a in r.value.attrs ==> r.value.attrs[a] == LastValueFor(data.items, a).value
  {
    if !data.List? then Ok(Lifetime(map[], None))
    else if !AllObjects(data.items) then Err(AttributeError)
    else
      var attrs := AttrsOf(data.items);
      LastValueInTable(data.items);
      var p :- WinPercent(attrs);
      Ok(Lifetime(attrs, p))
  }

  /** `LifetimeStats(data)` itself: the loop over the items, then the win percentage. */
  method BuildLifetime(data: Value) returns (r: Result<Lifetime>)
    ensures r == LifetimeOf(data)
  {
    if !data.List? {
      return Ok(Lifetime(map[], None));
    }
    var items := data.items;
    var attrs: map<string, Value> := map[];
    var i := 0;
    while i < |items|
      invariant 0 <= i <= |items|
      invariant AllObjects(items[..i])
      invariant attrs == AttrsOf(items[..i])
    {
      var item := items[i];
      if !item.Object? {
        return Err(AttributeError);
      }
      AttrsStep(items, i);
      match AttrFor(KeyOf(item)) {
        case Some(a) => attrs := attrs[a := ValueOf(item)];
        case None =>
      }
      i := i + 1;
    }
    assert items[..i] == items;
    var p := WinPercent(attrs);
    if p.Err? {
      return Err(p.error);
    }
    r := Ok(Lifetime(attrs, p.value));
  }

  /** A matches total of "0" next to a numeric wins total raises ZeroDivisionError. */
  lemma ZeroMatchesRaises(attrs: map<string, Value>)
    requires "matches" in attrs && attrs["matches"] == Str("0")
    requires "wins" in attrs && PyInt(attrs["wins"]).Ok?
    ensures WinPercent(attrs) == Err(ZeroDivisionError)
  {
    assert Text.Strip("0") == "0" by { Text.StripUnpadded("0"); }
    assert Text.ParseInt("0") == Some(0);
  }

  // ---------------------------------------------------------------------------
  // Matches

  /** One recent-match batch; `kd` is None when the source leaves the attribute unset. */
  datatype Match = Match(id: Value, playlist: Value, kills: Value, matches: Value, score: Value,
                         platform: Value, time: Value, wins: Value, kd: Option<Value>)

  /** `Match.kd`: kills when matches == wins, otherwise kills / (matches - wins). */
  function Kd(kills: Value, matches: Value, wins: Value): (r: Result<Option<Value>>)
    ensures (kills == Null || matches == Null || wins == Null) ==> r == Ok(None)
    ensures r.Ok? && r.value.None? ==> kills == Null || matches == Null || wins == Null
    ensures IsNumber(kills) && IsNumber(matches) && IsNumber(wins) ==> r.Ok? && r.value.Some?
    ensures kills != Null && matches != Null && wins != Null && !PyEq(matches, wins) ==>
      (r.Ok? <==> IsNumber(kills) && IsNumber(matches) && IsNumber(wins))
    ensures r.Err? ==> r.error == TypeError
    ensures r.Ok? && r.value.Some? && !PyEq(matches, wins) ==>
      IsNumber(kills) && IsNumber(matches) && IsNumber(wins) && r.value.value.Real?
      && Num(matches) - Num(wins) != 0.0
      && r.value.value.r * (Num(matches) - Num(wins)) == Num(kills)
    ensures kills != Null && matches != Null && wins != Null && PyEq(matches, wins) ==> r == Ok(Some(kills))
  {
    if matches == Null || kills == Null || wins == Null then Ok(None)
    else if PyEq(matches, wins) then Ok(Some(kills))
    else if IsNumber(kills) && IsNumber(matches) && IsNumber(wins) then
      Ok(Some(Real(Num(kills) / (Num(matches) - Num(wins)))))
    else Err(TypeError)
  }

  /** `Matches.Match(data)`: every field defaults (0 or ''), and kd is derived from kills, matches
      and wins (the `top1` field). */
  function MatchOf(data: Value): (r: Result<Match>)
    ensures !data.Object? ==> r == Err(AttributeError)
    ensures data.Object? ==>
      var d := data.fields;
      (r.Ok? <==> Kd(GetOr(d, "kills", Int(0)), GetOr(d, "matches", Int(0)), GetOr(d, "top1", Int(0))).Ok?)
      && (r.Err? ==> r.error == TypeError)
      && (r.Ok? ==>
            r.value.id == GetOr(d, "id", Int(0)) && r.value.playlist == GetOr(d, "playlist", Str(""))
            && r.value.kills == GetOr(d, "kills", Int(0)) && r.value.matches == GetOr(d, "matches", Int(0))
            && r.value.score == GetOr(d, "score", Int(0)) && r.value.platform == GetOr(d, "platform", Int(0))
            && r.value.time == GetOr(d, "dateCollected", Str("")) && r.value.wins == GetOr(d, "top1", Int(0))
            && Kd(r.value.kills, r.value.matches, r.value.wins) == Ok(r.value.kd))
  {
    if !data.Object? then Err(AttributeError)
    else
      var d := data.fields;
      var kills := GetOr(d, "kills", Int(0));
      var matches := GetOr(d, "matches", Int(0));
      var wins := GetOr(d, "top1", Int(0));
      var kd :- Kd(kills, matches, wins);
      Ok(Match(GetOr(d, "id", Int(0)), GetOr(d, "playlist", Str("")), kills, matches,
               GetOr(d, "score", Int(0)), GetOr(d, "platform", Int(0)), GetOr(d, "dateCollected", Str("")),
               wins, kd))
  }

  /** A match with no fields at all has every default, and its kd is its kills, 0. */
  lemma DefaultMatch()
    ensures MatchOf(Object(map[])) == Ok(Match(Int(0), Str(""), Int(0), Int(0), Int(0), Int(0), Str(""), Int(0), Some(Int(0))))
  {
    assert PyEq(Int(0), Int(0));
  }

  /** The list `Matches(data)` holds: one Match per item of a list, in order; anything else gives
      no matches. */
  function MatchesOf(data: Value): (r: Result<seq<Match>>)
    ensures !data.List? ==> r == Ok([])
    ensures data.List? ==> (r.Ok? <==> forall i :: 0 <= i < |data.items| ==> MatchOf(data.items[i]).Ok?)
    ensures r.Ok? && data.List? ==>
      |r.value| == |data.items| && forall i :: 0 <= i < |data.items| ==> Ok(r.value[i]) == MatchOf(data.items[i])
    ensures r.Err? ==> exists i :: 0 <= i < |data.items| && MatchOf(data.items[i]) == Err(r.error)
  {
    if !data.List? then Ok([]) else Each(MatchOf, data.items)
  }

  /** `Matches(data)` itself: the loop appending one Match per item. */
  method BuildMatches(data: Value) returns (r: Result<seq<Match>>)
    ensures r == MatchesOf(data)
  {
    if !data.List? {
      return Ok([]);
    }
    var items := data.items;
    var ms: seq<Match> := [];
    var i := 0;
    while i < |items|
      invariant 0 <= i <= |items|
      invariant Each(MatchOf, items[..i]) == Ok(ms)
    {
      var m := MatchOf(items[i]);
      if m.Err? {
        EachFirstError(MatchOf, items, i);
        return Err(m.error);
      }
      EachStep(MatchOf, items, i);
      ms := ms + [m.value];
      i := i + 1;
    }
    assert items[..i] == items;
    r := Ok(ms);
  }

  // ---------------------------------------------------------------------------
  // Stats

  datatype Stat = Stat(score: Value, kd: Value, winPercent: Value, matches: Value, kills: Value,
                       killsPerGame: Value, scorePerMatch: Value, wins: Value, rating: Value)

  /** `Stat.getStat(data, key)`: the `value` of the entry under `key`, or '' when the entry or its
      value is missing. */
  function GetStat(data: map<string, Value>, key: string): (r: Result<Value>)
    ensures r.Ok? <==> key !in data || data[key] == Null || data[key].Object?
    ensures r.Err? ==> r.error == AttributeError
    ensures (key !in data || data[key] == Null) ==> r == Ok(Str(""))
    ensures key in data && data[key] != Null ==> r == Get(data[key], "value", Str(""))
  {
    var d := GetOr(data, key, Null);
    if d != Null then Get(d, "value", Str("")) else Ok(Str(""))
  }

  /** The nine entries `Stat(data)` reads, in the order it reads them. */
  const StatKeys := ["score", "kd", "winRatio", "matches", "kills", "kpg", "scorePerMatch", "top1", "trnRating"]

  /** `Stats.Stat(data)`: each statistic is the `value` of its entry, or ''. */
  function StatOf(data: Value): (r: Result<Stat>)
    ensures r.Ok? <==> data.Object? && forall k :: k in StatKeys ==>
      k !in data.fields || data.fields[k] == Null || data.fields[k].Object?
    ensures r.Err? ==> r.error == AttributeError
    ensures r.Ok? ==>
      var d := data.fields;
      GetStat(d, "score") == Ok(r.value.score) && GetStat(d, "kd") == Ok(r.value.kd)
      && GetStat(d, "winRatio") == Ok(r.value.winPercent) && GetStat(d, "matches") == Ok(r.value.matches)
      && GetStat(d, "kills") == Ok(r.value.kills) && GetStat(d, "kpg") == Ok(r.value.killsPerGame)
      && GetStat(d, "scorePerMatch") == Ok(r.value.scorePerMatch) && GetStat(d, "top1") == Ok(r.value.wins)
      && GetStat(d, "trnRating") == Ok(r.value.rating)
  {
    if !data.Object? then Err(AttributeError)
    else
      var d := data.fields;
      var score :- GetStat(d, "score");
      var kd :- GetStat(d, "kd");
      var winPercent :- GetStat(d, "winRatio");
      var matches :- GetStat(d, "matches");
      var kills :- GetStat(d, "kills");
      var kpg :- GetStat(d, "kpg");
      var spm :- GetStat(d, "scorePerMatch");
      var wins :- GetStat(d, "top1");
      var rating :- GetStat(d, "trnRating");
      Ok(Stat(score, kd, winPercent, matches, kills, kpg, spm, wins, rating))
  }

  /** The nine per-mode statistics: solo/duo/squad (`p2`/`p10`/`p9`) overall, for the current
      season (`curr_`) and for the previous season (`prior_`). */
  datatype Stats = Stats(solo: Stat, duo: Stat, squad: Stat, currSolo: Stat, currDuo: Stat,
                         currSquad: Stat, prevSolo: Stat, prevDuo: Stat, prevSquad: Stat)

  /** The keys of the nine modes, in the order `Stats(data)` reads them. */
  const ModeKeys := ["p2", "p10", "p9", "curr_p2", "curr_p10", "curr_p9", "prior_p2", "prior_p10", "prior_p9"]

  /** The `Stat` of one mode's entry, an absent entry counting as {}. */
  function ModeOf(d: map<string, Value>, key: string): Result<Stat>
  {
    StatOf(GetOr(d, key, Object(map[])))
  }

  /** `Stats(data)`: each mode's `Stat` of its entry, an absent entry counting as {}. */
  function StatsOf(data: Value): (r: Result<Stats>)
    ensures r.Ok? <==> data.Object? && forall k :: k in ModeKeys ==> ModeOf(data.fields, k).Ok?
    ensures r.Err? ==> r.error == AttributeError
    ensures r.Ok? ==>
      var d := data.fields;
      Ok(r.value.solo) == ModeOf(d, "p2") && Ok(r.value.duo) == ModeOf(d, "p10")
      && Ok(r.value.squad) == ModeOf(d, "p9") && Ok(r.value.currSolo) == ModeOf(d, "curr_p2")
      && Ok(r.value.currDuo) == ModeOf(d, "curr_p10") && Ok(r.value.currSquad) == ModeOf(d, "curr_p9")
      && Ok(r.value.prevSolo) == ModeOf(d, "prior_p2") && Ok(r.value.prevDuo) == ModeOf(d, "prior_p10")
      && Ok(r.value.prevSquad) == ModeOf(d, "prior_p9")
  {
    if !data.Object? then Err(AttributeError)
    else
      var d := data.fields;
      var ss :- Each(k => ModeOf(d, k), ModeKeys);
      Ok(Stats(ss[0], ss[1], ss[2], ss[3], ss[4], ss[5], ss[6], ss[7], ss[8]))
  }

  const BlankStat := Stat(Str(""), Str(""), Str(""), Str(""), Str(""), Str(""), Str(""), Str(""), Str(""))

  /** With no mode data at all, every statistic of every mode is ''. */
  lemma EmptyStatsAreBlank()
    ensures StatsOf(Object(map[]))
            == Ok(Stats(BlankStat, BlankStat, BlankStat, BlankStat, BlankStat, BlankStat, BlankStat, BlankStat, BlankStat))
  {
    assert StatOf(Object(map[])) == Ok(BlankStat);
    assert forall k :: ModeOf(map[], k) == Ok(BlankStat);
  }

  // ---------------------------------------------------------------------------
  // StatsData

  datatype Parsed = Parsed(user: UserData, lifetime: Lifetime, matches: seq<Match>, stats: Stats)

  /** The normalised document: the `error` value (Null when absent) and, only when there is no
      error, the parsed records. */
  datatype StatsDoc = StatsDoc(error: Value, parsed: Option<Parsed>)

  /** `StatsData(data)`: a non-dict raises RuntimeError; a document carrying an `error` value
      builds nothing else; otherwise each part is built in order, from `lifeTimeStats` (default
      []), `recentMatches` (default []) and `stats` (default {}). */
  method Normalise(data: Value) returns (r: Result<StatsDoc>)
    ensures !data.Object? ==> r == Err(RuntimeError("You must pass a dict argument"))
    ensures data.Object? && GetOr(data.fields, "error", Null) != Null ==>
      r == Ok(StatsDoc(GetOr(data.fields, "error", Null), None))
    ensures r.Ok? ==> data.Object? && r.value.error == GetOr(data.fields, "error", Null)
    ensures r.Ok? ==> (r.value.parsed.None? <==> r.value.error != Null)
    ensures data.Object? && GetOr(data.fields, "error", Null) == Null ==>
      var d := data.fields;
      var lifetime := LifetimeOf(GetOr(d, "lifeTimeStats", List([])));
      var matches := MatchesOf(GetOr(d, "recentMatches", List([])));
      var stats := StatsOf(GetOr(d, "stats", Object(map[])));
      (r.Ok? <==> lifetime.Ok? && matches.Ok? && stats.Ok?)
      && (r.Ok? ==> r.value.parsed == Some(Parsed(UserDataOf(d), lifetime.value, matches.value, stats.value)))
      && (r.Err? ==> r.error == (if lifetime.Err? then lifetime.error else if matches.Err? then matches.error else stats.error))
  {
    if !data.Object? {
      return Err(RuntimeError("You must pass a dict argument"));
    }
    var d := data.fields;
    var error := GetOr(d, "error", Null);
    if error != Null {
      return Ok(StatsDoc(error, None));
    }
    var user := UserDataOf(d);
    var lifetime := BuildLifetime(GetOr(d, "lifeTimeStats", List([])));
    if lifetime.Err? {
      return Err(lifetime.error);
    }
    var matches := BuildMatches(GetOr(d, "recentMatches", List([])));
    if matches.Err? {
      return Err(matches.error);
    }
    var stats := StatsOf(GetOr(d, "stats", Object(map[])));
    if stats.Err? {
      return Err(stats.error);
    }
    r := Ok(StatsDoc(Null, Some(Parsed(user, lifetime.value, matches.value, stats.value))));
  }
}
