/** The fnbr.co API layer: requests that assemble a URL from an endpoint and an ordered set of
    query arguments, and the classification of a response body into error, image, shop, stats,
    list or none, with the item records it carries. The HTTP exchange itself is not modelled:
    a response enters as its parsed body, status code, reason, URL and text. */
module Fnbr {
  import opened Wrappers
  import opened Json
  import Text
  import Ordered

  const BaseUrl := "https://fnbr.co/api"
  const ValidImageTypes: seq<string> :=
    ["emote", "glider", "emoji", "loading", "outfit", "pickaxe", "skydive", "umbrella", "misc"]
  const ImageLimitMin := 1
  const ImageLimitMax := 15
  const ListUrl := "https://fnbr.co/list"

  /** `bounds(value, min, max)`: below `min` gives `min`, otherwise above `max` gives `max`. */
  function Bounds(value: int, min: int, max: int): (r: int)
    ensures value < min ==> r == min
    ensures min <= value && value > max ==> r == max
    ensures min <= value <= max ==> r == value
    ensures min <= max ==> min <= r <= max
  {
    if value < min then min
    else if value > max then max
    else value
  }

  /** `uriencode(v)` for a query key or value, with `enc` standing for `quote_plus` of the UTF-8
      bytes: an int is encoded as its decimal text, a string as itself; anything else makes
      `bytes(v, "utf-8")` raise TypeError. */
  function EncodeValue(v: Value, enc: string -> string): (r: Result<string>)
    ensures r.Ok? <==> v.Str? || v.Int?
    ensures v.Str? ==> r == Ok(enc(v.s))
    ensures v.Int? ==> r == Ok(enc(Text.IntToString(v.i)))
  {
    match v
    case Str(s) => Ok(enc(s))
    case Int(i) => Ok(enc(Text.IntToString(i)))
    case _ => Err(TypeError)
  }

  /** One `key=value` pair of the query string. */
  function PairOf(entry: (string, Value), enc: string -> string): Result<string>
  {
    var v :- EncodeValue(entry.1, enc);
    Ok(enc(entry.0) + "=" + v)
  }

  /** The pairs of all arguments, in insertion order. */
  function PairsOf(d: Ordered.Dict<string, Value>, enc: string -> string): (r: Result<seq<string>>)
    ensures r.Ok? <==> forall i :: 0 <= i < |d| ==> PairOf(d[i], enc).Ok?
    ensures r.Ok? ==> |r.value| == |d| && forall i :: 0 <= i < |d| ==> Ok(r.value[i]) == PairOf(d[i], enc)
  {
    if d == [] then Ok([])
    else
      var init :- PairsOf(d[..|d| - 1], enc);
      var last :- PairOf(d[|d| - 1], enc);
      assert forall i :: 0 <= i < |d| - 1 ==> d[i] == d[..|d| - 1][i];
      Ok(init + [last])
  }

  /** Each pair followed by '&', as the assembly loop appends them. */
  function Terminated(ps: seq<string>): string
  {
    if ps == [] then "" else Terminated(ps[..|ps| - 1]) + ps[|ps| - 1] + "&"
  }

  /** The query string: empty without arguments, otherwise '?', the pairs separated by '&', and a
      trailing '&'. */
  function Query(ps: seq<string>): string
  {
    if ps == [] then "" else "?" + Text.Join(ps, "&") + "&"
  }

  /** The accumulated pairs are the '&'-joined pairs plus one trailing '&'. */
  lemma {:induction false} TerminatedJoin(ps: seq<string>)
    ensures ps != [] ==> Terminated(ps) == Text.Join(ps, "&") + "&"
    ensures Terminated(ps) == "" <==> ps == []
  {
    if ps != [] {
      var init := ps[..|ps| - 1];
      TerminatedJoin(init);
      assert ps == init + [ps[|ps| - 1]];
      Text.JoinSnoc(init, ps[|ps| - 1], "&");
    }
  }

  /** Whether `x in VALID_IMAGE_TYPES` holds for the object tested: only a string can be equal to
      one of the listed names, and the builtin `type` is not a string. */
  datatype Tested = TestedText(s: string) | BuiltinType

  predicate InValidImageTypes(x: Tested)
  {
    x.TestedText? && x.s in ValidImageTypes
  }

  class ApiRequest {
    var key: string
    var endpoint: string
    var arguments: Ordered.Dict<string, Value>

    /** The arguments the setters can produce: distinct keys, each value a string or an int,
        `search` a string and `limit` an int within [1, 15]. */
    ghost predicate Valid()
      reads this
    {
      Ordered.DistinctKeys(arguments)
      && forall i :: 0 <= i < |arguments| ==>
           (arguments[i].1.Str? || arguments[i].1.Int?)
           && (arguments[i].0 == "search" ==> arguments[i].1.Str?)
           && (arguments[i].0 == "limit" ==> arguments[i].1.Int? && ImageLimitMin <= arguments[i].1.i <= ImageLimitMax)
    }

    /** `APIRequest(key, endpoint, arguments)`. */
    constructor (key: string, endpoint: string, arguments: Ordered.Dict<string, Value>)
      ensures this.key == key && this.endpoint == endpoint && this.arguments == arguments
    {
      this.key := key;
      this.endpoint := endpoint;
      this.arguments := arguments;
    }

    /** `Shop(key)`: the `/shop` endpoint with no arguments. */
    constructor Shop(key: string)
      ensures this.key == key && endpoint == "/shop" && arguments == [] && Valid()
    {
      this.key := key;
      endpoint := "/shop";
      arguments := [];
    }

    /** `Stat(key)`: the `/stats` endpoint with no arguments. */
    constructor Stat(key: string)
      ensures this.key == key && endpoint == "/stats" && arguments == [] && Valid()
    {
      this.key := key;
      endpoint := "/stats";
      arguments := [];
    }

    /** `Images(key, search, type, limit)`: the `/images` endpoint with the three setters applied
        in order; only a string search and an int limit are kept. */
    constructor Images(key: string, search: Value, itype: Value, limit: Value)
      ensures this.key == key && endpoint == "/images" && Valid()
      ensures arguments == (if search.Str? then [("search", search)] else [])
                         + (if limit.Int? then [("limit", Int(Bounds(limit.i, ImageLimitMin, ImageLimitMax)))] else [])
    {
      this.key := key;
      endpoint := "/images";
      arguments := [];
      new;
      var _ := SetSearch(search);
      var _ := SetType(itype);
      var _ := SetLimit(limit);
    }

    /** `setSearch(search)`: stores a string search and reports whether it stored. */
    method SetSearch(search: Value) returns (stored: bool)
      modifies this
      ensures stored <==> search.Str?
      ensures stored ==> arguments == Ordered.Put(old(arguments), "search", search)
      ensures !stored ==> arguments == old(arguments)
      ensures key == old(key) && endpoint == old(endpoint)
      ensures old(Valid()) ==> Valid() && Ordered.Get(arguments, "limit") == Ordered.Get(old(arguments), "limit")
    {
      stored := false;
      if search.Str? {
        if Valid() {
          Ordered.PutGet(arguments, "search", search, "limit");
          PutKeepsValid("search", search);
        }
        arguments := Ordered.Put(arguments, "search", search);
        stored := true;
      }
    }

    /** `setType(itype)`: the membership test is written against the builtin `type` rather than
        the lower-cased argument, so it never holds: nothing is stored and the result is false. */
    method SetType(itype: Value) returns (stored: bool)
      modifies this
      ensures !stored && arguments == old(arguments)
      ensures key == old(key) && endpoint == old(endpoint)
    {
      stored := false;
      var args := arguments;
      if itype.Str? {
        var lowered := Text.Lower(itype.s);
        if InValidImageTypes(BuiltinType) {
          args := Ordered.Put(args, "type", Str(lowered));
          stored := true;
        }
      }
      arguments := args;
    }

    /** `setLimit(limit)`: stores an int limit clamped to [1, 15] and reports whether it stored. */
    method SetLimit(limit: Value) returns (stored: bool)
      modifies this
      ensures stored <==> limit.Int?
      ensures stored ==> arguments == Ordered.Put(old(arguments), "limit", Int(Bounds(limit.i, ImageLimitMin, ImageLimitMax)))
      ensures !stored ==> arguments == old(arguments)
      ensures key == old(key) && endpoint == old(endpoint)
      ensures old(Valid()) ==> Valid()
      ensures stored && old(Valid()) ==> Ordered.Get(arguments, "limit") == Some(Int(Bounds(limit.i, ImageLimitMin, ImageLimitMax)))
    {
      stored := false;
      if limit.Int? {
        var v := Int(Bounds(limit.i, ImageLimitMin, ImageLimitMax));
        if Valid() {
          Ordered.PutGet(arguments, "limit", v, "limit");
          PutKeepsValid("limit", v);
        }
        arguments := Ordered.Put(arguments, "limit", v);
        stored := true;
      }
    }

    /** Storing a value that respects the per-key rules keeps the arguments valid. */
    lemma PutKeepsValid(k: string, v: Value)
      requires Valid()
      requires v.Str? || v.Int?
      requires k == "search" ==> v.Str?
      requires k == "limit" ==> v.Int? && ImageLimitMin <= v.i <= ImageLimitMax
      ensures var a := Ordered.Put(arguments, k, v);
        Ordered.DistinctKeys(a)
        && forall i :: 0 <= i < |a| ==>
             (a[i].1.Str? || a[i].1.Int?)
             && (a[i].0 == "search" ==> a[i].1.Str?)
             && (a[i].0 == "limit" ==> a[i].1.Int? && ImageLimitMin <= a[i].1.i <= ImageLimitMax)
    {
      Ordered.PutGet(arguments, k, v, k);
    }

    /** `parseArguments()`: each argument as `key=value&` in insertion order, the whole prefixed
        by '?' when there is at least one. */
    method ParseArguments(enc: string -> string) returns (r: Result<string>)
      ensures r.Ok? <==> PairsOf(arguments, enc).Ok?
      ensures r.Ok? ==> r.value == Query(PairsOf(arguments, enc).value)
      ensures Valid() ==> r.Ok?
    {
      var args := "";
      var i := 0;
      while i < |arguments|
        invariant 0 <= i <= |arguments|
        invariant PairsOf(arguments[..i], enc).Ok?
        invariant args == Terminated(PairsOf(arguments[..i], enc).value)
      {
        var pair := PairOf(arguments[i], enc);
        assert arguments[..i + 1][..i] == arguments[..i];
        if pair.Err? {
          assert !PairsOf(arguments, enc).Ok?;
          return Err(pair.error);
        }
        args := args + pair.value + "&";
        i := i + 1;
      }
      assert arguments[..i] == arguments;
      TerminatedJoin(PairsOf(arguments, enc).value);
      if |args| > 0 {
        args := "?" + args;
      }
      r := Ok(args);
    }

    /** `url()`: the base URL, the endpoint and the query string. */
    method Url(enc: string -> string) returns (r: Result<string>)
      ensures r.Ok? <==> PairsOf(arguments, enc).Ok?
      ensures r.Ok? ==> r.value == BaseUrl + endpoint + Query(PairsOf(arguments, enc).value)
    {
      var args :- ParseArguments(enc);
      r := Ok(BaseUrl + endpoint + args);
    }
  }

  // ---------------------------------------------------------------------------
  // Responses

  datatype Kind = NoneKind | ErrorKind | StatsKind | ImageKind | ShopKind | ListKind
  {
    function Name(): string
    {
      match this
      case NoneKind => "none"
      case ErrorKind => "error"
      case StatsKind => "stats"
      case ImageKind => "image"
      case ShopKind => "shop"
      case ListKind => "list"
    }
  }

  /** The image links of an item, present only when the item has `images`. */
  datatype ItemImages = ItemImages(icon: Value, png: Value, gallery: Value, featured: Value)

  datatype Item = Item(id: Value, name: Value, price: Value, priceIcon: Value, priceIconLink: Value,
                       rarity: Value, itemType: Value, readableType: Value, images: Option<ItemImages>)

  /** `Item.load(name, json, default)` (and `StatItem.load`): `json[name]` when `name in json`,
      else the default. `json` may be any parsed value: on a dict this is a key lookup; on a
      string or a list the test succeeds but a hit cannot be indexed by a string; anything else
      cannot be tested with `in`. */
  function Load(name: string, v: Value, default: Value): (r: Result<Value>)
    ensures v.Object? ==> r == Ok(GetOr(v.fields, name, default))
    ensures v.Str? || v.List? ==> (r.Ok? <==> Contains(v, name) == Ok(false))
    ensures r.Ok? ==> v.Object? || v.Str? || v.List?
    ensures r.Ok? && !v.Object? ==> r.value == default
    ensures r.Err? ==> r.error == TypeError
  {
    var present :- Contains(v, name);
    if present then Index(v, name) else Ok(default)
  }

  /** The names `Item(json)` loads, all the names it tests with `in`, and those it tests on
      `json['images']`. */
  const FieldKeys := ["id", "name", "price", "priceIcon", "priceIconLink", "rarity", "type", "readableType"]
  const ItemKeys := ["id", "name", "price", "priceIcon", "priceIconLink", "rarity", "type", "readableType", "images"]
  const ImageKeys := ["icon", "png", "gallery", "featured"]

  /** Whether every `in` test of the names, and every `load` that follows it, succeeds on `v`:
      always on a dict; on a string or a list only when none of the names is in it. */
  predicate Loadable(v: Value, names: seq<string>)
  {
    v.Object? || ((v.Str? || v.List?) && forall name :: name in names ==> Contains(v, name) == Ok(false))
  }

  const NoImages := ItemImages(Str(""), Str(""), Str(""), Bool(false))
  const BlankItem := Item(Str(""), Str(""), Str(""), Str(""), Str(""), Str(""), Str(""), Str(""), None)

  /** The four image fields, loaded from `json['images']`. */
  function ImagesOf(im: Value): (r: Result<ItemImages>)
    ensures r.Ok? <==> Loadable(im, ImageKeys)
    ensures r.Ok? ==>
      Load("icon", im, Str("")) == Ok(r.value.icon) && Load("png", im, Str("")) == Ok(r.value.png)
      && Load("gallery", im, Str("")) == Ok(r.value.gallery) && Load("featured", im, Bool(false)) == Ok(r.value.featured)
    ensures r.Ok? && !im.Object? ==> r.value == NoImages
    ensures r.Err? ==> r.error == TypeError
  {
    var icon :- Load("icon", im, Str(""));
    var png :- Load("png", im, Str(""));
    var gallery :- Load("gallery", im, Str(""));
    var featured :- Load("featured", im, Bool(false));
    Ok(ItemImages(icon, png, gallery, featured))
  }

  /** The eight plain fields of `Item(json)`, each loaded with the default ''. */
  function FieldsOf(v: Value): (r: Result<Item>)
    ensures r.Ok? <==> Loadable(v, FieldKeys)
    ensures r.Err? ==> r.error == TypeError
    ensures r.Ok? ==>
      Load("id", v, Str("")) == Ok(r.value.id) && Load("name", v, Str("")) == Ok(r.value.name)
      && Load("price", v, Str("")) == Ok(r.value.price) && Load("priceIcon", v, Str("")) == Ok(r.value.priceIcon)
      && Load("priceIconLink", v, Str("")) == Ok(r.value.priceIconLink) && Load("rarity", v, Str("")) == Ok(r.value.rarity)
      && Load("type", v, Str("")) == Ok(r.value.itemType) && Load("readableType", v, Str("")) == Ok(r.value.readableType)
    ensures r.Ok? ==> r.value.images.None?
    ensures r.Ok? && !v.Object? ==> r.value == BlankItem
  {
    var vs :- Each(name => Load(name, v, Str("")), FieldKeys);
    Ok(Item(vs[0], vs[1], vs[2], vs[3], vs[4], vs[5], vs[6], vs[7], None))
  }

  /** `Item(json)`: every field defaults to '' and `featured` to False; the image fields are set
      only when `'images' in json`. */
  function ItemOf(v: Value): (r: Result<Item>)
    ensures r.Ok? <==> Loadable(v, ItemKeys) && (v.Object? && "images" in v.fields ==> Loadable(v.fields["images"], ImageKeys))
    ensures r.Err? ==> r.error == TypeError
    ensures r.Ok? ==> FieldsOf(v) == Ok(r.value.(images := None))
    ensures r.Ok? ==> (r.value.images.Some? <==> v.Object? && "images" in v.fields)
    ensures r.Ok? && r.value.images.Some? ==> ImagesOf(v.fields["images"]) == Ok(r.value.images.value)
    ensures r.Ok? && !v.Object? ==> r.value == BlankItem
  {
    var fields :- FieldsOf(v);
    var hasImages := Contains(v, "images").value;  // `FieldsOf` already tested `in` on v
    if !hasImages then Ok(fields)
    else
      var im :- Index(v, "images");
      var images :- ImagesOf(im);
      Ok(fields.(images := Some(images)))
  }

  /** A list or string entry holding none of the names decodes to an item of defaults. */
  lemma ItemOfBlankEntry()
    ensures ItemOf(List([])) == Ok(BlankItem)
    ensures ItemOf(Str("")) == Ok(BlankItem)
  {
    assert Loadable(List([]), ItemKeys);
    forall name | name in ItemKeys ensures Contains(Str(""), name) == Ok(false) {
      assert !Text.HasSubstring("", name);
    }
  }

  /** An `images` value that is a list without the image names gives default links. */
  lemma ItemOfListImages()
    ensures ItemOf(Object(map["images" := List([])])) == Ok(BlankItem.(images := Some(NoImages)))
  {
    var v := Object(map["images" := List([])]);
    assert Loadable(List([]), ImageKeys);
    assert FieldsOf(v) == Ok(BlankItem);
  }

  /** A list holding the string "images" passes the `in` test but cannot be indexed by it. */
  lemma ItemOfRejects()
    ensures ItemOf(List([Str("images")])) == Err(TypeError)
  {
    assert Contains(List([Str("images")]), "images") == Ok(true);
    assert !Loadable(List([Str("images")]), ItemKeys);
  }

  datatype StatRarity = StatRarity(rarity: Value, count: Value)

  datatype StatItem = StatItem(itemType: Value, rarity: seq<StatRarity>)

  /** `StatRarity(json)`: both keys are required. */
  function StatRarityOf(v: Value): (r: Result<StatRarity>)
    ensures r.Ok? <==> v.Object? && "rarity" in v.fields && "count" in v.fields
    ensures r.Ok? ==> r.value == StatRarity(v.fields["rarity"], v.fields["count"])
  {
    var rarity :- Index(v, "rarity");
    var count :- Index(v, "count");
    Ok(StatRarity(rarity, count))
  }

  /** The stat item `StatItem(json)` builds: the type defaults to ''; without `'rarity' in json`
      the rarity list is empty, otherwise it holds one `StatRarity` per element of
      `json['rarity']`. */
  function StatItemOf(v: Value): (r: Result<StatItem>)
    ensures r.Ok? ==> Loadable(v, ["type", "rarity"]) && Load("type", v, Str("")) == Ok(r.value.itemType)
    ensures !v.Object? ==> (r.Ok? <==> Loadable(v, ["type", "rarity"])) && (r.Ok? ==> r.value == StatItem(Str(""), []))
    ensures v.Object? && "rarity" !in v.fields ==> r == Ok(StatItem(GetOr(v.fields, "type", Str("")), []))
    ensures v.Object? && "rarity" in v.fields ==>
      var es := Elements(v.fields["rarity"]);
      (r.Ok? <==> es.Ok? && forall i :: 0 <= i < |es.value| ==> StatRarityOf(es.value[i]).Ok?)
      && (r.Ok? ==> |r.value.rarity| == |es.value|
                    && forall i :: 0 <= i < |es.value| ==> Ok(r.value.rarity[i]) == StatRarityOf(es.value[i]))
  {
    var itemType :- Load("type", v, Str(""));
    var hasRarity := Contains(v, "rarity").value;
    if !hasRarity then Ok(StatItem(itemType, []))
    else
      var list :- Index(v, "rarity");
      var rarity :- MapElements(StatRarityOf, list);
      Ok(StatItem(itemType, rarity))
  }

  /** A `rarity` that is an empty dict iterates zero times; a non-empty one fails on `json['rarity'][0]`. */
  lemma StatItemOfDictRarity()
    ensures StatItemOf(Object(map["rarity" := Object(map[])])) == Ok(StatItem(Str(""), []))
    ensures StatItemOf(Object(map["rarity" := Object(map["a" := Null])])) == Err(KeyError(Text.IntToString(0)))
  {
    assert |map["a" := Null]| == 1;
  }

  /** `StatItem(json)` itself, its loop run by `CollectElements`. */
  method NewStatItem(v: Value) returns (r: Result<StatItem>)
    ensures r == StatItemOf(v)
  {
    var itemType :- Load("type", v, Str(""));
    var hasRarity := Contains(v, "rarity").value;
    var rarity: seq<StatRarity> := [];
    if hasRarity {
      var list :- Index(v, "rarity");
      rarity :- CollectElements(list, StatRarityOf);
    }
    r := Ok(StatItem(itemType, rarity));
  }

  datatype Payload =
    | ImagePayload(results: seq<Item>)
    | ShopPayload(featured: seq<Item>, daily: seq<Item>, date: Value)
    | StatsPayload(totalCosmetics: Value, matrix: seq<StatItem>)
    | ListPayload(text: string)   // the page scraped by `ItemListResponse`

  datatype Response = Response(kind: Kind, status: Value, error: Option<Value>, data: Option<Payload>)

  /** What arrives from the HTTP exchange: the parsed body (None when it is not JSON), the status
      code, the reason phrase, the final URL and the raw text. */
  datatype Raw = Raw(body: Option<Value>, statusCode: int, reason: string, url: string, text: string)

  /** `self.status`: the body's `status` when present, else the HTTP status code. */
  function StatusOf(fields: map<string, Value>, statusCode: int): Value
  {
    GetOr(fields, "status", Int(statusCode))
  }

  /** The branch cascade of `APIResponse`, in its order of precedence. */
  function KindOf(fields: map<string, Value>, statusCode: int, url: string): (k: Kind)
    ensures var status := StatusOf(fields, statusCode);
      (k == ErrorKind <==> !PyEq(status, Int(200)))
      && (k == ImageKind <==> PyEq(status, Int(200)) && "data" in fields && fields["data"].List?)
      && (k == ShopKind <==> PyEq(status, Int(200)) && "data" in fields && fields["data"].Object?)
      && (k == StatsKind <==>
            (PyEq(status, Int(200)) && "data" !in fields && "totalCosmetics" in fields && "matrix" in fields))
      && (k == ListKind <==>
            (PyEq(status, Int(200)) && "data" !in fields
             && !("totalCosmetics" in fields && "matrix" in fields) && url == ListUrl))
  {
    if !PyEq(StatusOf(fields, statusCode), Int(200)) then ErrorKind
    else if "data" in fields then
      if fields["data"].List? then ImageKind
      else if fields["data"].Object? then ShopKind
      else NoneKind
    else if "totalCosmetics" in fields && "matrix" in fields then StatsKind
    else if url == ListUrl then ListKind
    else NoneKind
  }

  /** The payload `ShopResponse(json)` builds from `json['data']`: the featured and daily items,
      one per element, and the date, each key looked up in that order. */
  function ShopPayloadOf(data: Value): (r: Result<Payload>)
    ensures r.Ok? <==>
      data.Object? && "featured" in data.fields && "daily" in data.fields && "date" in data.fields
      && MapElements(ItemOf, data.fields["featured"]).Ok? && MapElements(ItemOf, data.fields["daily"]).Ok?
    ensures r.Ok? ==>
      r.value == ShopPayload(MapElements(ItemOf, data.fields["featured"]).value,
                             MapElements(ItemOf, data.fields["daily"]).value, data.fields["date"])
    ensures !data.Object? ==> r == Err(TypeError)
    ensures data.Object? && "featured" !in data.fields ==> r == Err(KeyError("featured"))
  {
    var featuredList :- Index(data, "featured");
    var featured :- MapElements(ItemOf, featuredList);
    var dailyList :- Index(data, "daily");
    var daily :- MapElements(ItemOf, dailyList);
    var date :- Index(data, "date");
    Ok(ShopPayload(featured, daily, date))
  }

  /** `ShopResponse(json)`: its two loops, then the date. */
  method ShopOf(data: Value) returns (r: Result<Payload>)
    ensures r == ShopPayloadOf(data)
  {
    var featuredList :- Index(data, "featured");
    var featured :- CollectElements(featuredList, ItemOf);
    var dailyList :- Index(data, "daily");
    var daily :- CollectElements(dailyList, ItemOf);
    var date :- Index(data, "date");
    r := Ok(ShopPayload(featured, daily, date));
  }

  /** The payload `StatResponse(json)` builds: the cosmetics total and one stat item per element
      of `json['matrix']`. */
  function StatsPayloadOf(fields: map<string, Value>): (r: Result<Payload>)
    requires "totalCosmetics" in fields && "matrix" in fields
    ensures var es := Elements(fields["matrix"]);
      (r.Ok? <==> es.Ok? && forall i :: 0 <= i < |es.value| ==> StatItemOf(es.value[i]).Ok?)
      && (r.Ok? ==> r.value.StatsPayload? && r.value.totalCosmetics == fields["totalCosmetics"]
                    && |r.value.matrix| == |es.value|
                    && forall i :: 0 <= i < |es.value| ==> Ok(r.value.matrix[i]) == StatItemOf(es.value[i]))
  {
    var matrix :- MapElements(StatItemOf, fields["matrix"]);
    Ok(StatsPayload(fields["totalCosmetics"], matrix))
  }

  /** `StatResponse(json)`: the loop over `json['matrix']`, each entry built by `StatItem(json)`. */
  method StatsOf(fields: map<string, Value>) returns (r: Result<Payload>)
    requires "totalCosmetics" in fields && "matrix" in fields
    ensures r == StatsPayloadOf(fields)
  {
    var list := fields["matrix"];
    var n :- Len(list);
    var matrix: seq<StatItem> := [];
    var i := 0;
    while i < n
      invariant 0 <= i <= n
      invariant Elements(list).Ok? ==> |Elements(list).value| == n && Each(StatItemOf, Elements(list).value[..i]) == Ok(matrix)
      invariant Elements(list).Err? ==> i == 0
    {
      var e := At(list, i);
      if e.Err? {
        return Err(e.error);
      }
      var es := Elements(list).value;
      assert e.value == es[i];
      var item := NewStatItem(e.value);
      if item.Err? {
        EachFirstError(StatItemOf, es, i);
        return Err(item.error);
      }
      EachStep(StatItemOf, es, i);
      matrix := matrix + [item.value];
      i := i + 1;
    }
    assert Elements(list).Ok?;
    assert Elements(list).value[..i] == Elements(list).value;
    r := Ok(StatsPayload(fields["totalCosmetics"], matrix));
  }

  /** `APIResponse(response)`: an unparseable body counts as {}; a body that is JSON but not an
      object cannot be indexed by `'status'` and raises TypeError. The kind follows `KindOf`; an
      error response carries the body's `error` or else the reason; the image, shop and stats
      kinds carry the payload their response class builds, and raise what it raises. */
  method Classify(raw: Raw) returns (r: Result<Response>)
    ensures raw.body.Some? && !raw.body.value.Object? ==> r == Err(TypeError)
    ensures var fields := if raw.body.Some? && raw.body.value.Object? then raw.body.value.fields else map[];
      var k := KindOf(fields, raw.statusCode, raw.url);
      (r.Ok? ==> r.value.kind == k && r.value.status == StatusOf(fields, raw.statusCode))
      && (r.Ok? ==> (r.value.error.Some? <==> k == ErrorKind))
      && (r.Ok? && k == ErrorKind ==> r.value.error == Some(GetOr(fields, "error", Str(raw.reason))))
      && (r.Ok? ==> (r.value.data.None? <==> k == ErrorKind || k == NoneKind))
      && (k == ImageKind ==>
            var p := MapElements(ItemOf, fields["data"]);
            (r.Ok? <==> p.Ok?) && (r.Ok? ==> r.value.data == Some(ImagePayload(p.value)))
            && (r.Err? ==> r.error == p.error))
      && (k == ShopKind ==>
            var p := ShopPayloadOf(fields["data"]);
            (r.Ok? <==> p.Ok?) && (r.Ok? ==> r.value.data == Some(p.value)) && (r.Err? ==> r.error == p.error))
      && (k == StatsKind ==>
            var p := StatsPayloadOf(fields);
            (r.Ok? <==> p.Ok?) && (r.Ok? ==> r.value.data == Some(p.value)) && (r.Err? ==> r.error == p.error))
      && (r.Ok? && k == ListKind ==> r.value.data == Some(ListPayload(raw.text)))
      && ((raw.body.None? || raw.body.value.Object?) && (k == ErrorKind || k == NoneKind || k == ListKind) ==> r.Ok?)
  {
    var json := if raw.body.Some? then raw.body.value else Object(map[]);
    if !json.Object? {
      return Err(TypeError);
    }
    var fields := json.fields;
    var status := StatusOf(fields, raw.statusCode);
    if !PyEq(status, Int(200)) {
      return Ok(Response(ErrorKind, status, Some(GetOr(fields, "error", Str(raw.reason))), None));
    } else if "data" in fields {
      var data := fields["data"];
      if data.List? {
        var results :- CollectElements(data, ItemOf);
        return Ok(Response(ImageKind, status, None, Some(ImagePayload(results))));
      } else if data.Object? {
        var shop :- ShopOf(data);
        return Ok(Response(ShopKind, status, None, Some(shop)));
      } else {
        return Ok(Response(NoneKind, status, None, None));
      }
    } else if "totalCosmetics" in fields && "matrix" in fields {
      var stats :- StatsOf(fields);
      return Ok(Response(StatsKind, status, None, Some(stats)));
    } else if raw.url == ListUrl {
      return Ok(Response(ListKind, status, None, Some(ListPayload(raw.text))));
    } else {
      return Ok(Response(NoneKind, status, None, None));
    }
  }
}
