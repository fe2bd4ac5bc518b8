/** Parsed JSON as Python holds it after `json.loads`, and the dict lookups made on it. */
module Json {
  import opened Wrappers
  import Text

  datatype Value =
    | Null
    | Bool(b: bool)
    | Int(i: int)
    | Real(r: real)
    | Str(s: string)
    | List(items: seq<Value>)
    | Object(fields: map<string, Value>)

  /** Python numbers: `bool` is a subclass of `int`. */
  predicate IsNumber(v: Value)
  {
    v.Bool? || v.Int? || v.Real?
  }

  function Num(v: Value): real
    requires IsNumber(v)
  {
    match v
    case Bool(b) => if b then 1.0 else 0.0
    case Int(i) => i as real
    case Real(r) => r
  }

  /** Python `==` between two parsed JSON values: numbers compare by value, lists element by
      element, dicts key by key, and the rest structurally. */
  predicate PyEq(a: Value, b: Value)
    decreases a
  {
    if IsNumber(a) && IsNumber(b) then Num(a) == Num(b)
    else if a.List? && b.List? then
      |a.items| == |b.items| && forall i :: 0 <= i < |a.items| ==> PyEq(a.items[i], b.items[i])
    else if a.Object? && b.Object? then
      a.fields.Keys == b.fields.Keys && forall k :: k in a.fields ==> PyEq(a.fields[k], b.fields[k])
    else a == b
  }

  /** `str(v)` for the values a status code may hold: `None`, `True`/`False`, an int in decimal,
      a string as it is and a whole float with ".0"; a fractional float, a list or a dict is
      shown as "?". */
  function Show(v: Value): string
  {
    match v
    case Null => "None"
    case Bool(b) => if b then "True" else "False"
    case Int(i) => Text.IntToString(i)
    case Str(s) => s
    case Real(r) => if r.Floor as real == r then Text.IntToString(r.Floor) + ".0" else "?"
    case _ => "?"
  }

  /** `d.get(key, default)` on a dict. */
  function GetOr(d: map<string, Value>, key: string, default: Value): (v: Value)
    ensures key in d ==> v == d[key]
    ensures key !in d ==> v == default
  {
    if key in d then d[key] else default
  }

  /** `v.get(key, default)` where `v` may be any value: only a dict has `.get`. */
  function Get(v: Value, key: string, default: Value): (r: Result<Value>)
    ensures r.Ok? <==> v.Object?
    ensures v.Object? ==> r.value == GetOr(v.fields, key, default)
  {
    if v.Object? then Ok(GetOr(v.fields, key, default)) else Err(AttributeError)
  }

  /** `v[key]` where `v` must be a dict holding `key`. */
  function Index(v: Value, key: string): (r: Result<Value>)
    ensures r.Ok? <==> v.Object? && key in v.fields
    ensures r.Ok? ==> r.value == v.fields[key]
  {
    if !v.Object? then Err(TypeError)
    else if key !in v.fields then Err(KeyError(key))
    else Ok(v.fields[key])
  }

  /** Python `name in v` for a string `name`: a key of a dict, an element of a list, a substring
      of a string; any other value is not iterable and raises TypeError. */
  function Contains(v: Value, name: string): (r: Result<bool>)
    ensures r.Ok? <==> v.Object? || v.List? || v.Str?
    ensures r.Err? ==> r.error == TypeError
  {
    match v
    case Object(fields) => Ok(name in fields)
    case List(items) => Ok(Str(name) in items)
    case Str(s) => Ok(Text.HasSubstring(s, name))
    case _ => Err(TypeError)
  }

  /** Python `len(v)`: defined for strings, lists and dicts. */
  function Len(v: Value): (r: Result<nat>)
    ensures r.Ok? <==> v.Object? || v.List? || v.Str?
    ensures r.Err? ==> r.error == TypeError
  {
    match v
    case Object(fields) => Ok(|fields|)
    case List(items) => Ok(|items|)
    case Str(s) => Ok(|s|)
    case _ => Err(TypeError)
  }

  /** Python `v[i]` for an index below `len(v)`: a list element, a one-character string, and for a
      dict a lookup of the int key `i`, which a parsed JSON object never holds (the KeyError
      carries the key's decimal text). */
  function At(v: Value, i: nat): Result<Value>
    requires Len(v).Ok? && i < Len(v).value
  {
    if v.List? then Ok(v.items[i])
    else if v.Str? then Ok(Str([v.s[i]]))
    else Err(KeyError(Text.IntToString(i)))
  }

  /** The values `v[i]` for `i` in `range(len(v))`, as the decoding loops visit them. */
  function Elements(v: Value): (r: Result<seq<Value>>)
    ensures Len(v).Err? ==> r == Err(Len(v).error)
    ensures r.Ok? ==> Len(v) == Ok(|r.value|) && forall i :: 0 <= i < |r.value| ==> At(v, i) == Ok(r.value[i])
    ensures Len(v).Ok? && r.Err? ==> Len(v).value > 0 && At(v, 0) == Err(r.error)
    ensures v.List? ==> r == Ok(v.items)
  {
    match v
    case List(items) => Ok(items)
    case Str(s) => Ok(seq(|s|, i requires 0 <= i < |s| => Str([s[i]])))
    case Object(fields) => if |fields| == 0 then Ok([]) else Err(KeyError(Text.IntToString(0)))
    case _ => Err(TypeError)
  }

  /** `out = []; for i in range(len(v)): out.append(f(v[i]))`, stopping at the first exception. */
  function MapElements<T>(f: Value -> Result<T>, v: Value): (r: Result<seq<T>>)
    ensures r.Ok? <==> Elements(v).Ok? && forall i :: 0 <= i < |Elements(v).value| ==> f(Elements(v).value[i]).Ok?
    ensures r.Ok? ==>
      |r.value| == |Elements(v).value|
      && forall i :: 0 <= i < |r.value| ==> Ok(r.value[i]) == f(Elements(v).value[i])
    ensures r.Err? && Elements(v).Ok? ==>
      exists i :: 0 <= i < |Elements(v).value| && f(Elements(v).value[i]) == Err(r.error)
  {
    var es :- Elements(v);
    Each(f, es)
  }

  /** The decoding loop itself: `len(v)` first, then `f(v[i])` for each index in turn. */
  method CollectElements<T>(v: Value, f: Value -> Result<T>) returns (r: Result<seq<T>>)
    ensures r == MapElements(f, v)
  {
    var n :- Len(v);
    var out: seq<T> := [];
    var i := 0;
    while i < n
      invariant 0 <= i <= n
      invariant Elements(v).Ok? ==> |Elements(v).value| == n && Each(f, Elements(v).value[..i]) == Ok(out)
      invariant Elements(v).Err? ==> i == 0
    {
      var e := At(v, i);
      if e.Err? {
        return Err(e.error);
      }
      var es := Elements(v).value;
      assert e.value == es[i];
      var x := f(e.value);
      if x.Err? {
        EachFirstError(f, es, i);
        return Err(x.error);
      }
      EachStep(f, es, i);
      out := out + [x.value];
      i := i + 1;
    }
    assert Elements(v).Ok?;
    assert Elements(v).value[..i] == Elements(v).value;
    r := Ok(out);
  }
}
