/** The handful of Python `str` operations the chat commands and embeds rely on. */
module Text {
  import opened Wrappers

  /** Python's `str.isspace` for one character (the characters `str.strip()` removes). */
  predicate IsSpace(c: char)
  {
    var n := c as int;
    n == 0x20 || (0x09 <= n <= 0x0d) || (0x1c <= n <= 0x1f) || n == 0x85 || n == 0xa0
    || n == 0x1680 || (0x2000 <= n <= 0x200a) || n == 0x2028 || n == 0x2029
    || n == 0x202f || n == 0x205f || n == 0x3000
  }

  predicate IsBlank(s: string)
  {
    forall i :: 0 <= i < |s| ==> IsSpace(s[i])
  }

  function LowerChar(c: char): char
  {
    if 'A' <= c <= 'Z' then (c as int + 32) as char else c
  }

  function UpperChar(c: char): char
  {
    if 'a' <= c <= 'z' then (c as int - 32) as char else c
  }

  /** `str.lower()` on ASCII letters. */
  function Lower(s: string): string
  {
    seq(|s|, i requires 0 <= i < |s| => LowerChar(s[i]))
  }

  lemma LowerAppend(a: string, b: string)
    ensures Lower(a + b) == Lower(a) + Lower(b)
  {
  }

  lemma LowerUnchanged(s: string)
    requires forall i :: 0 <= i < |s| ==> !('A' <= s[i] <= 'Z')
    ensures Lower(s) == s
  {
  }

  /** `str.upper()` on ASCII letters. */
  function Upper(s: string): string
  {
    seq(|s|, i requires 0 <= i < |s| => UpperChar(s[i]))
  }

  /** Python slice `s[:n]`. */
  function Take(s: string, n: nat): (r: string)
    ensures |r| <= n && |r| <= |s| && (|s| <= n ==> r == s)
    ensures r == s[..|r|]
  {
    if |s| <= n then s else s[..n]
  }

  /** Position of the first `c` in `s` (Python `s.index(c)`). */
  function IndexOf(s: string, c: char): (i: nat)
    requires c in s
    ensures i < |s| && s[i] == c && c !in s[..i]
  {
    if s[0] == c then 0
    else
      var k := IndexOf(s[1..], c);
      assert s[1..][..k] == s[1..k + 1];
      assert s[..k + 1] == [s[0]] + s[1..k + 1];
      k + 1
  }

  /** Number of occurrences of `c` in `s` (Python `s.count(c)` for a one-character string). */
  function Count(s: string, c: char): nat
  {
    if s == [] then 0 else (if s[0] == c then 1 else 0) + Count(s[1..], c)
  }

  /** Python `sub in s`, equivalently `s.count(sub) > 0`. */
  predicate HasSubstring(s: string, sub: string)
    decreases |s|
  {
    sub <= s || (s != [] && HasSubstring(s[1..], sub))
  }

  /** Python `str.split(" ")` generalised to any one-character separator: empty pieces are kept. */
  function Split(s: string, d: char): (parts: seq<string>)
    ensures |parts| >= 1
    ensures forall i :: 0 <= i < |parts| ==> d !in parts[i]
    decreases |s|
  {
    if d !in s then [s]
    else
      var i := IndexOf(s, d);
      [s[..i]] + Split(s[i + 1..], d)
  }

  /** Python `sep.join(parts)`. */
  function Join(parts: seq<string>, sep: string): string
  {
    if |parts| == 0 then ""
    else if |parts| == 1 then parts[0]
    else parts[0] + sep + Join(parts[1..], sep)
  }

  /** Python `s.split(" ")[k]`, or None where Python raises IndexError. */
  function Token(s: string, k: nat): (r: Option<string>)
    ensures r.Some? <==> k < |Split(s, ' ')|
    ensures r.Some? ==> ' ' !in r.value
  {
    var parts := Split(s, ' ');
    if k < |parts| then Some(parts[k]) else None
  }

  /** Python `str.strip()`. */
  function Strip(s: string): string
  {
    StripRight(StripLeft(s))
  }

  function StripLeft(s: string): string
  {
    if s != [] && IsSpace(s[0]) then StripLeft(s[1..]) else s
  }

  function StripRight(s: string): string
  {
    if s != [] && IsSpace(s[|s| - 1]) then StripRight(s[..|s| - 1]) else s
  }

  /** Splitting and joining back with the same separator gives the original string. */
  lemma {:induction false} JoinSplit(s: string, d: char)
    ensures Join(Split(s, d), [d]) == s
    decreases |s|
  {
    if d in s {
      var i := IndexOf(s, d);
      var rest := Split(s[i + 1..], d);
      JoinSplit(s[i + 1..], d);
      var parts := Split(s, d);
      assert parts == [s[..i]] + rest;
      assert |parts| >= 2 && parts[0] == s[..i] && parts[1..] == rest;
      assert Join(parts, [d]) == s[..i] + [d] + Join(rest, [d]);
      assert s == s[..i] + [d] + s[i + 1..];
    }
  }

  lemma TakeSnoc(parts: seq<string>, i: nat)
    requires i < |parts|
    ensures parts[..i + 1] == parts[..i] + [parts[i]]
  {
  }

  /** Appending one more part to a join adds one separator and that part. */
  lemma {:induction false} JoinSnoc(parts: seq<string>, x: string, sep: string)
    ensures Join(parts + [x], sep) == if parts == [] then x else Join(parts, sep) + sep + x
    decreases |parts|
  {
    if |parts| >= 2 {
      JoinSnoc(parts[1..], x, sep);
      assert (parts + [x])[1..] == parts[1..] + [x];
    } else if |parts| == 1 {
      assert (parts + [x])[1..] == [x];
    }
  }

  /** `strip()` yields the empty string exactly for whitespace-only input. */
  lemma {:induction false} StripEmptyIffBlank(s: string)
    ensures Strip(s) == "" <==> IsBlank(s)
  {
    StripLeftEmpty(s);
    if StripLeft(s) != "" {
      StripLeftKeepsFirst(s);
    }
    StripRightEmpty(StripLeft(s));
  }

  lemma {:induction false} StripLeftEmpty(s: string)
    ensures StripLeft(s) == "" <==> IsBlank(s)
    decreases |s|
  {
    if s != [] && IsSpace(s[0]) {
      StripLeftEmpty(s[1..]);
      assert IsBlank(s) <==> IsBlank(s[1..]) by {
        if IsBlank(s[1..]) {
          forall i | 0 <= i < |s| ensures IsSpace(s[i]) {
            if i > 0 { assert s[i] == s[1..][i - 1]; }
          }
        }
      }
    }
  }

  lemma {:induction false} StripLeftKeepsFirst(s: string)
    requires StripLeft(s) != ""
    ensures !IsSpace(StripLeft(s)[0])
    decreases |s|
  {
    if s != [] && IsSpace(s[0]) {
      StripLeftKeepsFirst(s[1..]);
    }
  }

  lemma {:induction false} StripRightEmpty(s: string)
    requires s == "" || !IsSpace(s[0])
    ensures StripRight(s) == "" <==> s == ""
    decreases |s|
  {
    if s != [] && IsSpace(s[|s| - 1]) {
      StripRightEmpty(s[..|s| - 1]);
    }
  }

  // ---------------------------------------------------------------------------
  // Integers as decimal text: Python `str(i)` and `int(s)`

  predicate IsDigit(c: char)
  {
    '0' <= c <= '9'
  }

  predicate AllDigits(s: string)
  {
    forall i :: 0 <= i < |s| ==> IsDigit(s[i])
  }

  function DigitsValue(s: string): nat
    requires AllDigits(s)
  {
    if s == [] then 0 else DigitsValue(s[..|s| - 1]) * 10 + (s[|s| - 1] as int - '0' as int)
  }

  function NatToDigits(n: nat): (s: string)
    ensures s != [] && AllDigits(s)
  {
    var d := ['0' + (n % 10) as char];
    if n < 10 then d else NatToDigits(n / 10) + d
  }

  /** Python `str(i)` for an integer. */
  function IntToString(i: int): string
  {
    if i < 0 then "-" + NatToDigits(-i) else NatToDigits(i)
  }

  /** Python `int(s)` for a string: surrounding whitespace, an optional sign, then ASCII digits. */
  function ParseInt(s: string): Option<int>
  {
    var t := Strip(s);
    if t != [] && (t[0] == '-' || t[0] == '+') then
      if |t| > 1 && AllDigits(t[1..]) then
        Some(if t[0] == '-' then 0 - DigitsValue(t[1..]) else DigitsValue(t[1..]))
      else None
    else if t != [] && AllDigits(t) then Some(DigitsValue(t))
    else None
  }

  lemma {:induction false} DigitsRoundTrip(n: nat)
    ensures DigitsValue(NatToDigits(n)) == n
  {
    if n >= 10 {
      var p := NatToDigits(n / 10);
      var s := NatToDigits(n);
      assert s == p + ['0' + (n % 10) as char];
      assert s[..|s| - 1] == p;
      DigitsRoundTrip(n / 10);
    }
  }

  lemma StripUnpadded(s: string)
    requires s != [] && !IsSpace(s[0]) && !IsSpace(s[|s| - 1])
    ensures Strip(s) == s
  {
  }

  /** `int(str(i)) == i`. */
  lemma {:induction false} ParseIntRoundTrip(i: int)
    ensures ParseInt(IntToString(i)) == Some(i)
  {
    var digits := NatToDigits(if i < 0 then -i else i);
    DigitsRoundTrip(if i < 0 then -i else i);
    var s := IntToString(i);
    assert IsDigit(digits[|digits| - 1]);
    if i < 0 {
      assert s[1..] == digits;
      assert s[|s| - 1] == digits[|digits| - 1];
    } else {
      assert IsDigit(s[0]);
    }
    StripUnpadded(s);
  }

  // ---------------------------------------------------------------------------
  // `template.format_map(mapping)` where the mapping returns the key for a missing name

  /** Python `str.format_map` with a mapping whose `__missing__` returns the key itself:
      `{name}` becomes the mapped value (or `name`), `{{` and `}}` become single braces. */
  function FormatMap(t: string, m: map<string, string>): string
    decreases |t|
  {
    if t == [] then []
    else if |t| >= 2 && t[0] == '{' && t[1] == '{' then "{" + FormatMap(t[2..], m)
    else if |t| >= 2 && t[0] == '}' && t[1] == '}' then "}" + FormatMap(t[2..], m)
    else if t[0] == '{' && '}' in t[1..] then
      var j := IndexOf(t[1..], '}');
      var name := t[1..j + 1];
      (if name in m then m[name] else name) + FormatMap(t[j + 2..], m)
    else [t[0]] + FormatMap(t[1..], m)
  }

  /** Python `str.format_map` with a plain dict: the same replacement, but the first name the
      dict lacks raises KeyError. Whenever it succeeds it agrees with the forgiving mapping. */
  function FormatMapStrict(t: string, m: map<string, string>): (r: Result<string>)
    ensures r.Ok? ==> r.value == FormatMap(t, m)
    ensures r.Err? ==> r.error.KeyError? && r.error.key !in m
    decreases |t|
  {
    if t == [] then Ok([])
    else if |t| >= 2 && t[0] == '{' && t[1] == '{' then
      var rest :- FormatMapStrict(t[2..], m);
      Ok("{" + rest)
    else if |t| >= 2 && t[0] == '}' && t[1] == '}' then
      var rest :- FormatMapStrict(t[2..], m);
      Ok("}" + rest)
    else if t[0] == '{' && '}' in t[1..] then
      var j := IndexOf(t[1..], '}');
      var name := t[1..j + 1];
      if name !in m then Err(KeyError(name))
      else
        var rest :- FormatMapStrict(t[j + 2..], m);
        Ok(m[name] + rest)
    else
      var rest :- FormatMapStrict(t[1..], m);
      Ok([t[0]] + rest)
  }

  /** A template without braces is left as it is. */
  lemma {:induction false} FormatMapPlain(t: string, m: map<string, string>)
    requires '{' !in t && '}' !in t
    ensures FormatMap(t, m) == t
    decreases |t|
  {
    if t != [] {
      assert '{' !in t[1..] && '}' !in t[1..];
      FormatMapPlain(t[1..], m);
    }
  }

  /** One named field between brace-free text is replaced by its value. */
  lemma {:induction false} FormatMapName(pre: string, name: string, post: string, m: map<string, string>)
    requires '{' !in pre && '}' !in pre && '{' !in name && '}' !in name && '{' !in post && '}' !in post
    requires name in m
    ensures FormatMap(pre + "{" + name + "}" + post, m) == pre + m[name] + post
    decreases |pre|
  {
    if pre == [] {
      assert pre + "{" + name + "}" + post == "{" + name + "}" + post;
      FormatMapField(name, post, m);
    } else {
      var t := pre + "{" + name + "}" + post;
      var rest := pre[1..] + "{" + name + "}" + post;
      ConsAppend(pre, "{" + name + "}", post);
      assert t == [pre[0]] + rest;
      assert t[0] == pre[0] && t[0] != '{' && t[0] != '}';
      assert FormatMap(t, m) == [t[0]] + FormatMap(t[1..], m);
      FormatMapName(pre[1..], name, post, m);
      ConsAppend(pre, m[name], post);
    }
  }

  lemma ConsAppend(a: string, b: string, c: string)
    requires a != []
    ensures a + b + c == [a[0]] + (a[1..] + b + c)
  {
    assert a == [a[0]] + a[1..];
  }

  lemma FormatMapField(name: string, post: string, m: map<string, string>)
    requires '{' !in name && '}' !in name && '{' !in post && '}' !in post
    requires name in m
    ensures FormatMap("{" + name + "}" + post, m) == m[name] + post
  {
    var t := "{" + name + "}" + post;
    FieldSlices(name, post);
    FormatMapBrace(t, m);
    FormatMapPlain(post, m);
  }

  lemma FieldSlices(name: string, post: string)
    requires '{' !in name && '}' !in name
    ensures var t := "{" + name + "}" + post;
      |t| >= 2 && t[0] == '{' && t[1] != '{' && '}' in t[1..]
      && IndexOf(t[1..], '}') == |name| && t[1..|name| + 1] == name && t[|name| + 2..] == post
  {
    var t := "{" + name + "}" + post;
    var u := t[1..];
    assert u == name + "}" + post;
    assert u[|name|] == '}' && u[..|name|] == name;
    assert IndexOf(u, '}') == |name|;
    assert t[1..|name| + 1] == name;
    assert t[|name| + 2..] == post;
  }

  /** A lone opening brace with a closing one after it: the name between them is replaced. */
  lemma FormatMapBrace(t: string, m: map<string, string>)
    requires |t| >= 2 && t[0] == '{' && t[1] != '{' && '}' in t[1..]
    ensures var j := IndexOf(t[1..], '}');
      FormatMap(t, m) == (if t[1..j + 1] in m then m[t[1..j + 1]] else t[1..j + 1]) + FormatMap(t[j + 2..], m)
  {
  }

  /** Python's `round(x)` to an integer: the nearest integer, a tie going to the even one. */
  function Round(x: real): (n: int)
    ensures n as real - 0.5 <= x <= n as real + 0.5
    ensures (x == n as real - 0.5 || x == n as real + 0.5) ==> n % 2 == 0
  {
    var f := x.Floor;
    var d := x - f as real;
    if d < 0.5 then f
    else if d > 0.5 then f + 1
    else if f % 2 == 0 then f else f + 1
  }
}
