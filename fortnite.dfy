/** The Fortnite chat commands: the server-status embed and its colour escalation, the patch-note
    embed that splits long details into 1024-character fields, the shop image cache decision, and
    the argument parsing of the stats, background and patch-note commands. */
module Fortnite {
  import opened Wrappers
  import opened Json
  import Text
  import Embeds
  import Ordered

  const Green := 0x00ff00
  const Orange := 0xFFA700
  const Red := 0xff0000
  const Purple := 0x761fa1

  /** The footer marks: a heavy check mark with its emoji selector, and a cross mark. */
  const CheckMark := "\U{2714}\U{FE0F}"
  const CrossMark := "\U{274C}"

  // ---------------------------------------------------------------------------
  // Server status

  /** The severity of a service state; an unknown state is −1 and shows like an operational one. */
  function Level(value: string): (l: int)
    ensures l == 0 <==> value == "Operational"
    ensures l == 1 <==> value == "Degraded Performance" || value == "Under Maintenance"
    ensures l == 2 <==> value == "Major Outage"
    ensures -1 <= l <= 2
  {
    if value == "Operational" then 0
    else if value == "Degraded Performance" || value == "Under Maintenance" then 1
    else if value == "Major Outage" then 2
    else -1
  }

  /** The field text of a service state. */
  function Display(value: string): string
  {
    var l := Level(value);
    if l == 2 then ":x: __**" + value + "**__"
    else if l == 1 then ":x: **" + value + "**"
    else ":white_check_mark: " + value
  }

  /** How alarming a colour is: green (or any other) 0, orange 1, red 2. */
  function Rank(color: int): int
  {
    if color == Red then 2 else if color == Orange then 1 else 0
  }

  /** The colour after one service: an outage sets red, a degradation sets orange unless already
      red, anything else leaves the colour alone. The colour never becomes less alarming. */
  function NextColor(color: int, level: int): (c: int)
    ensures Rank(c) >= Rank(color)
    ensures color == Red ==> c == Red
    ensures level == 2 ==> c == Red
    ensures level == 1 ==> Rank(c) >= 1
    ensures level <= 0 ==> c == color
  {
    if level == 2 then Red
    else if level == 1 && color != Red then Orange
    else color
  }

  /** The colour after a sequence of services. */
  function FinalColor(color: int, values: seq<string>): int
  {
    if values == [] then color
    else NextColor(FinalColor(color, values[..|values| - 1]), Level(values[|values| - 1]))
  }

  /** The embed ends red exactly when it started red or some service had a major outage, and
      stays green exactly when it started green and no service was degraded or down. */
  lemma {:induction false} FinalColorCharacterised(color: int, values: seq<string>)
    ensures FinalColor(color, values) == Red
        <==> color == Red || exists i :: 0 <= i < |values| && values[i] == "Major Outage"
    ensures color == Green ==>
      (FinalColor(color, values) == Green <==> forall i :: 0 <= i < |values| ==> Level(values[i]) <= 0)
    ensures Rank(FinalColor(color, values)) >= Rank(color)
  {
    if values != [] {
      var init := values[..|values| - 1];
      var last := values[|values| - 1];
      FinalColorCharacterised(color, init);
      assert forall i :: 0 <= i < |init| ==> init[i] == values[i];
      if last != "Major Outage" && color != Red && FinalColor(color, values) == Red {
        assert FinalColor(color, init) == Red;
        var i :| 0 <= i < |init| && init[i] == "Major Outage";
        assert values[i] == "Major Outage";
      }
      if color == Green && FinalColor(color, values) == Green {
        assert FinalColor(color, init) == Green;
      }
    }
  }

  lemma FinalColorStep(color: int, values: seq<string>, i: nat)
    requires i < |values|
    ensures FinalColor(color, values[..i + 1]) == NextColor(FinalColor(color, values[..i]), Level(values[i]))
  {
    assert values[..i + 1][..i] == values[..i];
  }

  /** `StatusEmbed`: the embed plus the colour escalation of `add_service`. */
  class StatusEmbed {
    const embed: Embeds.Embed

    /** Online: green, check-mark footer and a blank description. Offline: red, cross-mark footer
        and the status message as description. */
    constructor (online: bool, message: string)
      ensures fresh(embed) && embed.fields == []
      ensures online ==> embed.title == "Fortnite servers are online" && embed.color == Green
                         && embed.footer == CheckMark && embed.description == "_ _"
      ensures !online ==> embed.title == "Fortnite servers are down" && embed.color == Red
                          && embed.footer == CrossMark && embed.description == message
    {
      var title := if online then "Fortnite servers are online" else "Fortnite servers are down";
      var color := if online then Green else Red;
      var footer := if online then CheckMark else CrossMark;
      var e := new Embeds.Embed(title, if online then "_ _" else message, color);
      e.SetFooter(footer);
      embed := e;
    }

    /** `add_service(name, value)`: one field named after the service, the colour escalated by
        its level and the footer turned to a cross after a degradation or an outage. */
    method AddService(name: string, value: string)
      modifies embed
      ensures embed.fields == old(embed.fields) + [Embeds.Field(name, Display(value))]
      ensures embed.color == NextColor(old(embed.color), Level(value))
      ensures embed.footer == if Level(value) > 0 then CrossMark else old(embed.footer)
      ensures embed.title == old(embed.title) && embed.description == old(embed.description)
    {
      var level := Level(value);
      var shown := ":white_check_mark: " + value;
      if level == 2 {
        shown := ":x: __**" + value + "**__";
        embed.color := Red;
      } else if level == 1 {
        shown := ":x: **" + value + "**";
        if embed.color != Red {
          embed.color := Orange;
        }
      }
      if level > 0 {
        embed.SetFooter(CrossMark);
      }
      embed.AddField(name, shown);
    }
  }

  function Values(services: Ordered.Dict<string, string>): (vs: seq<string>)
    ensures |vs| == |services| && forall i :: 0 <= i < |services| ==> vs[i] == services[i].1
  {
    seq(|services|, i requires 0 <= i < |services| => services[i].1)
  }

  function ServiceFields(services: Ordered.Dict<string, string>): (fs: seq<Embeds.Field>)
    ensures |fs| == |services|
    ensures forall i :: 0 <= i < |services| ==> fs[i] == Embeds.Field(services[i].0, Display(services[i].1))
  {
    seq(|services|, i requires 0 <= i < |services| => Embeds.Field(services[i].0, Display(services[i].1)))
  }

  predicate AnyDown(services: Ordered.Dict<string, string>, n: nat)
    requires n <= |services|
  {
    exists j :: 0 <= j < n && Level(services[j].1) > 0
  }

  lemma AnyDownStep(services: Ordered.Dict<string, string>, i: nat)
    requires i < |services|
    ensures AnyDown(services, i + 1) <==> AnyDown(services, i) || Level(services[i].1) > 0
  {
    if AnyDown(services, i + 1) && Level(services[i].1) <= 0 {
      var j :| 0 <= j < i + 1 && Level(services[j].1) > 0;
      assert j < i;
    }
  }

  /** `Servers.run`: a mention of the author, and a status embed with one field per service in
      order, coloured by the worst state seen. */
  method Servers(authorId: string, online: bool, message: string, services: Ordered.Dict<string, string>)
    returns (content: string, status: StatusEmbed)
    ensures content == "<@!" + authorId + ">"
    ensures fresh(status.embed)
    ensures status.embed.title
        == if online then "Fortnite servers are online" else "Fortnite servers are down"
    ensures status.embed.description == if online then "_ _" else message
    ensures status.embed.color == FinalColor(if online then Green else Red, Values(services))
    ensures |status.embed.fields| == |services|
    ensures forall i :: 0 <= i < |services| ==>
      status.embed.fields[i] == Embeds.Field(services[i].0, Display(services[i].1))
    ensures status.embed.footer == CrossMark
        <==> !online || exists i :: 0 <= i < |services| && Level(services[i].1) > 0
  {
    content := "<@!" + authorId + ">";
    status := new StatusEmbed(online, message);
    ghost var fs := ServiceFields(services);
    var i := 0;
    while i < |services|
      invariant 0 <= i <= |services|
      invariant status.embed.fields == fs[..i]
      invariant status.embed.title
          == if online then "Fortnite servers are online" else "Fortnite servers are down"
      invariant status.embed.description == if online then "_ _" else message
      invariant status.embed.color == FinalColor(if online then Green else Red, Values(services)[..i])
      invariant status.embed.footer == CrossMark <==> !online || AnyDown(services, i)
      invariant status.embed.footer == CrossMark || status.embed.footer == CheckMark
    {
      FinalColorStep(if online then Green else Red, Values(services), i);
      AnyDownStep(services, i);
      FieldsPrefix(fs, i);
      status.AddService(services[i].0, services[i].1);
      i := i + 1;
    }
    assert Values(services)[..i] == Values(services);
    assert fs[..i] == fs;
  }

  // ---------------------------------------------------------------------------
  // Patch notes

  /** The pieces the chunking loop cuts a value into: 1024 characters at a time. */
  function Chunks(s: string): seq<string>
    decreases |s|
  {
    if s == "" then [] else [Text.Take(s, 1024)] + Chunks(s[|Text.Take(s, 1024)|..])
  }

  function Concat(parts: seq<string>): string
  {
    if parts == [] then "" else parts[0] + Concat(parts[1..])
  }

  /** The chunks concatenate back to the value, each holds at most 1024 characters, and all but
      the last hold exactly 1024. */
  lemma {:induction false} ChunksProperties(s: string)
    ensures Concat(Chunks(s)) == s
    ensures |Chunks(s)| == (|s| + 1023) / 1024
    ensures forall i :: 0 <= i < |Chunks(s)| ==> 0 < |Chunks(s)[i]| <= 1024
    ensures forall i :: 0 <= i < |Chunks(s)| - 1 ==> |Chunks(s)[i]| == 1024
    decreases |s|
  {
    if s != "" {
      var head := Text.Take(s, 1024);
      var rest := s[|head|..];
      ChunksProperties(rest);
      var cs := Chunks(s);
      assert cs == [head] + Chunks(rest);
      assert cs[1..] == Chunks(rest);
      assert s == head + rest;
      forall i | 0 <= i < |cs| ensures 0 < |cs[i]| <= 1024 {
        if i > 0 { assert cs[i] == Chunks(rest)[i - 1]; }
      }
      forall i | 0 <= i < |cs| - 1 ensures |cs[i]| == 1024 {
        if i > 0 { assert cs[i] == Chunks(rest)[i - 1]; }
        else { assert |s| > 1024 || rest == ""; }
      }
    }
  }

  /** The field name of chunk `i`: the title cut to 256 characters, then to 244 with
      " (continued)" after it. */
  function ChunkName(title: string, i: nat): (n: string)
    ensures |n| <= 256
  {
    if i == 0 then Text.Take(title, 256) else Text.Take(title, 256 - 12) + " (continued)"
  }

  /** One field per chunk, named by `ChunkName`. */
  function ChunkFields(title: string, value: string): (fs: seq<Embeds.Field>)
    ensures |fs| == |Chunks(value)|
    ensures forall k :: 0 <= k < |fs| ==> fs[k] == Embeds.Field(ChunkName(title, k), Chunks(value)[k])
  {
    var cs := Chunks(value);
    seq(|cs|, k requires 0 <= k < |cs| => Embeds.Field(ChunkName(title, k), cs[k]))
  }

  /** The fields a patch-note detail produces: '[NOT SET]' for a blank value, the chunks for a
      value over 1024 characters, the value itself otherwise. */
  function DetailFieldsOf(title: string, value: string): seq<Embeds.Field>
  {
    if Text.Strip(value) == "" then [Embeds.Field(Text.Take(title, 256), "[NOT SET]")]
    else if |value| > 1024 then ChunkFields(title, value)
    else [Embeds.Field(Text.Take(title, 256), value)]
  }

  function FieldValues(fs: seq<Embeds.Field>): (vs: seq<string>)
    ensures |vs| == |fs| && forall i :: 0 <= i < |fs| ==> vs[i] == fs[i].value
  {
    seq(|fs|, i requires 0 <= i < |fs| => fs[i].value)
  }

  /** What the detail fields promise: a blank value gives one '[NOT SET]' field; a short value one
      unchanged field; a long value fields whose values concatenate back to it, at most 1024
      characters each and exactly 1024 but for the last; every name at most 256 characters. */
  lemma DetailFieldsProperties(title: string, value: string)
    ensures Text.IsBlank(value) ==> DetailFieldsOf(title, value) == [Embeds.Field(Text.Take(title, 256), "[NOT SET]")]
    ensures !Text.IsBlank(value) && |value| <= 1024 ==> DetailFieldsOf(title, value) == [Embeds.Field(Text.Take(title, 256), value)]
    ensures !Text.IsBlank(value) ==> Concat(FieldValues(DetailFieldsOf(title, value))) == value
    ensures forall i :: 0 <= i < |DetailFieldsOf(title, value)| ==>
      |DetailFieldsOf(title, value)[i].value| <= 1024 && |DetailFieldsOf(title, value)[i].name| <= 256
    ensures !Text.IsBlank(value) && |value| > 1024 ==>
      forall i :: 0 <= i < |DetailFieldsOf(title, value)| - 1 ==> |DetailFieldsOf(title, value)[i].value| == 1024
  {
    Text.StripEmptyIffBlank(value);
    var fs := DetailFieldsOf(title, value);
    if !Text.IsBlank(value) && |value| > 1024 {
      ChunksProperties(value);
      assert FieldValues(fs) == Chunks(value);
    } else if !Text.IsBlank(value) {
      assert FieldValues(fs) == [value];
      assert Concat([value]) == value + Concat([]);
    }
  }

  /** What is left of `value` after `i` chunks have been cut off. */
  function RestAfter(value: string, i: nat): string
  {
    var cut := if i * 1024 < |value| then i * 1024 else |value|;
    value[cut..]
  }

  /** One turn of the chunking loop: the next chunk is the first 1024 characters of what is left. */
  lemma {:induction false} ChunkStep(value: string, i: nat)
    requires RestAfter(value, i) != "" && i <= |Chunks(value)|
    requires Chunks(value) == Chunks(value)[..i] + Chunks(RestAfter(value, i))
    ensures i < |Chunks(value)| && Chunks(value)[i] == Text.Take(RestAfter(value, i), 1024)
    ensures RestAfter(value, i + 1) == RestAfter(value, i)[|Text.Take(RestAfter(value, i), 1024)|..]
    ensures Chunks(value) == Chunks(value)[..i + 1] + Chunks(RestAfter(value, i + 1))
  {
    var rest := RestAfter(value, i);
    var v := Text.Take(rest, 1024);
    assert Chunks(rest) == [v] + Chunks(rest[|v|..]);
    assert Chunks(value)[i] == v;
    assert Chunks(value)[..i + 1] == Chunks(value)[..i] + [v];
  }

  /** The chunking loop of `PatchNotesEmbed`: the value is consumed 1024 characters at a time,
      the title renamed after the first field. */
  method AddChunks(e: Embeds.Embed, title: string, value: string)
    modifies e
    ensures e.fields == old(e.fields) + ChunkFields(title, value)
    ensures e.title == old(e.title) && e.description == old(e.description)
    ensures e.color == old(e.color) && e.footer == old(e.footer)
  {
    ghost var start := e.fields;
    var name := title;
    var rest := value;
    ghost var i := 0;
    while rest != ""
      invariant i <= |Chunks(value)| && rest == RestAfter(value, i)
      invariant Chunks(value) == Chunks(value)[..i] + Chunks(rest)
      invariant e.fields == start + ChunkFields(title, value)[..i]
      invariant Text.Take(name, 256) == ChunkName(title, i)
      invariant e.title == old(e.title) && e.description == old(e.description)
      invariant e.color == old(e.color) && e.footer == old(e.footer)
      decreases |rest|
    {
      ChunkStep(value, i);
      var v := Text.Take(rest, 1024);
      rest := rest[|v|..];
      e.AddField(Text.Take(name, 256), v);
      name := Text.Take(title, 256 - 12) + " (continued)";
      ghost var fs := ChunkFields(title, value);
      assert i < |fs|;
      FieldsPrefix(fs, i);
      FieldsAppend(start, fs[..i], [fs[i]]);
      i := i + 1;
    }
    assert Chunks(value)[..i] == Chunks(value);
    assert ChunkFields(title, value)[..i] == ChunkFields(title, value);
  }

  /** One detail of `PatchNotesEmbed`. */
  method AddDetail(e: Embeds.Embed, title: string, value: string)
    modifies e
    ensures e.fields == old(e.fields) + DetailFieldsOf(title, value)
    ensures e.title == old(e.title) && e.description == old(e.description)
    ensures e.color == old(e.color) && e.footer == old(e.footer)
  {
    if Text.Strip(value) == "" {
      e.AddField(Text.Take(title, 256), "[NOT SET]");
    } else if |value| > 1024 {
      AddChunks(e, title, value);
    } else {
      e.AddField(Text.Take(title, 256), value);
    }
  }

  datatype Detail = Detail(title: string, value: string)
  datatype Simple = Simple(description: string, extra: seq<Embeds.Field>, video: Option<string>)
  datatype Note = Note(short: string, title: string, author: string, url: string, image: string,
                       detailed: Option<seq<Detail>>, simple: Option<Simple>)

  function AllDetailFields(ds: seq<Detail>): seq<Embeds.Field>
  {
    if ds == [] then [] else AllDetailFields(ds[..|ds| - 1]) + DetailFieldsOf(ds[|ds| - 1].title, ds[|ds| - 1].value)
  }

  lemma FieldsAppend(a: seq<Embeds.Field>, b: seq<Embeds.Field>, c: seq<Embeds.Field>)
    ensures a + b + c == a + (b + c)
  {
  }

  lemma FieldsPrefix(fs: seq<Embeds.Field>, i: nat)
    requires i < |fs|
    ensures fs[..i + 1] == fs[..i] + [fs[i]]
  {
  }

  lemma AllDetailFieldsStep(ds: seq<Detail>, i: nat)
    requires i < |ds|
    ensures AllDetailFields(ds[..i + 1]) == AllDetailFields(ds[..i]) + DetailFieldsOf(ds[i].title, ds[i].value)
  {
    assert ds[..i + 1][..i] == ds[..i];
  }

  /** The detail loop of `PatchNotesEmbed`: the fields of every detail, in order. */
  method AddDetails(e: Embeds.Embed, ds: seq<Detail>)
    modifies e
    ensures e.fields == old(e.fields) + AllDetailFields(ds)
    ensures e.title == old(e.title) && e.description == old(e.description)
    ensures e.color == old(e.color) && e.footer == old(e.footer)
  {
    ghost var before := e.fields;
    var i := 0;
    while i < |ds|
      invariant 0 <= i <= |ds|
      invariant e.fields == before + AllDetailFields(ds[..i])
      invariant e.title == old(e.title) && e.description == old(e.description)
      invariant e.color == old(e.color) && e.footer == old(e.footer)
    {
      AllDetailFieldsStep(ds, i);
      ghost var done := AllDetailFields(ds[..i]);
      ghost var next := DetailFieldsOf(ds[i].title, ds[i].value);
      AddDetail(e, ds[i].title, ds[i].value);
      FieldsAppend(before, done, next);
      i := i + 1;
    }
    assert ds[..i] == ds;
  }

  /** The extra loop of `PatchNotesEmbed`: the simple notes' fields as they are. */
  method AddExtras(e: Embeds.Embed, extra: seq<Embeds.Field>)
    modifies e
    ensures e.fields == old(e.fields) + extra
    ensures e.title == old(e.title) && e.description == old(e.description)
    ensures e.color == old(e.color) && e.footer == old(e.footer)
  {
    ghost var before := e.fields;
    var i := 0;
    while i < |extra|
      invariant 0 <= i <= |extra|
      invariant e.fields == before + extra[..i]
      invariant e.title == old(e.title) && e.description == old(e.description)
      invariant e.color == old(e.color) && e.footer == old(e.footer)
    {
      e.AddField(extra[i].name, extra[i].value);
      assert extra[..i + 1] == extra[..i] + [extra[i]];
      i := i + 1;
    }
    assert extra[..i] == extra;
  }

  /** `PatchNotesEmbed(note)`: the detail fields in order, then the simple notes' extra fields;
      the simple notes' description replaces the short one. */
  method PatchNotesEmbed(note: Note) returns (e: Embeds.Embed)
    ensures fresh(e) && e.color == Purple && e.footer == note.author
    ensures e.description == if note.simple.Some? then note.simple.value.description else note.short
    ensures e.fields == (if note.detailed.Some? then AllDetailFields(note.detailed.value) else [])
                        + (if note.simple.Some? then note.simple.value.extra else [])
  {
    e := new Embeds.Embed("", note.short, Purple);
    e.SetFooter(note.author);
    ghost var details: seq<Embeds.Field> := [];
    if note.detailed.Some? {
      details := AllDetailFields(note.detailed.value);
      AddDetails(e, note.detailed.value);
    }
    assert e.fields == details && e.footer == note.author && e.color == Purple;
    if note.simple.Some? {
      e.description := note.simple.value.description;
      AddExtras(e, note.simple.value.extra);
    } else {
      assert e.fields == details + [];
    }
  }

  // ---------------------------------------------------------------------------
  // Shop

  /** Where the shop picture comes from: the cached file for the shop's date, or a new one
      generated with the server's backgrounds. */
  datatype ShopFile = CachedFile | GeneratedFile(backgrounds: Value)

  /** The cached picture is stale once more than a day has passed since the shop's date. */
  const Day := 60 * 60 * 24

  class ShopCommand {
    var content: string
    var file: Option<ShopFile>
    var typing: bool
    var latestShop: Option<ShopFile>

    constructor ()
      ensures content == "" && file == None && !typing && latestShop == None
    {
      content := "";
      file := None;
      typing := false;
      latestShop := None;
    }

    /** `Shop.run` after the API answered with `status`: on 200 (compared with Python's `==`) the
        picture is regenerated iff now is past the shop time plus a day or the cached file is
        missing, using the server's `backgrounds` (absent backgrounds leave the name unbound and
        the run ends with "Error generating image"); otherwise the error message, and the stored
        latest picture when there is one. `reset()` clears the reply first. */
    method Run(status: Value, shopTime: int, now: int, cachedExists: bool,
               serverSettings: Option<map<string, Value>>, storedShop: Option<ShopFile>)
      modifies this
      ensures !PyEq(status, Int(200)) ==>
        content == "Sorry there was an api error: " + Json.Show(status) + ". All data from <https://fnbr.co>"
        && file == storedShop && !typing && latestShop == old(latestShop)
      ensures PyEq(status, Int(200)) && !(now > shopTime + Day || !cachedExists) ==>
        content == "data from <https://fnbr.co>" && file == Some(CachedFile) && typing
        && latestShop == Some(CachedFile)
      ensures PyEq(status, Int(200)) && (now > shopTime + Day || !cachedExists) ==>
        if serverSettings.Some? && "backgrounds" in serverSettings.value then
          var f := GeneratedFile(serverSettings.value["backgrounds"]);
          content == "data from <https://fnbr.co>" && file == Some(f) && typing && latestShop == Some(f)
        else
          content == "Error generating image" && file == None && !typing && latestShop == old(latestShop)
    {
      content := "";
      file := None;
      typing := false;
      if PyEq(status, Int(200)) {
        var f: ShopFile;
        if now > shopTime + Day || !cachedExists {
          if serverSettings.None? || "backgrounds" !in serverSettings.value {
            content := "Error generating image";
            return;
          }
          f := GeneratedFile(serverSettings.value["backgrounds"]);
        } else {
          f := CachedFile;
        }
        typing := true;
        file := Some(f);
        content := "data from <https://fnbr.co>";
        latestShop := Some(f);
      } else {
        content := "Sorry there was an api error: " + Json.Show(status) + ". All data from <https://fnbr.co>";
        file := storedShop;
      }
    }
  }

  // ---------------------------------------------------------------------------
  // Argument parsing

  /** `Stats.run`: the player name is the second word (default ''), the platform the third
      (default 'pc'). */
  function StatsArgs(content: string): (r: (string, string))
    ensures var words := Text.Split(content, ' ');
      (|words| > 1 ==> r.0 == words[1]) && (|words| <= 1 ==> r.0 == "")
      && (|words| > 2 ==> r.1 == words[2]) && (|words| <= 2 ==> r.1 == "pc")
  {
    var name := match Text.Token(content, 1) case Some(w) => w case None => "";
    var platform := match Text.Token(content, 2) case Some(w) => w case None => "pc";
    (name, platform)
  }

  /** `SetBackgrounds.run`: every word after the command, none when there is only the command. */
  function Backgrounds(content: string): seq<string>
  {
    var urls := Text.Split(content, ' ');
    if |urls| < 2 then [] else urls[1..]
  }

  /** The length guard is redundant: the backgrounds are always the words after the first, and
      joining the command word and them back with spaces gives the message. */
  lemma BackgroundsAfterFirstWord(content: string)
    ensures Backgrounds(content) == Text.Split(content, ' ')[1..]
    ensures Text.Join([Text.Split(content, ' ')[0]] + Backgrounds(content), " ") == content
  {
    var words := Text.Split(content, ' ');
    assert words == [words[0]] + words[1..];
    Text.JoinSplit(content, ' ');
  }

  /** `PatchNotes.run`: detailed notes iff the second word is 'd' or 'detail' in any letter case. */
  function Detailed(content: string): (d: bool)
    ensures d <==> Text.Token(content, 1).Some?
                   && (Text.Lower(Text.Token(content, 1).value) == "d" || Text.Lower(Text.Token(content, 1).value) == "detail")
  {
    var arg := match Text.Token(content, 1) case Some(w) => Text.Lower(w) case None => "";
    arg == "d" || arg == "detail"
  }
}
