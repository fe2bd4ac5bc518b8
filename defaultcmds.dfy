/** The default module's server-administration commands: binding command types to channels,
    resetting and listing those bindings, parsing a new command prefix, and the regional-indicator
    flags of the language picker. The localised replies are kept opaque: a reply is the message key
    with the values formatted into it. */
module DefaultCommands {
  import opened Wrappers
  import Text
  import Embeds
  import Json

  /** The localised replies these commands send. */
  datatype Reply =
    | SetChannelSuccess(author: string, channel: string, channelType: string)
    | SetChannelError(author: string, types: string)
    | ResetChannelsAll(author: string)
    | ResetChannelsSuccess(author: string, channelType: string)
    | ResetChannelsError(author: string)
    | SetPrefixInvalid(author: string)

  /** `command.split(" ")[1].lower()`, or None where Python raises IndexError. */
  function Argument(command: string): (r: Option<string>)
    ensures r.Some? <==> |Text.Split(command, ' ')| > 1
    ensures r.Some? ==> r.value == Text.Lower(Text.Split(command, ' ')[1]) && ' ' !in r.value
  {
    match Text.Token(command, 1)
    case Some(w) => Some(Text.Lower(w))
    case None => None
  }

  // ---------------------------------------------------------------------------
  // typestring

  function Backticked(types: seq<string>): (r: seq<string>)
    ensures |r| == |types| && forall i :: 0 <= i < |types| ==> r[i] == "`" + types[i] + "`"
  {
    seq(|types|, i requires 0 <= i < |types| => "`" + types[i] + "`")
  }

  /** The type list of the replies: every type in backticks, separated by ', '. */
  function TypeList(types: seq<string>): string
  {
    Text.Join(Backticked(types), ", ")
  }

  /** `typestring`: one backticked type after another, with ', ' after all but the last. */
  method TypeString(types: seq<string>) returns (msg: string)
    ensures msg == TypeList(types)
  {
    msg := "";
    for i := 0 to |types|
      invariant msg == Text.Join(Backticked(types[..i]), ", ") + (if 0 < i < |types| then ", " else "")
    {
      var piece := "`" + types[i] + "`";
      ghost var done := Backticked(types[..i]);
      assert Backticked(types[..i + 1]) == done + [piece];
      assert done == [] <==> i == 0;
      Text.JoinSnoc(done, piece, ", ");
      msg := msg + piece;
      assert msg == Text.Join(Backticked(types[..i + 1]), ", ");
      if i < |types| - 1 {
        msg := msg + ", ";
      }
    }
    assert types[..|types|] == types;
  }

  /** The type list is empty exactly when there are no types; otherwise it starts and ends with a
      backtick, so there is no separator before the first type or after the last. */
  lemma TypeListShape(types: seq<string>)
    ensures TypeList(types) == "" <==> types == []
    ensures types != [] ==> TypeList(types)[0] == '`' && TypeList(types)[|TypeList(types)| - 1] == '`'
  {
    if types != [] {
      JoinEnds(Backticked(types), ", ");
    }
  }

  /** A join of non-empty parts starts with the first part's first character and ends with the
      last part's last character. */
  lemma {:induction false} JoinEnds(parts: seq<string>, sep: string)
    requires parts != [] && forall i :: 0 <= i < |parts| ==> parts[i] != ""
    ensures var j := Text.Join(parts, sep);
      j != "" && j[0] == parts[0][0] && j[|j| - 1] == parts[|parts| - 1][|parts[|parts| - 1]| - 1]
  {
    if |parts| > 1 {
      JoinEnds(parts[1..], sep);
      assert parts[1..][|parts| - 2] == parts[|parts| - 1];
    }
  }

  // ---------------------------------------------------------------------------
  // setchannel

  /** The argument of `setchannel`: the lower-cased second word, or '' when there is none. */
  function ChannelType(command: string): string
  {
    match Argument(command) case Some(t) => t case None => ""
  }

  class SetChannel {
    const types: seq<string>
    const description: string
    /** `settings['channels']`: command type to channel id. */
    var channels: map<string, string>
    var content: Option<Reply>

    constructor (types: seq<string>)
      ensures this.types == types && channels == map[] && content == None
      ensures description == "Set the channel to a command type. `{prefix}setchannel [arg]`.[arg] must be one of "
                             + TypeList(types) + " or `all`"
    {
      this.types := types;
      var typemsg := TypeString(types);
      description := "Set the channel to a command type. `{prefix}setchannel [arg]`.[arg] must be one of "
                     + typemsg + " or `all`";
      channels := map[];
      content := None;
    }

    /** `run`: 'all' binds every type to the current channel; any other argument binds only the
        type equal to it. The success reply is sent exactly when the argument is 'all' or a known
        type; otherwise the error reply lists the types. */
    method Run(command: string, channelId: string, author: string)
      modifies this
      ensures var t := ChannelType(command);
        (forall k :: k in channels <==> if t == "all" then k in types else k == t && t in types)
        && (forall k :: k in channels ==> channels[k] == channelId)
        && content == Some(if t == "all" || t in types then SetChannelSuccess(author, channelId, t)
                           else SetChannelError(author, TypeList(types)))
    {
      var t := ChannelType(command);
      var success := false;
      channels := map[];
      if t == "all" {
        for i := 0 to |types|
          invariant forall k :: k in channels <==> k in types[..i]
          invariant forall k :: k in channels ==> channels[k] == channelId
        {
          assert types[..i + 1] == types[..i] + [types[i]];
          channels := channels[types[i] := channelId];
        }
        assert types[..|types|] == types;
        success := true;
      } else {
        for i := 0 to |types|
          invariant forall k :: k in channels <==> k == t && t in types[..i]
          invariant forall k :: k in channels ==> channels[k] == channelId
          invariant success <==> t in types[..i]
        {
          assert types[..i + 1] == types[..i] + [types[i]];
          if t == types[i] {
            channels := channels[types[i] := channelId];
            success := true;
          }
        }
        assert types[..|types|] == types;
      }
      if success {
        content := Some(SetChannelSuccess(author, channelId, t));
      } else {
        var typemsg := TypeString(types);
        content := Some(SetChannelError(author, typemsg));
      }
    }
  }

  // ---------------------------------------------------------------------------
  // resetchannels

  class ResetChannels {
    const types: seq<string>
    /** `settings['channels']` (None until a run sets it): type to channel id, None once reset. */
    var channels: Option<map<string, Option<string>>>
    var content: Option<Reply>

    constructor (types: seq<string>)
      ensures this.types == types && channels == None && content == None
    {
      this.types := types;
      channels := None;
      content := None;
    }

    /** `run`: without an argument every type is reset; a known type resets only that type; an
        unknown one leaves the settings as they were and sends the error reply. */
    method Run(command: string, author: string)
      modifies this
      ensures Argument(command).None? ==>
        channels.Some? && (forall k :: k in channels.value <==> k in types)
        && (forall k :: k in channels.value ==> channels.value[k] == None)
        && content == Some(ResetChannelsAll(author))
      ensures Argument(command).Some? && Argument(command).value in types ==>
        channels == Some(map[Argument(command).value := None])
        && content == Some(ResetChannelsSuccess(author, Argument(command).value))
      ensures Argument(command).Some? && Argument(command).value !in types ==>
        channels == old(channels) && content == Some(ResetChannelsError(author))
    {
      var t := Argument(command);
      if t.None? {
        var reset: map<string, Option<string>> := map[];
        for i := 0 to |types|
          invariant forall k :: k in reset <==> k in types[..i]
          invariant forall k :: k in reset ==> reset[k] == None
        {
          assert types[..i + 1] == types[..i] + [types[i]];
          reset := reset[types[i] := None];
        }
        assert types[..|types|] == types;
        channels := Some(reset);
        content := Some(ResetChannelsAll(author));
      } else if t.value in types {
        channels := Some(map[t.value := None]);
        content := Some(ResetChannelsSuccess(author, t.value));
      } else {
        content := Some(ResetChannelsError(author));
      }
    }
  }

  // ---------------------------------------------------------------------------
  // channels

  /** The settings `Channels.run` reads: the server name (None when absent; it may be any
      value, `None` included) and the channel bindings. */
  datatype ServerSettings = ServerSettings(serverName: Option<Json.Value>, channels: Option<map<string, Option<string>>>)

  /** The field value of one type: a channel mention, or 'Not set' when the type is unbound. */
  function ChannelValue(channels: map<string, Option<string>>, t: string): (v: string)
    ensures v == "Not set" <==> t !in channels || channels[t].None?
    ensures t in channels && channels[t].Some? ==> v == "<#" + channels[t].value + ">"
  {
    if t in channels && channels[t].Some? then
      var mention := "<#" + channels[t].value + ">";
      assert mention[0] != "Not set"[0];
      mention
    else "Not set"
  }

  class Channels {
    const types: seq<string>
    var embed: Embeds.Embed?

    constructor (types: seq<string>)
      ensures this.types == types && embed == null
    {
      this.types := types;
      embed := null;
    }

    /** `run`: an embed titled after the server with one field per type, in order. The bindings
        are looked up once there is a type, so a server with no bindings raises KeyError then. */
    method Run(settings: ServerSettings, iconUrl: string) returns (error: Option<PyError>)
      modifies this
      ensures embed != null && fresh(embed)
      ensures embed.title == (match settings.serverName case Some(n) => Json.Show(n) case None => "") + "'s channels"
      ensures embed.thumbnail == Some(iconUrl)
      ensures error.Some? <==> types != [] && settings.channels.None?
      ensures error.Some? ==> error == Some(KeyError("channels")) && embed.fields == []
      ensures error.None? ==> |embed.fields| == |types|
      ensures error.None? ==>
        forall i :: 0 <= i < |types| ==>
             embed.fields[i].name == types[i]
             && embed.fields[i].value == ChannelValue(settings.channels.value, types[i])
    {
      var name := match settings.serverName case Some(n) => Json.Show(n) case None => "";
      var e := new Embeds.Embed(name + "'s channels", "", 0);
      e.SetThumbnail(iconUrl);
      embed := e;
      error := None;
      if types != [] && settings.channels.None? {
        return Some(KeyError("channels"));
      }
      for i := 0 to |types|
        invariant embed == e
        invariant |e.fields| == i && e.title == name + "'s channels" && e.thumbnail == Some(iconUrl)
        invariant forall j :: 0 <= j < i ==>
          e.fields[j].name == types[j] && e.fields[j].value == ChannelValue(settings.channels.value, types[j])
      {
        e.AddField(types[i], ChannelValue(settings.channels.value, types[i]));
      }
    }
  }

  // ---------------------------------------------------------------------------
  // setprefix

  lemma {:induction false} CountPositive(s: string, c: char)
    ensures Text.Count(s, c) > 0 <==> c in s
  {
    if s != [] {
      CountPositive(s[1..], c);
      assert s == [s[0]] + s[1..];
    }
  }

  /** With two or more `c` in `s`, another `c` follows the first. */
  lemma {:induction false} SecondOccurrence(s: string, c: char)
    requires Text.Count(s, c) > 1
    ensures c in s && c in s[Text.IndexOf(s, c) + 1..]
  {
    CountPositive(s, c);
    if s[0] == c {
      CountPositive(s[1..], c);
    } else {
      SecondOccurrence(s[1..], c);
      assert s[Text.IndexOf(s, c) + 1..] == s[1..][Text.IndexOf(s[1..], c) + 1..];
    }
  }

  /** The prefix `setprefix` asks to confirm: with two or more '"' the text between the first
      two of them; otherwise the second word, or '' when there is none. */
  function PrefixOf(command: string): (p: string)
    ensures Text.Count(command, '"') <= 1 ==>
      p == if |Text.Split(command, ' ')| > 1 then Text.Split(command, ' ')[1] else ""
  {
    if Text.Count(command, '"') > 1 then
      SecondOccurrence(command, '"');
      var rest := command[Text.IndexOf(command, '"') + 1..];
      rest[..Text.IndexOf(rest, '"')]
    else
      match Text.Token(command, 1) case Some(w) => w case None => ""
  }

  /** A quoted prefix is exactly what sits between the first two quotes, spaces included: the
      command is the text before the first quote, a quote, the prefix and another quote, then the
      rest. */
  lemma PrefixBetweenQuotes(command: string)
    requires Text.Count(command, '"') > 1
    ensures var p := PrefixOf(command);
      var a := Text.IndexOf(command, '"');
      '"' !in command[..a] && '"' !in p && a + |p| + 2 <= |command|
      && command == command[..a] + "\"" + p + "\"" + command[a + |p| + 2..]
  {
    SecondOccurrence(command, '"');
    var a := Text.IndexOf(command, '"');
    var rest := command[a + 1..];
    var b := Text.IndexOf(rest, '"');
    assert PrefixOf(command) == rest[..b];
    CutTwice(command, a, b);
  }

  lemma CutTwice(s: string, a: nat, b: nat)
    requires a + b + 2 <= |s|
    ensures s == s[..a] + [s[a]] + s[a + 1..][..b] + [s[a + b + 1]] + s[a + b + 2..]
  {
    assert s[a + 1..][..b] == s[a + 1..a + b + 1];
  }

  /** What the prefix command leaves behind: a confirmation modal holding the prefix, which only
      the author can answer. */
  datatype Modal = AcceptModal(prefix: string, only: string)

  class SetPrefix {
    var content: Option<Reply>
    var custom: Option<Modal>

    constructor ()
      ensures content == None && custom == None
    {
      content := None;
      custom := None;
    }

    /** `run`: a non-empty prefix opens the confirmation modal; an empty one sends the invalid
        reply and opens nothing. */
    method Run(command: string, author: string)
      modifies this
      ensures PrefixOf(command) != "" ==> custom == Some(AcceptModal(PrefixOf(command), author)) && content == None
      ensures PrefixOf(command) == "" ==> custom == None && content == Some(SetPrefixInvalid(author))
    {
      content := None;
      custom := None;
      var prefix := PrefixOf(command);
      if prefix != "" {
        custom := Some(AcceptModal(prefix, author));
      } else {
        content := Some(SetPrefixInvalid(author));
      }
    }
  }

  // ---------------------------------------------------------------------------
  // setlocale flags

  /** The distance from an ASCII capital to its regional indicator symbol. */
  const FlagOffset := 127397

  /** The regional indicator of one character, or None where `chr` would raise ValueError. */
  function Shifted(c: char): (r: Option<char>)
    ensures r.Some? <==> c as int + FlagOffset <= 0x10FFFF
    ensures r.Some? ==> r.value as int == c as int + FlagOffset
  {
    if c as int + FlagOffset <= 0x10FFFF then Some((c as int + FlagOffset) as char) else None
  }

  /** The flag of an upper-cased country code: every character shifted in turn. */
  function FlagOf(code: string): Result<string>
  {
    if code == [] then Ok("")
    else
      var init :- FlagOf(code[..|code| - 1]);
      match Shifted(code[|code| - 1])
      case Some(f) => Ok(init + [f])
      case None => Err(ValueError)
  }

  /** `getFlag(country)`: the country upper-cased, then each character moved to its regional
      indicator. */
  method GetFlag(country: string) returns (r: Result<string>)
    ensures r == FlagOf(Text.Upper(country))
  {
    var code := Text.Upper(country);
    var flag := "";
    for i := 0 to |code|
      invariant FlagOf(code[..i]) == Ok(flag)
    {
      assert code[..i + 1][..i] == code[..i];
      var f := Shifted(code[i]);
      if f.None? {
        assert FlagOf(code[..i + 1]) == Err(ValueError);
        FlagErrorStays(code, i + 1);
        return Err(ValueError);
      }
      flag := flag + [f.value];
    }
    assert code[..|code|] == code;
    r := Ok(flag);
  }

  lemma {:induction false} FlagErrorStays(code: string, i: nat)
    requires i <= |code| && FlagOf(code[..i]).Err?
    ensures FlagOf(code) == Err(ValueError)
    decreases |code| - i
  {
    if i == |code| {
      assert code[..i] == code;
      FlagErrorIsValue(code);
    } else {
      assert code[..i + 1][..i] == code[..i];
      FlagErrorStays(code, i + 1);
    }
  }

  lemma {:induction false} FlagErrorIsValue(code: string)
    ensures FlagOf(code).Err? ==> FlagOf(code) == Err(ValueError)
  {
    if code != [] {
      FlagErrorIsValue(code[..|code| - 1]);
    }
  }

  /** The flag has one character per character of the code, each the code's character moved up
      by the offset, so subtracting the offset gives the code back; it fails exactly when some
      character would pass the last code point. */
  lemma {:induction false} FlagShape(code: string)
    ensures FlagOf(code).Ok? <==> forall i :: 0 <= i < |code| ==> code[i] as int + FlagOffset <= 0x10FFFF
    ensures FlagOf(code).Ok? ==> |FlagOf(code).value| == |code|
    ensures FlagOf(code).Ok? ==>
      forall i :: 0 <= i < |code| ==> FlagOf(code).value[i] as int == code[i] as int + FlagOffset
  {
    if code != [] {
      var init := code[..|code| - 1];
      FlagShape(init);
      assert forall i :: 0 <= i < |init| ==> init[i] == code[i];
    }
  }

  /** A code of ASCII letters always has a flag, made of regional indicators A..Z
      (U+1F1E6..U+1F1FF), whatever the case of the letters. */
  lemma LettersMakeRegionalIndicators(country: string)
    requires forall i :: 0 <= i < |country| ==> 'a' <= country[i] <= 'z' || 'A' <= country[i] <= 'Z'
    ensures FlagOf(Text.Upper(country)).Ok?
    ensures var f := FlagOf(Text.Upper(country)).value;
      |f| == |country| && forall i :: 0 <= i < |f| ==> 0x1F1E6 <= f[i] as int <= 0x1F1FF
  {
    var code := Text.Upper(country);
    assert forall i :: 0 <= i < |code| ==> 'A' <= code[i] <= 'Z';
    FlagShape(code);
  }

  /** The language picker shows English under the British flag. */
  function CountryOf(lang: string): string
  {
    if lang == "en" then "GB" else lang
  }

  lemma EnglishFlag()
    ensures FlagOf(Text.Upper(CountryOf("en"))) == Ok("\U{1F1EC}\U{1F1E7}")
  {
    var code := Text.Upper(CountryOf("en"));
    assert code == "GB";
    FlagShape(code);
    var f := FlagOf(code).value;
    assert f[0] as int == 0x1F1EC && f[1] as int == 0x1F1E7;
    assert f == "\U{1F1EC}\U{1F1E7}";
  }

  /** One language of the picker. */
  datatype Locale = Locale(lang: string, name: string, nameEn: string, author: string)

  /** The field name of a language: its flag and name, with the English name after it when the
      two differ. */
  function LocaleTitle(flag: string, l: Locale): string
  {
    flag + " " + l.name + (if l.name != l.nameEn then " (" + l.nameEn + ")" else "")
  }

  /** The flag a language is shown under. */
  function FlagFor(l: Locale): Result<string>
  {
    FlagOf(Text.Upper(CountryOf(l.lang)))
  }

  /** The fields and the reaction map of the language picker for `ls`, built language by
      language; the first language without a flag stops it. `value` stands for the localised
      credit line of a translator. */
  function Picker(value: string -> string, ls: seq<Locale>): Result<(seq<Embeds.Field>, map<string, string>)>
  {
    if ls == [] then Ok(([], map[]))
    else
      var (fields, flags) :- Picker(value, ls[..|ls| - 1]);
      var l := ls[|ls| - 1];
      var f :- FlagFor(l);
      Ok((fields + [Embeds.Field(LocaleTitle(f, l), value(l.author))], flags[f := l.lang]))
  }

  /** The picker succeeds exactly when every language has a flag. */
  lemma {:induction false} PickerOk(value: string -> string, ls: seq<Locale>)
    ensures Picker(value, ls).Ok? <==> forall i :: 0 <= i < |ls| ==> FlagFor(ls[i]).Ok?
  {
    if ls != [] {
      var init := ls[..|ls| - 1];
      PickerOk(value, init);
      assert forall i :: 0 <= i < |init| ==> init[i] == ls[i];
    }
  }

  /** A successful picker holds one field per language, in order, each titled with that
      language's flag and names and holding its credit line; every flag is in the reaction map. */
  lemma {:induction false} PickerFields(value: string -> string, ls: seq<Locale>)
    requires Picker(value, ls).Ok?
    ensures var (fields, flags) := Picker(value, ls).value;
      |fields| == |ls|
      && forall i :: 0 <= i < |ls| ==>
           FlagFor(ls[i]).Ok?
           && fields[i] == Embeds.Field(LocaleTitle(FlagFor(ls[i]).value, ls[i]), value(ls[i].author))
           && FlagFor(ls[i]).value in flags
  {
    if ls != [] {
      var init := ls[..|ls| - 1];
      var l := ls[|ls| - 1];
      PickerFields(value, init);
      var (fields0, flags0) := Picker(value, init).value;
      var f := FlagFor(l).value;
      var fields := fields0 + [Embeds.Field(LocaleTitle(f, l), value(l.author))];
      var flags := flags0[f := l.lang];
      assert Picker(value, ls).value == (fields, flags);
      forall i | 0 <= i < |ls|
        ensures FlagFor(ls[i]).Ok? && FlagFor(ls[i]).value in flags
        ensures fields[i] == Embeds.Field(LocaleTitle(FlagFor(ls[i]).value, ls[i]), value(ls[i].author))
      {
        if i < |init| {
          assert init[i] == ls[i] && fields[i] == fields0[i];
        } else {
          assert ls[i] == l && FlagFor(l) == Ok(f);
        }
      }
    }
  }

  /** The reaction map sends each flag to a language that has that flag. */
  lemma {:induction false} PickerFlags(value: string -> string, ls: seq<Locale>)
    requires Picker(value, ls).Ok?
    ensures var flags := Picker(value, ls).value.1;
      forall g :: g in flags ==> exists i :: 0 <= i < |ls| && FlagFor(ls[i]) == Ok(g) && flags[g] == ls[i].lang
  {
    if ls != [] {
      var init := ls[..|ls| - 1];
      var l := ls[|ls| - 1];
      PickerFlags(value, init);
      var flags0 := Picker(value, init).value.1;
      var f := FlagFor(l).value;
      var flags := flags0[f := l.lang];
      assert Picker(value, ls).value.1 == flags;
      forall g | g in flags
        ensures exists i :: 0 <= i < |ls| && FlagFor(ls[i]) == Ok(g) && flags[g] == ls[i].lang
      {
        if g == f {
          assert FlagFor(ls[|ls| - 1]) == Ok(g) && flags[g] == ls[|ls| - 1].lang;
        } else {
          var i :| 0 <= i < |init| && FlagFor(init[i]) == Ok(g) && flags0[g] == init[i].lang;
          assert init[i] == ls[i];
          assert FlagFor(ls[i]) == Ok(g) && flags[g] == ls[i].lang;
        }
      }
    }
  }

  /** Once a prefix of the languages has failed, the whole picker fails the same way. */
  lemma {:induction false} PickerErrorStays(value: string -> string, ls: seq<Locale>, i: nat)
    requires i <= |ls| && Picker(value, ls[..i]).Err?
    ensures Picker(value, ls) == Picker(value, ls[..i])
    decreases |ls| - i
  {
    if i == |ls| {
      assert ls[..i] == ls;
    } else {
      assert ls[..i + 1][..i] == ls[..i];
      PickerErrorStays(value, ls, i + 1);
    }
  }

  /** A failing picker fails with the ValueError of `chr`. */
  lemma {:induction false} PickerErrorIsValue(value: string -> string, ls: seq<Locale>)
    ensures Picker(value, ls).Err? ==> Picker(value, ls) == Err(ValueError)
  {
    if ls != [] {
      PickerErrorIsValue(value, ls[..|ls| - 1]);
      FlagErrorIsValue(Text.Upper(CountryOf(ls[|ls| - 1].lang)));
    }
  }

  /** `LocaleEmbed(locale)`: the embed in the picker's colour holding the picker's fields, and the
      picker's reaction map. The localised texts are given: `title`, `desc`, and `value` for a
      translator's credit line. */
  method LocaleEmbed(title: string, desc: string, value: string -> string, locales: seq<Locale>)
    returns (e: Embeds.Embed, flags: map<string, string>, error: Option<PyError>)
    ensures fresh(e) && e.title == title && e.description == desc && e.color == 0x6ad2f7
    ensures error.None? <==> Picker(value, locales).Ok?
    ensures error.None? ==> e.fields == Picker(value, locales).value.0 && flags == Picker(value, locales).value.1
    ensures error.Some? ==> Picker(value, locales) == Err(error.value)
  {
    e := new Embeds.Embed(title, desc, 0x6ad2f7);
    flags := map[];
    error := None;
    for i := 0 to |locales|
      invariant e.title == title && e.description == desc && e.color == 0x6ad2f7
      invariant Picker(value, locales[..i]) == Ok((e.fields, flags))
    {
      var l := locales[i];
      assert locales[..i + 1][..i] == locales[..i];
      var r := GetFlag(CountryOf(l.lang));
      if r.Err? {
        assert Picker(value, locales[..i + 1]) == Err(r.error);
        PickerErrorStays(value, locales, i + 1);
        return e, flags, Some(r.error);
      }
      flags := flags[r.value := l.lang];
      e.AddField(LocaleTitle(r.value, l), value(l.author));
    }
    assert locales[..|locales|] == locales;
  }
}
