/** The help command: the flags and the category read from the message, and the help embed that
    lists the commands a member may use, one field per command, followed by the categories or a
    note that a category has no commands. */
module Help {
  import opened Wrappers
  import Text
  import Ordered
  import Embeds

  /** A command as the help reads it. */
  datatype Command = Command(name: string, description: string, permission: string, aliases: seq<string>)

  /** A module: its category (None for the default module), its description and its commands by
      key, in the order they were declared. */
  datatype Module = Module(category: Option<string>, description: string, commands: Ordered.Dict<string, Command>)

  const HelpColor := 0x2ede2e
  /** The bot's user id, written into the `<@{bot_id}>` aliases. */
  const BotId := "424265028267540490"
  const AliasIntro := " Aliases for this command are "
  const AdminHint := " Add `-u` to print non admin help as admin, add `-d` to never auto delete the help message. E.g. `{prefix}help-u-d` will print a help message for normal users that never gets deleted."

  // ---------------------------------------------------------------------------
  // Which commands are listed, and with which text

  /** A command is listed when it has a name and the reader is an admin or the command is not
      admin-only. */
  predicate Listed(cmd: Command, admin: bool)
  {
    cmd.name != "" && (admin || cmd.permission != "admin")
  }

  function DescriptionText(cmd: Command): string
  {
    if cmd.description != "" then cmd.description else "Description not set"
  }

  /** One alias with the prefix and the bot id filled in; a mention is shown as it is, anything
      else in backticks. */
  function FormatAlias(alias: string, prefix: string): string
  {
    var f := Text.FormatMap(alias, map["prefix" := prefix, "bot_id" := BotId]);
    if "<@" <= f then f else "`" + f + "`"
  }

  function FormattedAliases(aliases: seq<string>, prefix: string): (fs: seq<string>)
    ensures |fs| == |aliases| && forall i :: 0 <= i < |aliases| ==> fs[i] == FormatAlias(aliases[i], prefix)
  {
    seq(|aliases|, i requires 0 <= i < |aliases| => FormatAlias(aliases[i], prefix))
  }

  /** The alias loop: every formatted alias followed by ', ', then the trailing ', ' cut off, which
      leaves the aliases joined by ', ' after the introduction. */
  method AppendAliases(text: string, aliases: seq<string>, prefix: string) returns (r: string)
    ensures r == text + AliasIntro + Text.Join(FormattedAliases(aliases, prefix), ", ")
  {
    var pieces := AliasPieces(aliases, prefix);
    r := text + AliasIntro + pieces;
    ghost var body := text + AliasIntro + Text.Join(FormattedAliases(aliases, prefix), ", ");
    if |aliases| > 0 {
      assert r == body + ", ";
      assert r[..|r| - 2] == body && r[|r| - 2..] == ", ";
    } else {
      assert r == body && |AliasIntro| >= 2;
      assert r[|r| - 2..][0] == AliasIntro[|AliasIntro| - 2] == 'e';
    }
    if |r| >= 2 && r[|r| - 2..] == ", " {
      r := r[..|r| - 2];
    }
  }

  /** The pieces the alias loop appends: each formatted alias and ', '. */
  method AliasPieces(aliases: seq<string>, prefix: string) returns (r: string)
    ensures r == if aliases == [] then "" else Text.Join(FormattedAliases(aliases, prefix), ", ") + ", "
  {
    ghost var fs := FormattedAliases(aliases, prefix);
    r := "";
    for i := 0 to |aliases|
      invariant r == if i == 0 then "" else Text.Join(fs[..i], ", ") + ", "
    {
      var f := Text.FormatMap(aliases[i], map["prefix" := prefix, "bot_id" := BotId]);
      var piece := if "<@" <= f then f else "`" + f + "`";
      assert piece == fs[i];
      Text.TakeSnoc(fs, i);
      assert fs[..i] == [] <==> i == 0;
      Text.JoinSnoc(fs[..i], piece, ", ");
      r := r + piece;
      assert r == Text.Join(fs[..i + 1], ", ");
      r := r + ", ";
    }
    assert fs[..|aliases|] == fs;
  }

  /** The mention aliases of the help command come out as mentions of the bot, not in backticks. */
  lemma MentionAliases(prefix: string)
    ensures FormatAlias("<@{bot_id}>", prefix) == "<@" + BotId + ">"
    ensures FormatAlias("<@!{bot_id}>", prefix) == "<@!" + BotId + ">"
  {
    assert "<@{bot_id}>" == "<@" + "{" + "bot_id" + "}" + ">";
    MentionAlias("<@", prefix);
    assert "<@!{bot_id}>" == "<@!" + "{" + "bot_id" + "}" + ">";
    MentionAlias("<@!", prefix);
  }

  lemma MentionAlias(pre: string, prefix: string)
    requires "<@" <= pre && '{' !in pre && '}' !in pre
    ensures FormatAlias(pre + "{" + "bot_id" + "}" + ">", prefix) == pre + BotId + ">"
  {
    var m := map["prefix" := prefix, "bot_id" := BotId];
    Text.FormatMapName(pre, "bot_id", ">", m);
    assert (pre + BotId + ">")[..2] == pre[..2];
  }

  /** One command of a module in the requested category: a listed command sets its text; then,
      if the key has a text (set now or by an earlier module) and the command has aliases, they
      are appended. A command without a name changes nothing. */
  function AddCommand(acc: Ordered.Dict<string, string>, key: string, cmd: Command, admin: bool, prefix: string)
    : Ordered.Dict<string, string>
  {
    if cmd.name == "" then acc
    else
      var listed := if Listed(cmd, admin) then Ordered.Put(acc, key, DescriptionText(cmd)) else acc;
      match Ordered.Get(listed, key)
      case Some(d) =>
        if |cmd.aliases| > 0 then
          Ordered.Put(listed, key, d + AliasIntro + Text.Join(FormattedAliases(cmd.aliases, prefix), ", "))
        else listed
      case None => listed
  }

  function AddCommands(acc: Ordered.Dict<string, string>, cmds: Ordered.Dict<string, Command>, admin: bool, prefix: string)
    : Ordered.Dict<string, string>
  {
    if cmds == [] then acc
    else AddCommand(AddCommands(acc, cmds[..|cmds| - 1], admin, prefix), cmds[|cmds| - 1].0, cmds[|cmds| - 1].1, admin, prefix)
  }

  /** The `commands` dict of `generate`: the commands of every module in the category, in order. */
  function Collect(modules: seq<Module>, category: Option<string>, admin: bool, prefix: string)
    : Ordered.Dict<string, string>
  {
    if modules == [] then []
    else
      var acc := Collect(modules[..|modules| - 1], category, admin, prefix);
      var m := modules[|modules| - 1];
      if m.category == category then AddCommands(acc, m.commands, admin, prefix) else acc
  }

  /** Admins get a hint about the flags after the help command's own text. */
  function WithAdminHint(cmds: Ordered.Dict<string, string>, admin: bool): Ordered.Dict<string, string>
  {
    if admin && Ordered.Get(cmds, "help").Some? then Ordered.Put(cmds, "help", Ordered.Get(cmds, "help").value + AdminHint)
    else cmds
  }

  /** Module `m` offers a listed command under `key`. */
  predicate Offers(m: Module, admin: bool, key: string)
  {
    exists j :: 0 <= j < |m.commands| && m.commands[j].0 == key && Listed(m.commands[j].1, admin)
  }

  lemma AddCommandKeys(acc: Ordered.Dict<string, string>, key: string, cmd: Command, admin: bool, prefix: string)
    requires Ordered.DistinctKeys(acc)
    ensures var r := AddCommand(acc, key, cmd, admin, prefix);
      Ordered.DistinctKeys(r)
      && forall k :: k in Ordered.Keys(r) <==> k in Ordered.Keys(acc) || (k == key && Listed(cmd, admin))
  {
    if cmd.name != "" {
      var listed := if Listed(cmd, admin) then Ordered.Put(acc, key, DescriptionText(cmd)) else acc;
      if Listed(cmd, admin) {
        Ordered.PutGet(acc, key, DescriptionText(cmd), key);
        Ordered.PutKeys(acc, key, DescriptionText(cmd));
      }
      match Ordered.Get(listed, key)
      case Some(d) =>
        if |cmd.aliases| > 0 {
          var v := d + AliasIntro + Text.Join(FormattedAliases(cmd.aliases, prefix), ", ");
          Ordered.PutGet(listed, key, v, key);
          Ordered.PutKeys(listed, key, v);
          assert Ordered.Find(listed, key).Some?;
        }
      case None =>
    }
  }

  lemma {:induction false} AddCommandsKeys(acc: Ordered.Dict<string, string>, cmds: Ordered.Dict<string, Command>,
                                            admin: bool, prefix: string)
    requires Ordered.DistinctKeys(acc)
    ensures var r := AddCommands(acc, cmds, admin, prefix);
      Ordered.DistinctKeys(r)
      && forall k :: k in Ordered.Keys(r) <==>
           k in Ordered.Keys(acc) || exists j :: 0 <= j < |cmds| && cmds[j].0 == k && Listed(cmds[j].1, admin)
  {
    if cmds != [] {
      var init := cmds[..|cmds| - 1];
      AddCommandsKeys(acc, init, admin, prefix);
      AddCommandKeys(AddCommands(acc, init, admin, prefix), cmds[|cmds| - 1].0, cmds[|cmds| - 1].1, admin, prefix);
      assert forall j :: 0 <= j < |init| ==> init[j] == cmds[j];
    }
  }

  /** A key has a field exactly when some module of the requested category lists a command under
      it: a nameless command, or an admin-only one when the reader is no admin, is never listed on
      its own account. The keys are distinct. */
  lemma {:induction false} CollectKeys(modules: seq<Module>, category: Option<string>, admin: bool, prefix: string)
    ensures var cmds := Collect(modules, category, admin, prefix);
      Ordered.DistinctKeys(cmds)
      && forall k :: k in Ordered.Keys(cmds) <==>
           exists i :: 0 <= i < |modules| && modules[i].category == category && Offers(modules[i], admin, k)
  {
    if modules != [] {
      var init := modules[..|modules| - 1];
      var m := modules[|modules| - 1];
      CollectKeys(init, category, admin, prefix);
      assert forall i :: 0 <= i < |init| ==> init[i] == modules[i];
      if m.category == category {
        AddCommandsKeys(Collect(init, category, admin, prefix), m.commands, admin, prefix);
      }
    }
  }

  /** The text a listed command gets: its description, or 'Description not set', followed by its
      aliases when it has any. */
  function CommandText(cmd: Command, prefix: string): string
  {
    DescriptionText(cmd) + (if |cmd.aliases| > 0 then AliasIntro + Text.Join(FormattedAliases(cmd.aliases, prefix), ", ") else "")
  }

  /** Module `i`'s command `j` of the category is the last one under `key` that has a name: every
      named command under `key` in the category comes before it or is it. */
  predicate LastNamed(modules: seq<Module>, category: Option<string>, key: string, i: int, j: int)
  {
    0 <= i < |modules| && modules[i].category == category && 0 <= j < |modules[i].commands|
    && modules[i].commands[j].0 == key && modules[i].commands[j].1.name != ""
    && forall i', j' ::
         0 <= i' < |modules| && modules[i'].category == category && 0 <= j' < |modules[i'].commands|
         && modules[i'].commands[j'].0 == key && modules[i'].commands[j'].1.name != ""
         ==> i' < i || (i' == i && j' <= j)
  }

  /** Another key, or a nameless command, leaves the text of `k` alone. */
  lemma AddCommandOther(acc: Ordered.Dict<string, string>, key: string, cmd: Command, admin: bool, prefix: string, k: string)
    requires Ordered.DistinctKeys(acc) && (key != k || cmd.name == "")
    ensures Ordered.Get(AddCommand(acc, key, cmd, admin, prefix), k) == Ordered.Get(acc, k)
  {
    if cmd.name != "" {
      var listed := if Listed(cmd, admin) then Ordered.Put(acc, key, DescriptionText(cmd)) else acc;
      if Listed(cmd, admin) {
        Ordered.PutGet(acc, key, DescriptionText(cmd), k);
      }
      match Ordered.Get(listed, key)
      case Some(d) =>
        if |cmd.aliases| > 0 {
          Ordered.PutGet(listed, key, d + AliasIntro + Text.Join(FormattedAliases(cmd.aliases, prefix), ", "), k);
        }
      case None =>
    }
  }

  /** A listed command sets the text of its key, whatever was there before. */
  lemma AddCommandSets(acc: Ordered.Dict<string, string>, key: string, cmd: Command, admin: bool, prefix: string)
    requires Ordered.DistinctKeys(acc) && Listed(cmd, admin)
    ensures Ordered.Get(AddCommand(acc, key, cmd, admin, prefix), key) == Some(CommandText(cmd, prefix))
  {
    var desc := DescriptionText(cmd);
    var listed := Ordered.Put(acc, key, desc);
    Ordered.PutGet(acc, key, desc, key);
    assert Ordered.Get(listed, key) == Some(desc);
    var aliases := Text.Join(FormattedAliases(cmd.aliases, prefix), ", ");
    if |cmd.aliases| > 0 {
      assert AddCommand(acc, key, cmd, admin, prefix) == Ordered.Put(listed, key, desc + AliasIntro + aliases);
      Ordered.PutGet(listed, key, desc + AliasIntro + aliases, key);
      assert desc + AliasIntro + aliases == desc + (AliasIntro + aliases);
    } else {
      assert AddCommand(acc, key, cmd, admin, prefix) == listed;
      assert CommandText(cmd, prefix) == desc + "" == desc;
    }
  }

  lemma {:induction false} AddCommandsOther(acc: Ordered.Dict<string, string>, cmds: Ordered.Dict<string, Command>,
                                             admin: bool, prefix: string, k: string)
    requires Ordered.DistinctKeys(acc)
    requires forall j :: 0 <= j < |cmds| && cmds[j].0 == k ==> cmds[j].1.name == ""
    ensures Ordered.Get(AddCommands(acc, cmds, admin, prefix), k) == Ordered.Get(acc, k)
  {
    if cmds != [] {
      var init := cmds[..|cmds| - 1];
      AddCommandsOther(acc, init, admin, prefix, k);
      AddCommandsKeys(acc, init, admin, prefix);
      AddCommandOther(AddCommands(acc, init, admin, prefix), cmds[|cmds| - 1].0, cmds[|cmds| - 1].1, admin, prefix, k);
    }
  }

  lemma {:induction false} AddCommandsLast(acc: Ordered.Dict<string, string>, cmds: Ordered.Dict<string, Command>,
                                            admin: bool, prefix: string, k: string, j: nat)
    requires Ordered.DistinctKeys(acc)
    requires j < |cmds| && cmds[j].0 == k && Listed(cmds[j].1, admin)
    requires forall j' :: j < j' < |cmds| && cmds[j'].0 == k ==> cmds[j'].1.name == ""
    ensures Ordered.Get(AddCommands(acc, cmds, admin, prefix), k) == Some(CommandText(cmds[j].1, prefix))
  {
    var init := cmds[..|cmds| - 1];
    var last := cmds[|cmds| - 1];
    AddCommandsKeys(acc, init, admin, prefix);
    if j == |cmds| - 1 {
      AddCommandSets(AddCommands(acc, init, admin, prefix), k, last.1, admin, prefix);
    } else {
      AddCommandsLast(acc, init, admin, prefix, k, j);
      AddCommandOther(AddCommands(acc, init, admin, prefix), last.0, last.1, admin, prefix, k);
    }
  }

  lemma {:induction false} CollectOther(modules: seq<Module>, category: Option<string>, admin: bool, prefix: string, k: string)
    requires forall i, j ::
               0 <= i < |modules| && modules[i].category == category && 0 <= j < |modules[i].commands|
               && modules[i].commands[j].0 == k
               ==> modules[i].commands[j].1.name == ""
    ensures Ordered.Get(Collect(modules, category, admin, prefix), k) == None
  {
    if modules != [] {
      var init := modules[..|modules| - 1];
      var m := modules[|modules| - 1];
      CollectOther(init, category, admin, prefix, k);
      if m.category == category {
        CollectKeys(init, category, admin, prefix);
        AddCommandsOther(Collect(init, category, admin, prefix), m.commands, admin, prefix, k);
      }
    }
  }

  /** The text of a command field: when the last named command under `key` in the category is
      listed, the field holds its description ('Description not set' when empty) followed by its
      aliases, whatever earlier modules put under the same key. */
  lemma {:induction false} CollectText(modules: seq<Module>, category: Option<string>, admin: bool, prefix: string,
                                       key: string, i: nat, j: nat)
    requires LastNamed(modules, category, key, i, j) && Listed(modules[i].commands[j].1, admin)
    ensures Ordered.Get(Collect(modules, category, admin, prefix), key) == Some(CommandText(modules[i].commands[j].1, prefix))
    decreases |modules|
  {
    var init := modules[..|modules| - 1];
    var m := modules[|modules| - 1];
    CollectKeys(init, category, admin, prefix);
    if i == |modules| - 1 {
      AddCommandsLast(Collect(init, category, admin, prefix), m.commands, admin, prefix, key, j);
    } else {
      assert LastNamed(init, category, key, i, j);
      CollectText(init, category, admin, prefix, key, i, j);
      if m.category == category {
        AddCommandsOther(Collect(init, category, admin, prefix), m.commands, admin, prefix, key);
      }
    }
  }

  /** The admin hint never adds or removes a command. */
  lemma AdminHintKeys(cmds: Ordered.Dict<string, string>, admin: bool)
    ensures Ordered.Keys(WithAdminHint(cmds, admin)) == Ordered.Keys(cmds)
  {
    if admin && Ordered.Get(cmds, "help").Some? {
      Ordered.PutKeys(cmds, "help", Ordered.Get(cmds, "help").value + AdminHint);
    }
  }

  // ---------------------------------------------------------------------------
  // The fields

  function CommandFields(cmds: Ordered.Dict<string, string>, prefix: string): (fs: seq<Embeds.Field>)
    ensures |fs| == |cmds|
    ensures forall i :: 0 <= i < |cmds| ==>
      fs[i] == Embeds.Field(prefix + cmds[i].0, Text.FormatMap(cmds[i].1, map["prefix" := prefix]))
  {
    seq(|cmds|, i requires 0 <= i < |cmds| =>
      Embeds.Field(prefix + cmds[i].0, Text.FormatMap(cmds[i].1, map["prefix" := prefix])))
  }

  /** Each field name is the prefix followed by its command key, so distinct keys give distinct
      field names. */
  lemma CommandFieldNames(cmds: Ordered.Dict<string, string>, prefix: string)
    ensures forall i :: 0 <= i < |cmds| ==>
      var n := CommandFields(cmds, prefix)[i].name;
      prefix <= n && n[|prefix|..] == cmds[i].0
    ensures Ordered.DistinctKeys(cmds) ==>
      forall i, j :: 0 <= i < j < |cmds| ==> CommandFields(cmds, prefix)[i].name != CommandFields(cmds, prefix)[j].name
  {
    var fs := CommandFields(cmds, prefix);
    forall i | 0 <= i < |cmds| ensures prefix <= fs[i].name && fs[i].name[|prefix|..] == cmds[i].0 {
      assert fs[i].name == prefix + cmds[i].0;
    }
  }

  /** The categories dict: every module category, with the description of the last module in it. */
  function Categories(modules: seq<Module>): Ordered.Dict<string, string>
  {
    if modules == [] then []
    else
      var acc := Categories(modules[..|modules| - 1]);
      var m := modules[|modules| - 1];
      if m.category.Some? then Ordered.Put(acc, m.category.value, m.description) else acc
  }

  /** Every module with a category gives exactly one category, and nothing else does. */
  lemma {:induction false} CategoriesKeys(modules: seq<Module>)
    ensures Ordered.DistinctKeys(Categories(modules))
    ensures forall c :: c in Ordered.Keys(Categories(modules)) <==>
      exists i :: 0 <= i < |modules| && modules[i].category == Some(c)
  {
    if modules != [] {
      var init := modules[..|modules| - 1];
      var m := modules[|modules| - 1];
      CategoriesKeys(init);
      assert forall i :: 0 <= i < |init| ==> init[i] == modules[i];
      if m.category.Some? {
        Ordered.PutGet(Categories(init), m.category.value, m.description, m.category.value);
        Ordered.PutKeys(Categories(init), m.category.value, m.description);
      }
    }
  }

  /** The category fields, in order, up to the first description that names something other than
      the prefix, which raises KeyError. */
  function CategoryFields(cats: Ordered.Dict<string, string>, prefix: string): (seq<Embeds.Field>, Option<PyError>)
  {
    if cats == [] then ([], None)
    else
      var (fs, err) := CategoryFields(cats[..|cats| - 1], prefix);
      if err.Some? then (fs, err)
      else
        var (c, d) := cats[|cats| - 1];
        match Text.FormatMapStrict(d, map["prefix" := prefix])
        case Ok(text) => (fs + [Embeds.Field(prefix + "help " + c, text)], None)
        case Err(e) => (fs, Some(e))
  }

  /** Without an error there is one field per category, named `{prefix}help {category}` and holding
      its description with the prefix filled in; an error is a missing name in one of the
      descriptions, and stops the fields before that category. */
  lemma {:induction false} CategoryFieldsShape(cats: Ordered.Dict<string, string>, prefix: string)
    ensures var (fs, err) := CategoryFields(cats, prefix);
      (err.None? ==>
         (|fs| == |cats|
          && forall i :: 0 <= i < |cats| ==>
               fs[i].name == prefix + "help " + cats[i].0
               && Text.FormatMapStrict(cats[i].1, map["prefix" := prefix]) == Ok(fs[i].value)))
      && (err.Some? ==> |fs| < |cats| && err.value.KeyError? && err.value.key != "prefix")
  {
    if cats != [] {
      var init := cats[..|cats| - 1];
      CategoryFieldsShape(init, prefix);
      assert forall i :: 0 <= i < |init| ==> init[i] == cats[i];
    }
  }

  lemma {:induction false} CategoryErrorStays(cats: Ordered.Dict<string, string>, prefix: string, i: nat)
    requires i <= |cats| && CategoryFields(cats[..i], prefix).1.Some?
    ensures CategoryFields(cats, prefix) == CategoryFields(cats[..i], prefix)
    decreases |cats| - i
  {
    if i == |cats| {
      assert cats[..i] == cats;
    } else {
      assert cats[..i + 1][..i] == cats[..i];
      CategoryErrorStays(cats, prefix, i + 1);
    }
  }

  function NoCommandsField(prefix: string): Embeds.Field
  {
    Embeds.Field("No commands in this category", "You can find categories using " + prefix + "help")
  }

  /** The fields `generate` adds, and the error that stops it. */
  function HelpFields(modules: seq<Module>, prefix: string, category: Option<string>, admin: bool)
    : (seq<Embeds.Field>, Option<PyError>)
  {
    Assemble(Collect(modules, category, admin, prefix), Categories(modules), prefix, category, admin)
  }

  /** The fields from the collected commands and the categories dict. */
  function Assemble(collected: Ordered.Dict<string, string>, cats: Ordered.Dict<string, string>, prefix: string,
                    category: Option<string>, admin: bool)
    : (seq<Embeds.Field>, Option<PyError>)
  {
    var cmds := WithAdminHint(collected, admin);
    var head := CommandFields(cmds, prefix);
    if category.None? then
      var (fs, err) := CategoryFields(cats, prefix);
      (head + fs, err)
    else if cmds == [] then (head + [NoCommandsField(prefix)], None)
    else (head, None)
  }

  /** The embed lists one field per listed command key, named prefix + key, in order; then, with
      no category, one field per module category; with a category and nothing listed, the single
      'No commands in this category' field; with a category and some command, nothing more. Only
      the categories' descriptions can raise. */
  lemma HelpFieldsShape(modules: seq<Module>, prefix: string, category: Option<string>, admin: bool)
    ensures var (fs, err) := HelpFields(modules, prefix, category, admin);
      var cmds := Collect(modules, category, admin, prefix);
      var cats := Categories(modules);
      |fs| >= |cmds|
      && (forall i :: 0 <= i < |cmds| ==> fs[i].name == prefix + cmds[i].0)
      && (category.Some? ==> err.None?)
      && (category.Some? && cmds == [] ==> fs == [NoCommandsField(prefix)])
      && (category.Some? && cmds != [] ==> |fs| == |cmds|)
      && (category.None? && err.None? ==>
            (|fs| == |cmds| + |cats|
             && forall i :: 0 <= i < |cats| ==> fs[|cmds| + i].name == prefix + "help " + cats[i].0))
  {
    AssembleShape(Collect(modules, category, admin, prefix), Categories(modules), prefix, category, admin);
  }

  lemma AssembleShape(cmds: Ordered.Dict<string, string>, cats: Ordered.Dict<string, string>, prefix: string,
                      category: Option<string>, admin: bool)
    ensures var (fs, err) := Assemble(cmds, cats, prefix, category, admin);
      |fs| >= |cmds|
      && (forall i :: 0 <= i < |cmds| ==> fs[i].name == prefix + cmds[i].0)
      && (category.Some? ==> err.None?)
      && (category.Some? && cmds == [] ==> fs == [NoCommandsField(prefix)])
      && (category.Some? && cmds != [] ==> |fs| == |cmds|)
      && (category.None? && err.None? ==>
            (|fs| == |cmds| + |cats|
             && forall i :: 0 <= i < |cats| ==> fs[|cmds| + i].name == prefix + "help " + cats[i].0))
  {
    var head := CommandFields(WithAdminHint(cmds, admin), prefix);
    HintedNames(cmds, admin, prefix);
    var fs := Assemble(cmds, cats, prefix, category, admin).0;
    if category.None? {
      var (tail, err) := CategoryFields(cats, prefix);
      CategoryFieldsShape(cats, prefix);
      assert fs == head + tail;
      forall i | 0 <= i < |cmds| ensures fs[i].name == prefix + cmds[i].0 {
        assert fs[i] == head[i];
      }
      if err.None? {
        forall i | 0 <= i < |cats| ensures fs[|cmds| + i].name == prefix + "help " + cats[i].0 {
          assert fs[|cmds| + i] == tail[i];
        }
      }
    } else if cmds == [] {
      assert fs == head + [NoCommandsField(prefix)];
    } else {
      assert fs == head;
    }
  }

  lemma HintedNames(cmds: Ordered.Dict<string, string>, admin: bool, prefix: string)
    ensures var head := CommandFields(WithAdminHint(cmds, admin), prefix);
      |head| == |cmds| && forall i :: 0 <= i < |cmds| ==> head[i].name == prefix + cmds[i].0
  {
    AdminHintKeys(cmds, admin);
    var hinted := WithAdminHint(cmds, admin);
    assert |hinted| == |cmds| by {
      assert |Ordered.Keys(hinted)| == |Ordered.Keys(cmds)|;
    }
    forall i | 0 <= i < |cmds| ensures hinted[i].0 == cmds[i].0 {
      assert Ordered.Keys(hinted)[i] == Ordered.Keys(cmds)[i];
    }
  }

  // ---------------------------------------------------------------------------
  // The embed

  class HelpEmbed {
    const prefix: string
    const category: Option<string>
    const admin: bool
    const embed: Embeds.Embed

    /** Titled 'Help', or 'Help (category)', in the help colour, with the server icon when given. */
    constructor (prefix: string, category: Option<string>, iconUrl: Option<string>, admin: bool)
      ensures this.prefix == prefix && this.category == category && this.admin == admin
      ensures fresh(embed) && embed.fields == [] && embed.color == HelpColor && embed.thumbnail == iconUrl
      ensures embed.title == if category.Some? then "Help (" + category.value + ")" else "Help"
    {
      this.prefix := prefix;
      this.category := category;
      this.admin := admin;
      var e := new Embeds.Embed("Help", "", HelpColor);
      if iconUrl.Some? {
        e.SetThumbnail(iconUrl.value);
      }
      if category.Some? {
        e.title := "Help (" + category.value + ")";
      }
      embed := e;
    }

    /** The inner loop of `generate`: the commands of one module. */
    method AddModuleCommands(acc: Ordered.Dict<string, string>, cmds: Ordered.Dict<string, Command>)
      returns (r: Ordered.Dict<string, string>)
      ensures r == AddCommands(acc, cmds, admin, prefix)
    {
      r := acc;
      for j := 0 to |cmds|
        invariant r == AddCommands(acc, cmds[..j], admin, prefix)
      {
        assert cmds[..j + 1][..j] == cmds[..j];
        var (key, cmd) := cmds[j];
        if cmd.name != "" {
          if admin {
            r := Ordered.Put(r, key, DescriptionText(cmd));
          } else if cmd.permission != "admin" {
            r := Ordered.Put(r, key, DescriptionText(cmd));
          }
          var current := Ordered.Get(r, key);
          if current.Some? && |cmd.aliases| > 0 {
            var text := AppendAliases(current.value, cmd.aliases, prefix);
            r := Ordered.Put(r, key, text);
          }
        }
      }
      assert cmds[..|cmds|] == cmds;
    }

    /** The outer loop of `generate`: the modules of the requested category, in order. */
    method CollectCommands(modules: seq<Module>) returns (cmds: Ordered.Dict<string, string>)
      ensures cmds == Collect(modules, category, admin, prefix)
    {
      cmds := [];
      for i := 0 to |modules|
        invariant cmds == Collect(modules[..i], category, admin, prefix)
      {
        assert modules[..i + 1][..i] == modules[..i];
        if modules[i].category == category {
          cmds := AddModuleCommands(cmds, modules[i].commands);
        }
      }
      assert modules[..|modules|] == modules;
    }

    method AddCommandFields(cmds: Ordered.Dict<string, string>)
      modifies embed
      ensures embed.fields == old(embed.fields) + CommandFields(cmds, prefix)
      ensures embed.title == old(embed.title) && embed.color == old(embed.color)
      ensures embed.thumbnail == old(embed.thumbnail)
    {
      ghost var before := embed.fields;
      for i := 0 to |cmds|
        invariant embed.fields == before + CommandFields(cmds, prefix)[..i]
        invariant embed.title == old(embed.title) && embed.color == old(embed.color)
        invariant embed.thumbnail == old(embed.thumbnail)
      {
        var description := Text.FormatMap(cmds[i].1, map["prefix" := prefix]);
        embed.AddField(prefix + cmds[i].0, description);
        ghost var fs := CommandFields(cmds, prefix);
        assert fs[..i + 1] == fs[..i] + [fs[i]];
        AppendAssoc(before, fs[..i], [fs[i]]);
      }
      assert CommandFields(cmds, prefix)[..|cmds|] == CommandFields(cmds, prefix);
    }

    method CollectCategories(modules: seq<Module>) returns (cats: Ordered.Dict<string, string>)
      ensures cats == Categories(modules)
    {
      cats := [];
      for i := 0 to |modules|
        invariant cats == Categories(modules[..i])
      {
        assert modules[..i + 1][..i] == modules[..i];
        if modules[i].category.Some? {
          cats := Ordered.Put(cats, modules[i].category.value, modules[i].description);
        }
      }
      assert modules[..|modules|] == modules;
    }

    method AddCategoryFields(cats: Ordered.Dict<string, string>) returns (error: Option<PyError>)
      modifies embed
      ensures embed.fields == old(embed.fields) + CategoryFields(cats, prefix).0
      ensures error == CategoryFields(cats, prefix).1
      ensures embed.title == old(embed.title) && embed.color == old(embed.color)
      ensures embed.thumbnail == old(embed.thumbnail)
    {
      ghost var before := embed.fields;
      for i := 0 to |cats|
        invariant CategoryFields(cats[..i], prefix).1.None?
        invariant embed.fields == before + CategoryFields(cats[..i], prefix).0
        invariant embed.title == old(embed.title) && embed.color == old(embed.color)
        invariant embed.thumbnail == old(embed.thumbnail)
      {
        assert cats[..i + 1][..i] == cats[..i];
        var (c, d) := cats[i];
        var description := Text.FormatMapStrict(d, map["prefix" := prefix]);
        if description.Err? {
          CategoryErrorStays(cats, prefix, i + 1);
          return Some(description.error);
        }
        ghost var done := CategoryFields(cats[..i], prefix).0;
        embed.AddField(prefix + "help " + c, description.value);
        AppendAssoc(before, done, [Embeds.Field(prefix + "help " + c, description.value)]);
      }
      assert cats[..|cats|] == cats;
      error := None;
    }

    /** `generate(modules)`: the command fields, then the category fields or the empty-category
        note, as `HelpFields` describes them. */
    method Generate(modules: seq<Module>) returns (error: Option<PyError>)
      modifies embed
      ensures embed.fields == old(embed.fields) + HelpFields(modules, prefix, category, admin).0
      ensures error == HelpFields(modules, prefix, category, admin).1
      ensures embed.title == old(embed.title) && embed.color == old(embed.color)
      ensures embed.thumbnail == old(embed.thumbnail)
    {
      ghost var before := embed.fields;
      var cmds := CollectCommands(modules);
      if admin {
        var help := Ordered.Get(cmds, "help");
        if help.Some? {
          cmds := Ordered.Put(cmds, "help", help.value + AdminHint);
        }
      }
      AddCommandFields(cmds);
      ghost var head := CommandFields(cmds, prefix);
      var isCommands := |cmds| > 0;
      error := None;
      if category.None? {
        var cats := CollectCategories(modules);
        error := AddCategoryFields(cats);
        AppendAssoc(before, head, CategoryFields(cats, prefix).0);
      }
      if category.Some? && !isCommands {
        embed.AddField(NoCommandsField(prefix).name, NoCommandsField(prefix).value);
        AppendAssoc(before, head, [NoCommandsField(prefix)]);
      }
    }
  }

  lemma AppendAssoc(a: seq<Embeds.Field>, b: seq<Embeds.Field>, c: seq<Embeds.Field>)
    ensures a + b + c == a + (b + c)
  {
  }

  // ---------------------------------------------------------------------------
  // Help.run

  /** The settings `Help.run` reads: the prefix (absent, None or set) and the previous help
      message with its channel. */
  datatype HelpSettings = HelpSettings(prefix: Option<Option<string>>, lastHelpMsg: Option<string>,
                                       lastHelpChannel: Option<string>)

  /** A queued deletion of an earlier help message. */
  datatype Deletion = Deletion(message: string, channel: Option<string>)

  /** The first word of the command, lower-cased, where the flags are looked for. */
  function CommandWord(command: string): string
  {
    Text.Lower(Text.Split(command, ' ')[0])
  }

  /** The category asked for: the lower-cased second word, or None. */
  function CategoryArg(command: string): (r: Option<string>)
    ensures r.Some? <==> |Text.Split(command, ' ')| > 1
    ensures r.Some? ==> r.value == Text.Lower(Text.Split(command, ' ')[1])
  {
    match Text.Token(command, 1) case Some(w) => Some(Text.Lower(w)) case None => None
  }

  /** The prefix the help shows: the server's, or the default one when it is absent or None. */
  function ShownPrefix(setting: Option<Option<string>>, defaultPrefix: string): string
  {
    match setting case Some(Some(p)) => p case _ => defaultPrefix
  }

  class HelpCommand {
    const modules: seq<Module>
    var isHelp: bool
    var embed: HelpEmbed?
    var queue: seq<Deletion>

    constructor (modules: seq<Module>)
      ensures this.modules == modules && embed == null && queue == [] && !isHelp
    {
      this.modules := modules;
      isHelp := false;
      embed := null;
      queue := [];
    }

    /** `run`: '-u' in the command word drops admin rights for the listing, '-d' keeps the
        message from being deleted later; the second word picks a category; the embed is built
        with the server's prefix; and the previous help message, when there is one, is queued for
        deletion once the embed is built. */
    method Run(command: string, authorAdmin: bool, settings: HelpSettings, iconUrl: Option<string>,
               defaultPrefix: string)
      returns (error: Option<PyError>)
      modifies this
      ensures isHelp <==> !Text.HasSubstring(CommandWord(command), "-d")
      ensures embed != null && fresh(embed) && fresh(embed.embed)
      ensures embed.prefix == ShownPrefix(settings.prefix, defaultPrefix)
      ensures embed.category == CategoryArg(command)
      ensures embed.admin <==> authorAdmin && !Text.HasSubstring(CommandWord(command), "-u")
      ensures var (fs, err) := HelpFields(modules, embed.prefix, embed.category, embed.admin);
        embed.embed.fields == fs && error == err
      ensures queue == if error.None? && settings.lastHelpMsg.Some?
                       then [Deletion(settings.lastHelpMsg.value, settings.lastHelpChannel)] else []
    {
      queue := [];
      var prefix := ShownPrefix(settings.prefix, defaultPrefix);
      var cmd := CommandWord(command);
      var admin := authorAdmin && !Text.HasSubstring(cmd, "-u");
      isHelp := !Text.HasSubstring(cmd, "-d");
      var category := CategoryArg(command);
      var e := new HelpEmbed(prefix, category, iconUrl, admin);
      embed := e;
      error := e.Generate(modules);
      if error.None? && settings.lastHelpMsg.Some? {
        queue := [Deletion(settings.lastHelpMsg.value, settings.lastHelpChannel)];
      }
    }
  }

  /** A flag glued to the command word is seen, whatever follows it, and the word after it still
      names the category. */
  lemma FlagAfterWord(word: string, flag: string, rest: string)
    requires ' ' !in word && (flag == "-u" || flag == "-d")
    ensures Text.HasSubstring(CommandWord(word + flag + " " + rest), flag)
    ensures CategoryArg(word + flag + " " + rest) == Some(Text.Lower(Text.Split(rest, ' ')[0]))
  {
    var w := word + flag;
    assert flag[0] != ' ' && flag[1] != ' ' && |flag| == 2;
    assert ' ' !in w;
    SplitFirst(w, rest);
    var parts := Text.Split(w + " " + rest, ' ');
    assert parts[0] == w && parts[1] == Text.Split(rest, ' ')[0];
    Text.LowerAppend(word, flag);
    assert forall i :: 0 <= i < |flag| ==> flag[i] == '-' || flag[i] == 'u' || flag[i] == 'd';
    Text.LowerUnchanged(flag);
    SubstringAtEnd(Text.Lower(word), flag);
  }

  lemma SplitFirst(w: string, rest: string)
    requires ' ' !in w
    ensures Text.Split(w + " " + rest, ' ') == [w] + Text.Split(rest, ' ')
  {
    var s := w + " " + rest;
    assert s[|w|] == ' ' && s[..|w|] == w;
    assert Text.IndexOf(s, ' ') == |w|;
    assert s[|w| + 1..] == rest;
  }

  lemma {:induction false} SubstringAtEnd(s: string, sub: string)
    ensures Text.HasSubstring(s + sub, sub)
    decreases |s|
  {
    if s != [] {
      SubstringAtEnd(s[1..], sub);
      assert (s + sub)[1..] == s[1..] + sub;
    }
  }
}
