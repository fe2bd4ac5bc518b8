# royale-bot core, modelled in Dafny

royale-bot is a Discord bot for Fortnite players. This project models the core of the bot in five parts.

- **The statistics pictures** (`imagegeneration/stats.py`, `utils/images.py`):
  - The player-statistics JSON document is normalised into user data, lifetime totals, recent-match batches and per-mode statistics.
  - The picture's background is a flat colour or a photo. A photo is "cover"-cropped to the canvas.
  - The overlay holds three panels. One of them is a performance chart that numbers every recent match and decides where markers and labels go.
  - A statistics grid shows one cell per mode and column.
- **The fnbr.co API layer** (`dataretrieval/fnbr.async.py`):
  - Requests build a URL from an endpoint and an ordered argument dict. The `/images` request clamps its limit to [1, 15].
  - Responses are classified into error, image, shop, stats, list or none. Their item payloads are decoded.
- **The Fortnite chat commands** (`testModule/modules/fortnite.py`):
  - The server-status embed escalates its colour from green to orange to red.
  - Long patch-note details are cut into 1024-character fields.
  - The shop command chooses between the cached picture and a new one.
  - The arguments of the stats, background and patch-note commands are parsed from the message.
- **The default module's commands** (`modules/default.py`):
  - `help` reads `-u`/`-d` flags and a category, and its embed lists commands, aliases and categories.
  - `setchannel`, `resetchannels` and `channels` bind command types to channels and list the bindings.
  - `setprefix` accepts a quoted or an unquoted prefix.
  - The language picker turns a country code into a flag of regional indicator symbols.
- **Python and Discord building blocks**, shared by the parts above:
  - ordered dicts;
  - `str.split`, `join`, `strip`, `lower`/`upper`, `int`/`str`, and `format_map` with and without a `__missing__` fallback;
  - parsed JSON values;
  - the Discord embed as a mutable object with appended fields.

The model keeps the source's form:
- Objects whose methods update fields are classes:
  - `Background`, `ImageGenerator`, `APIRequest`, `StatusEmbed`, `HelpEmbed`, the embed itself;
  - each command, whose `run` sets `content`, `embed`, `settings` and `queue`.
- Loops are methods with invariants, proved against specification functions.
- Pure decoding and decision logic is made of functions and lemmas.
- Exceptions the source raises (`KeyError`, `TypeError`, `AttributeError`, `ValueError`, `ZeroDivisionError`, `RuntimeError`) are `Err` results.

## Model

| member | source | states |
|---|---|---|
| Ordered.Put | dataretrieval/fnbr.async.py:54 | `d[k] = v`: the entry for `k` holds `v`, at the old key's position or as one new last entry; every entry under another key keeps its position and value |
| Ordered.PutGet | dataretrieval/fnbr.async.py:51-70 | after `d[k] = v`, `k` maps to `v`, every other key is unaffected, and keys stay distinct |
| Ordered.PutKeys | modules/default.py:307-315 | an assignment appends the key exactly when it is new, so the dict keeps first-insertion order |
| Text.Split | testModule/modules/fortnite.py:85 | `split(" ")` gives at least one piece, and no piece contains the separator |
| Text.JoinSplit | testModule/modules/fortnite.py:85-89 | joining the pieces of a split with the same separator gives back the string |
| Text.Token | testModule/modules/fortnite.py:61-67 | `s.split(" ")[k]` exists exactly when there are more than `k` pieces; otherwise it is the IndexError case |
| Text.StripEmptyIffBlank | testModule/modules/fortnite.py:191 | `strip()` is empty exactly for whitespace-only text |
| Text.ParseIntRoundTrip | imagegeneration/stats.py:401 | `int(str(i)) == i` for every integer |
| Text.FormatMapStrict | modules/default.py:342 | `format_map` with a plain dict either gives the same text as the lenient version, or a KeyError naming a missing key |
| Text.FormatMapPlain | modules/default.py:331 | a description without braces is left as it is by `format_map` |
| Text.Round | utils/images.py:76-83 | Python's `round`: the integer within 0.5 of x, a tie going to the even neighbour |
| Wrappers.Each | dataretrieval/fnbr.async.py:113-118 | a loop appending `f(x)` per element succeeds exactly when every call does, with one result per element in order; otherwise it raises what the first failing element raises |
| Wrappers.EachFirstError | dataretrieval/fnbr.async.py:113-118 | once an element raises, the elements after it are never reached |
| Json.Elements | dataretrieval/fnbr.async.py:130-131 | `v[i]` for `i` in `range(len(v))`: the list's items, a string's one-character strings, nothing for an empty dict, KeyError of index 0 for a non-empty dict, TypeError for anything without `len` |
| Json.MapElements | dataretrieval/fnbr.async.py:128-131 | the loop over `range(len(v))` succeeds exactly when every element decodes, one result per element in order, otherwise with an element's exception |
| Json.CollectElements | dataretrieval/fnbr.async.py:128-131 | the loop itself computes `MapElements` |
| Text.FormatMapName | imagegeneration/stats.py:460-468 | with `Map`, one `{name}` between brace-free text is replaced by the mapped value |
| Backgrounds.Background.Init | utils/images.py:30-37 | a background stores size, colour and URL, with exactly one of colour and URL set |
| Backgrounds.Background.Create | utils/images.py:30-37 | `Background(size, color, url)` succeeds exactly when one of colour and URL is given, else RuntimeError; the result is valid and holds the given values |
| Backgrounds.Background.CreateDefault | imagegeneration/stats.py:20-27 | the same constructor on the default 1000 x 600 canvas |
| Backgrounds.Background.SetColor | utils/images.py:41-44 | the colour setter stores the colour, clears the URL and keeps the background valid |
| Backgrounds.Background.SetUrl | utils/images.py:48-51 | the URL setter stores the URL, clears the colour and keeps the background valid |
| Backgrounds.Background.Generate | utils/images.py:52-60 | a fill of the canvas colour exactly when a colour is set; a fetch-and-crop to the canvas exactly when a URL is set |
| Backgrounds.ImageGenerator.constructor | imagegeneration/stats.py:319-321 | a fresh transparent colour background on the default canvas and no overlays |
| Backgrounds.ImageGenerator.StatsImage | imagegeneration/stats.py:336-339 | the generator with the overall statistics overlay |
| Backgrounds.ImageGenerator.PerformanceImage | imagegeneration/stats.py:340-343 | the generator with a full-canvas performance chart |
| Backgrounds.ImageGenerator.CurrentSeasonStatsImage | imagegeneration/stats.py:344-347 | the generator with the current-season statistics overlay |
| Backgrounds.ImageGenerator.SetBackground | imagegeneration/stats.py:322-326 | a given colour wins over a given URL, a given URL alone replaces the colour, and nothing given changes nothing |
| Backgrounds.ImageGenerator.AddOverlay | imagegeneration/stats.py:327-328 | the overlay is appended and the background is untouched |
| Backgrounds.ReCrop | utils/images.py:73-90 | equal ratios resize straight to the target; otherwise the crop box has exactly the target size, is centred along the cut axis and spans the other axis |
| Backgrounds.CropOverrunsPhoto | utils/images.py:74-80 | for a 1000 x 700 photo on the 1000 x 600 canvas, the scale factor as written resizes to 1000 x 420, so the crop box reaches 90 pixels beyond the photo |
| Backgrounds.Darken | utils/images.py:26-28 | IndexError exactly for a colour with fewer than three components; otherwise the RGB part is kept and the alpha is replaced |
| Grid.Layout | imagegeneration/stats.py:91-108 | the three overlay panels do not overlap, and each lies inside the padded area from (px, py) to (19px, 19py) |
| Grid.LayoutFits | imagegeneration/stats.py:93-107 | on a canvas of at least 190 pixels each way, every panel fits inside the canvas |
| Grid.DefaultLayout | imagegeneration/stats.py:93-98 | the default canvas gives 50 x 30 pixel paddings |
| Grid.Headings | imagegeneration/stats.py:274-287 | the three row headings read 'solos', 'duos' and 'squads', the modes whose statistics fill those rows, whether the rows are the overall or the current-season keys |
| Grid.CornerHeading | imagegeneration/stats.py:255-273 | the corner reads 'Current season' exactly when every row key is a `curr_` key, and 'Overall' otherwise |
| Grid.AttrName | imagegeneration/stats.py:297-299 | a column reads its lower-cased header, except 'WIN%', which reads `win_percent` |
| Grid.CellText | imagegeneration/stats.py:305-307 | a blank value shows as '0', any other text shows as it is, and a non-string value has no `strip` |
| Grid.ColumnCells | imagegeneration/stats.py:300-315 | the three cells of one column, top to bottom, each the cell of its row; a value that is not text stops the column |
| Grid.Cells | imagegeneration/stats.py:291-316 | 18 value cells, column by column and row by row; each is the cell of its column and row, and the rows follow the current-season flag |
| Grid.MissingModeShowsZeros | imagegeneration/stats.py:302-307 | a mode without data shows '0' in every column |
| StatsData.UserDataOf | imagegeneration/stats.py:361-366 | each user field is the document's value, or its default ('' or 0) |
| StatsData.WinPercent | imagegeneration/stats.py:400-401 | no percentage unless wins and matches are both set; then `int(wins)`'s error, else `int(matches)`'s error, else ZeroDivisionError for 0 matches, else the percentage times matches equals wins × 100 |
| StatsData.WinPercentBounds | imagegeneration/stats.py:400-401 | at most `matches` wins give a percentage between 0 and 100 |
| StatsData.LifetimeOf | imagegeneration/stats.py:372-401 | only a list is read; a non-dict item raises AttributeError; every attribute holds the value of the last item with its key; the percentage and its error are `WinPercent`'s |
| StatsData.BuildLifetime | imagegeneration/stats.py:372-401 | the item loop computes `LifetimeOf` |
| StatsData.ZeroMatchesRaises | imagegeneration/stats.py:401 | "0" matches next to numeric wins raises ZeroDivisionError |
| StatsData.Kd | imagegeneration/stats.py:424-428 | kd is unset exactly when an input is None; it is kills when matches equal wins; otherwise it exists exactly when all three are numbers, and kd times (matches − wins) equals kills; the only error is TypeError |
| StatsData.MatchOf | imagegeneration/stats.py:414-428 | a non-dict raises AttributeError; a dict succeeds exactly when its kd can be computed; all nine fields take their key's value or default, and kd agrees with `Kd` |
| StatsData.DefaultMatch | imagegeneration/stats.py:414-428 | an empty dict gives every default and kd 0 |
| StatsData.MatchesOf | imagegeneration/stats.py:409-413 | one match per list item, in order, succeeding exactly when every item does; a non-list gives no matches |
| StatsData.BuildMatches | imagegeneration/stats.py:409-413 | the loop computes `MatchesOf` |
| StatsData.GetStat | imagegeneration/stats.py:452-458 | the `value` of the entry, or '' when the entry is missing or None; fails, with AttributeError, exactly when the entry is something other than None or a dict |
| StatsData.StatOf | imagegeneration/stats.py:441-451 | succeeds exactly on a dict whose nine entries are each missing, None or a dict, else AttributeError; each statistic is `GetStat` of its key |
| StatsData.StatsOf | imagegeneration/stats.py:429-440 | succeeds exactly on a dict where all nine modes' `Stat` succeed, else AttributeError; each mode is the `Stat` of its entry, {} when absent |
| StatsData.EmptyStatsAreBlank | imagegeneration/stats.py:429-458 | with no mode data at all, every statistic of every mode is '' |
| StatsData.Normalise | imagegeneration/stats.py:349-360 | a non-dict raises RuntimeError; a set error is kept and nothing is parsed; otherwise it succeeds exactly when lifetime, matches and stats all do, holds exactly those parts and the user data, and raises the first of their errors |
| Performance.Run | imagegeneration/stats.py:181-182 | one batch yields as many points as `range(1, count + 1)` |
| Performance.Reversed | imagegeneration/stats.py:177 | position i of the reversal holds element n − 1 − i |
| Performance.ExpandShape | imagegeneration/stats.py:178-183 | the expansion yields one point per match, numbered on from the start, each carrying the k/d of some batch |
| Performance.TotalReversed | imagegeneration/stats.py:163-177 | `match_count` does not change when the batches are reversed |
| Performance.ExpandedIdsEndAtLifetime | imagegeneration/stats.py:148-183 | after the reversal the points are numbered consecutively, and the last one is the lifetime match total |
| Performance.Tally | imagegeneration/stats.py:158-163 | the k/d list in order, and `match_count` as the sum of the batch sizes |
| Performance.ReverseInPlace | imagegeneration/stats.py:177 | the array holds the reversed batches |
| Performance.AppendRun | imagegeneration/stats.py:181-182 | the inner loop appends exactly one batch's run of points |
| Performance.ExpandBatches | imagegeneration/stats.py:178-183 | the expansion loop produces `Expand` of the batches |
| Performance.Plot | imagegeneration/stats.py:184-218 | one mark per point, each as `MarkAt` decides; the k/d range is raised to at least 0.1 |
| Performance.MarkerRule | imagegeneration/stats.py:193-209 | from point 3 on, a marker is left out exactly when the k/d equals both neighbours' |
| Performance.SentinelMarkers | imagegeneration/stats.py:193-200 | because of the −1 sentinel, points 1 and 2 and the last point get a marker whenever their own k/d is not −1 |
| Performance.MinusOneHidesMarkers | imagegeneration/stats.py:193-200 | when the first points' k/d is −1 (more wins than matches, see `kd` at imagegeneration/stats.py:424-428), points 1 and 2 get no marker |
| Performance.LabelsAtEnds | imagegeneration/stats.py:213-216 | labels appear only at point 1 and at point `match_count`, and show the match number |
| Performance.Min | imagegeneration/stats.py:166 | the least k/d, and one of them |
| Performance.Max | imagegeneration/stats.py:167 | the greatest k/d, and one of them |
| Performance.Generate | imagegeneration/stats.py:146-218 | the batches are reversed in place; ZeroDivisionError exactly when there are batches and `match_count` is −2; otherwise the caption, lowest and highest (0 and 1 without batches), the numbered points, each point's mark at the rounded interval, and the k/d range raised to at least 0.1 |
| Performance.TallyOf | imagegeneration/stats.py:161-163 | reading a match in the tally loop: AttributeError without a k/d, else TypeError exactly when `matches` is not a number, else the k/d |
| Performance.BatchOf | imagegeneration/stats.py:166-181 | a match is drawable exactly when its k/d is set and numeric and its `matches` an int or bool; the batch holds those numbers; a missing k/d is AttributeError, the rest TypeError |
| Performance.BatchesOf | imagegeneration/stats.py:161-181 | one batch per match, in order, exactly when every match is drawable; the first match the tally loop cannot read decides the error, and a match failing only later gives TypeError |
| Performance.LifetimeMatches | imagegeneration/stats.py:148 | AttributeError when the lifetime list never set `matches`; otherwise Python's `int` of it, succeeding exactly when that does |
| Performance.LifetimeMatchesDecimal | imagegeneration/stats.py:148 | a lifetime total written in decimal reads back as that number |
| Performance.Draw | imagegeneration/stats.py:176-186 | on batches in a fresh list: ZeroDivisionError exactly when there are batches and they total −2; otherwise the total and the points of the reversed batches |
| Performance.GenerateFromStats | imagegeneration/stats.py:146-186 | from the normalised document: the lifetime total's error first, then the matches' error, then ZeroDivisionError; otherwise the total and the numbered points of the reversed batches |
| Fnbr.Bounds | dataretrieval/fnbr.async.py:187-192 | below `min` gives `min`, above `max` gives `max`, otherwise the value; the result lies in [min, max] |
| Fnbr.EncodeValue | dataretrieval/fnbr.async.py:193-196 | a string is quoted as it is, an int through `str`; anything else cannot be encoded |
| Fnbr.PairsOf | dataretrieval/fnbr.async.py:30-31 | one `key=value` pair per argument, in insertion order, failing exactly when some pair fails |
| Fnbr.TerminatedJoin | dataretrieval/fnbr.async.py:29-33 | the accumulated pairs are the '&'-joined pairs plus one trailing '&', and are empty exactly without arguments |
| Fnbr.ApiRequest.constructor | dataretrieval/fnbr.async.py:20-24 | the request stores key, endpoint and arguments |
| Fnbr.ApiRequest.Shop | dataretrieval/fnbr.async.py:71-73 | the `/shop` endpoint with no arguments |
| Fnbr.ApiRequest.Stat | dataretrieval/fnbr.async.py:74-76 | the `/stats` endpoint with no arguments |
| Fnbr.ApiRequest.Images | dataretrieval/fnbr.async.py:45-50 | the `/images` endpoint holding a string search and a clamped int limit; the type is never stored |
| Fnbr.ApiRequest.SetSearch | dataretrieval/fnbr.async.py:51-56 | stores exactly a string search and reports it; otherwise nothing changes |
| Fnbr.ApiRequest.SetType | dataretrieval/fnbr.async.py:57-64 | the membership test checks the builtin `type`, so no type is ever stored |
| Fnbr.ApiRequest.SetLimit | dataretrieval/fnbr.async.py:65-70 | stores exactly an int limit, clamped to [1, 15], and reports it |
| Fnbr.ApiRequest.PutKeepsValid | dataretrieval/fnbr.async.py:51-70 | a value that follows the per-key rules keeps the arguments valid |
| Fnbr.ApiRequest.ParseArguments | dataretrieval/fnbr.async.py:28-34 | '?', then each pair followed by '&'; empty without arguments; valid arguments always encode |
| Fnbr.ApiRequest.Url | dataretrieval/fnbr.async.py:25-27 | base URL, endpoint, then the query string |
| Fnbr.Load | dataretrieval/fnbr.async.py:162-167 | on a dict the value or the default; on a string or list the default exactly when the name is not in it, else TypeError; TypeError on anything else |
| Fnbr.FieldsOf | dataretrieval/fnbr.async.py:149-156 | succeeds exactly when all eight loads can; each field is its `Load`; a string or list gives the blank item |
| Fnbr.ImagesOf | dataretrieval/fnbr.async.py:158-161 | succeeds exactly when all four loads can; each link is its `Load`, `featured` defaulting to False |
| Fnbr.ItemOf | dataretrieval/fnbr.async.py:147-161 | succeeds exactly when the item and, for a dict with `images`, that value are loadable; the error is TypeError; the plain fields are `FieldsOf`; the image fields exist exactly for a dict with `images` and are `ImagesOf` of it |
| Fnbr.ItemOfBlankEntry | dataretrieval/fnbr.async.py:147-167 | an empty list or string entry gives an item of defaults |
| Fnbr.ItemOfListImages | dataretrieval/fnbr.async.py:157-161 | an `images` list without the image names gives default links |
| Fnbr.ItemOfRejects | dataretrieval/fnbr.async.py:157-158 | a list holding "images" passes the `in` test and then raises TypeError |
| Fnbr.StatRarityOf | dataretrieval/fnbr.async.py:181-184 | succeeds exactly when both `rarity` and `count` are present |
| Fnbr.StatItemOf | dataretrieval/fnbr.async.py:168-180 | the type is its `Load`; without `rarity` the list is empty; with it, success exactly when every element of `json['rarity']` decodes, one entry per element |
| Fnbr.StatItemOfDictRarity | dataretrieval/fnbr.async.py:172-174 | an empty dict as `rarity` gives no entries; a non-empty one raises KeyError for index 0 |
| Fnbr.NewStatItem | dataretrieval/fnbr.async.py:168-174 | the constructor's loop computes `StatItemOf` |
| Fnbr.KindOf | dataretrieval/fnbr.async.py:84-110 | each response kind holds exactly under its branch condition, in the order of precedence |
| Fnbr.Classify | dataretrieval/fnbr.async.py:78-110 | kind and status as `KindOf` says; an error response carries `error` or else the reason; the image, shop and stats kinds succeed exactly when their payload decodes, carry exactly that payload, and otherwise raise its error |
| Fnbr.ShopPayloadOf | dataretrieval/fnbr.async.py:111-119 | succeeds exactly on a dict with `featured`, `daily` and `date` whose two lists decode; the items are one per element, in order, and the date is kept; a missing `featured` raises KeyError |
| Fnbr.ShopOf | dataretrieval/fnbr.async.py:111-119 | the two loops compute `ShopPayloadOf` |
| Fnbr.StatsPayloadOf | dataretrieval/fnbr.async.py:120-126 | succeeds exactly when every element of `matrix` decodes; the cosmetics total, and one stat item per element, in order |
| Fnbr.StatsOf | dataretrieval/fnbr.async.py:120-126 | the loop computes `StatsPayloadOf` |
| Fortnite.Level | testModule/modules/fortnite.py:159-165 | 0 for Operational, 1 for degraded or maintenance, 2 for a major outage, −1 otherwise |
| Fortnite.NextColor | testModule/modules/fortnite.py:166-172 | the colour never becomes less alarming; an outage sets red; a degradation reaches at least orange; other states change nothing |
| Fortnite.FinalColorCharacterised | testModule/modules/fortnite.py:158-177 | the embed ends red exactly when it started red or some service had a major outage; it is never less alarming than it started |
| Fortnite.StatusEmbed.constructor | testModule/modules/fortnite.py:141-157 | online: green, the online title and the check-mark footer; offline: red, the down title, the cross-mark footer and the message |
| Fortnite.StatusEmbed.AddService | testModule/modules/fortnite.py:158-177 | one field for the service with its display text; the colour escalates; a degraded state sets the cross-mark footer |
| Fortnite.Servers | testModule/modules/fortnite.py:111-117 | a mention of the author; the online or down title, and the blank or status-message description; one field per service, in order; the final colour is `FinalColor` of the states; the footer is a cross exactly when some service is degraded, or when offline |
| Fortnite.ChunksProperties | testModule/modules/fortnite.py:196-199 | the chunks concatenate back to the value; there are ⌈n/1024⌉ of them; all but the last hold exactly 1024 characters |
| Fortnite.ChunkName | testModule/modules/fortnite.py:194-200 | the first field is named after the title cut to 256 characters, later ones the title cut to 244 plus ' (continued)'; never over 256 |
| Fortnite.DetailFieldsProperties | testModule/modules/fortnite.py:190-202 | a blank value gives one '[NOT SET]' field; a short value one field with the value; a long value its chunks, whose values concatenate back to it |
| Fortnite.AddChunks | testModule/modules/fortnite.py:196-200 | the chunking loop appends exactly `ChunkFields` |
| Fortnite.AddDetail | testModule/modules/fortnite.py:191-202 | one detail appends exactly its detail fields |
| Fortnite.AddDetails | testModule/modules/fortnite.py:189-202 | all details' fields, in order |
| Fortnite.AddExtras | testModule/modules/fortnite.py:205-206 | the simple notes' extra fields, as they are |
| Fortnite.PatchNotesEmbed | testModule/modules/fortnite.py:183-206 | purple, footer the author, the simple description if any, else the short one; the detail fields, then the extra fields |
| Fortnite.ShopCommand.Run | testModule/modules/fortnite.py:25-53 | on a status equal to 200: the cached picture unless stale or missing, else a new one from the backgrounds, with missing settings giving "Error generating image" and no typing; otherwise the API error showing the status, the stored latest picture and no typing |
| Fortnite.StatsArgs | testModule/modules/fortnite.py:58-67 | the second word or '', and the third word or 'pc' |
| Fortnite.BackgroundsAfterFirstWord | testModule/modules/fortnite.py:83-89 | the backgrounds are always the words after the first, and the command word joined with them gives the message back |
| Fortnite.Detailed | testModule/modules/fortnite.py:124-132 | detailed exactly when the second word is 'd' or 'detail' in any letter case |
| DefaultCommands.Argument | modules/default.py:88-91 | the lower-cased second word exists exactly when there are two or more words, and it has no space |
| DefaultCommands.TypeString | modules/default.py:108-114 | the loop builds the backticked types joined by ', ' |
| DefaultCommands.TypeListShape | modules/default.py:108-114 | the type list is empty exactly without types; otherwise it starts and ends with a backtick |
| DefaultCommands.SetChannel.constructor | modules/default.py:79-84 | the description embeds the type list |
| DefaultCommands.SetChannel.Run | modules/default.py:85-107 | 'all' binds every type, a known type only itself, to the current channel; success exactly when something was bound |
| DefaultCommands.ResetChannels.Run | modules/default.py:121-138 | no argument resets every type; a known type resets only itself; an unknown type leaves the settings alone and replies with the error |
| DefaultCommands.ChannelValue | modules/default.py:151-157 | 'Not set' exactly when the type is unbound or None; otherwise a channel mention |
| DefaultCommands.Channels.Run | modules/default.py:144-158 | title after the server name, the server icon, and one field per type in order; absent channel settings raise KeyError exactly when there are types |
| DefaultCommands.PrefixOf | modules/default.py:166-173 | with at most one quote, the prefix is the second word or '' |
| DefaultCommands.PrefixBetweenQuotes | modules/default.py:166-168 | with two or more quotes, the prefix is exactly the quote-free text between the first two quotes |
| DefaultCommands.SetPrefix.Run | modules/default.py:164-182 | a non-empty prefix opens a confirmation modal for the author; an empty one sends the invalid reply |
| DefaultCommands.Shifted | modules/default.py:267 | `chr(ord(c) + 127397)` exists exactly below the code-point limit, and is the shifted character |
| DefaultCommands.GetFlag | modules/default.py:263-268 | the loop builds the flag of the upper-cased code |
| DefaultCommands.FlagShape | modules/default.py:263-268 | a flag exists exactly when every character can be shifted; it has one character per character, each shifted by 127397 |
| DefaultCommands.FlagErrorIsValue | modules/default.py:267 | the only failure is ValueError from `chr` |
| DefaultCommands.LettersMakeRegionalIndicators | modules/default.py:263-268 | a code of ASCII letters always has a flag, made of regional indicator symbols |
| DefaultCommands.EnglishFlag | modules/default.py:251-255 | English is shown under the British flag |
| DefaultCommands.LocaleEmbed | modules/default.py:245-261 | the set-locale title, description and colour 0x6ad2f7; it succeeds exactly when `Picker` does, and then holds `Picker`'s fields and flag map; otherwise its error is `Picker`'s |
| DefaultCommands.PickerOk | modules/default.py:249-261 | the language picker succeeds exactly when every language has a flag |
| DefaultCommands.PickerFields | modules/default.py:250-261 | one field per language, in order, titled with its flag and names and holding the credit for its author; every flag is a key of the map |
| DefaultCommands.PickerFlags | modules/default.py:255-256 | each flag in the map leads to a language that has that flag |
| DefaultCommands.PickerErrorIsValue | modules/default.py:262-267 | a failed picker fails with ValueError, from `chr` on a code point that cannot be shifted |
| Help.AppendAliases | modules/default.py:316-326 | the alias loop and the trailing-comma cut give the intro plus the formatted aliases joined by ', ' |
| Help.AliasPieces | modules/default.py:319-324 | each formatted alias followed by ', ' |
| Help.MentionAliases | modules/default.py:44 | the help command's aliases show as mentions of the bot, not in backticks |
| Help.AddCommandKeys | modules/default.py:302-326 | one command adds its key exactly when it is listed, and keeps keys distinct |
| Help.AddCommandsKeys | modules/default.py:302-326 | a module's commands add exactly the keys of its listed commands |
| Help.CollectKeys | modules/default.py:299-326 | a key is present exactly when some module of the requested category lists a command under it; keys stay distinct |
| Help.CollectOther | modules/default.py:299-316 | a key with no named command in the category has no text |
| Help.CollectText | modules/default.py:299-326 | when the last named command under a key is listed, the key's text is its description, 'Description not set' when empty, followed by its formatted aliases |
| Help.AdminHintKeys | modules/default.py:327-328 | the admin hint neither adds nor removes a command |
| Help.CommandFieldNames | modules/default.py:329-334 | each field is named the prefix followed by its command key, so distinct keys give distinct names |
| Help.CategoriesKeys | modules/default.py:335-339 | every module with a category gives exactly one category, and nothing else does |
| Help.CategoryFieldsShape | modules/default.py:340-343 | without an error, one field per category, named `{prefix}help {category}` |
| Help.CategoryErrorStays | modules/default.py:342 | the first description naming something other than `prefix` stops the listing with KeyError |
| Help.HelpFieldsShape | modules/default.py:298-346 | command fields first; then the categories for the top-level help, or the no-commands field for an empty category |
| Help.HelpEmbed.constructor | modules/default.py:289-297 | titled 'Help' or 'Help (category)', in the help colour, with the icon when given |
| Help.HelpEmbed.AddModuleCommands | modules/default.py:302-326 | the inner loop computes `AddCommands` |
| Help.HelpEmbed.CollectCommands | modules/default.py:299-326 | the outer loop computes `Collect` |
| Help.HelpEmbed.AddCommandFields | modules/default.py:329-334 | appends exactly `CommandFields` |
| Help.HelpEmbed.CollectCategories | modules/default.py:335-339 | computes `Categories` |
| Help.HelpEmbed.AddCategoryFields | modules/default.py:340-343 | appends the category fields up to the first error, and reports it |
| Help.HelpEmbed.Generate | modules/default.py:298-346 | appends exactly `HelpFields` and reports its error |
| Help.CategoryArg | modules/default.py:61-64 | the category is the lower-cased second word, present exactly when there are two or more words |
| Help.HelpCommand.Run | modules/default.py:46-71 | `-d` turns auto-delete off; `-u` drops admin; the prefix falls back to the default; the embed is generated; an earlier help message is queued for deletion |
| Help.FlagAfterWord | modules/default.py:54-64 | a flag glued to the command word is seen, and the next word is still the category |

## Left out

- Network, file system, clocks and image rendering are outside the model:
  - `collectImage`, `send`, `getShopData`, `shop.generate`, `getTime`, `getStats`, `meta.getStatus`/`getPatchNotes`/`getNews`;
  - drawing with PIL: fonts, text sizes, ellipses and lines.
- Their results are parameters: the HTTP status, the shop date, the current time and whether the cached file exists; the parsed body; the list of services.
- Localised reply texts are represented by a `Reply` datatype or a `value` function parameter, because the `localisation` package is not part of this model.
- `module.py` is not part of this model. Three things depend on it:
  - `Map`'s `__missing__` is taken to return the key, as the `Map` in `imagegeneration/stats.py` does;
  - `reset()` is taken to clear the reply attributes a `run` sets: `content`, `custom`, `embed` and `queue`, and for the shop command also `file` and `typing`;
  - `get_prefix` and `checkPermissions` are not modelled.
- `Status` (botinfo), `SetLocale` with its modal callbacks, `update_prefix`, `update_locale`, `finish_modal`, `acceptModal`/`declineModal`, `News` and `NewsEmbed`: asynchronous modal flows and message formatting are not modelled.
- `ItemListResponse`: the HTML scraping by regular expression is not modelled. A list response carries the page text as it is.
- `Overview.generate` and `centeredText` only draw text at computed positions, so they are not modelled.
- Performance.Generate: the rounding of the lowest and highest k/d to one decimal, and their labels, are not modelled.
- StatsData.WinPercent: the rounding to two decimals is not modelled. The contract states the exact quotient instead.
- Performance.Min, Performance.Max, Performance.Generate: `utils/integers.py` is not part of this model. `lowest` and `highest` are read as the least and greatest of their numeric arguments. A k/d that is not a number is taken to raise TypeError, as `round` of a non-number does.
- Python floats are modelled as exact real numbers: the k/d values, the win percentage, `interval_size` and the photo scale in `reCropImage`. Where binary floating point rounds differently, in particular at a `round` tie, the program can give a different result.
- Json.Show: `str()` of a status or server name is exact for `None`, booleans, ints, strings and whole floats below 10^16. A fractional float, a list or a dict is shown as "?", because the model does not compute Python's `repr` of them.
- Text.ParseInt: Python's `int()` also accepts `_` between digits and non-ASCII digits. The model accepts only ASCII digits.
- Json.At: a dict indexed by an int raises KeyError for that int. `KeyError` holds a string in this model, so the key is carried as its decimal text.
- Fnbr.ApiRequest.constructor: the mutable default argument `arguments={}` is shared by every request built without arguments. The model gives each request its own list, so aliasing between requests is not captured.
- DefaultCommands.ResetChannels.Run: `run` does not call `reset()`, so with a known type it writes into the `settings` left by an earlier run. The model takes that object to be a dict. Only its `channels` entry is modelled.
- DefaultCommands.SetChannel.Run: the bindings are a map, so the order in which the types were bound is not kept.
- Fortnite.PatchNotesEmbed: the image, author, URL and timestamp settings are not modelled. Neither is the video link that `PatchNotes.run` sends as content.
- Fortnite.StatusEmbed.constructor: the timestamp and the status-page URL are not modelled.
- Text.FormatMap, Text.FormatMapStrict: a malformed template (a lone `{` or `}`), which makes Python raise ValueError, is read as literal text; positional fields (`{}`, `{0}`) and fields with attribute, index, conversion or format parts (`{a.b}`, `{a[0]}`, `{a!r}`, `{a:>5}`) are read as plain names. The descriptions and aliases the program formats are written in its own modules.
- Text.Split: only a one-character separator is modelled, which is all the source uses.
- `Text.Lower`/`Text.Upper`: only ASCII letters are converted. Other Unicode case mappings are not modelled.
- The embed colour is taken to read back as the integer last set. The `discord.Colour` wrapper is not modelled.
