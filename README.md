# G.O-Bot lore pipeline in Dafny

G.O-Bot is a Discord bot that answers questions about Destiny 2 characters
from a JSON knowledge base. This project models the bot's lore pipeline and
proves properties of it:

- the case-insensitive index built from the knowledge base, and the lookup
  both handlers use;
- the "tell me about" message trigger;
- the `/lore` slash command;
- the rendering of a character record into an embed (title, description,
  Faction / Role / Key Events fields, one group of fields per
  `additional_lore` section, footer, thumbnail);
- the length-safety rule `safe_add_field`, which splits a value longer than
  1024 characters into several fields;
- the three-way reply of the command-error handler.

The modules are:

- `Wrappers`: `Option`.
- `Ascii`: the Python string operations the bot uses (`lower`, `title`,
  `replace`, `strip`, `startswith`, `join`), restricted to ASCII.
- `Sequences`: a generic concatenating map used for the per-section field groups.
- `Chunking`: `MAX_FIELD_LENGTH`, the slicing comprehension and the fields one
  `safe_add_field` call produces.
- `EmbedModel`: the embed as a class whose methods append fields or set the
  footer and thumbnail. `SafeAddField` is the loop that adds the slices.
- `Lore`: the character record, the per-section formatting rules, the
  function `LoreEmbed` that describes a whole rendered embed, and the
  imperative render sequence `RenderLore` proved equal to it.
- `LoreIndex`: the map with lower-cased keys, last write wins, and the lookup
  with its truthiness test.
- `Handlers`: `on_message` and `slash_lore`, each returning the action or
  reply it would send.
- `CommandErrors`: `on_command_error`.

The sends are modelled as return values:

- `on_message` returns `Ignore`, `Dispatch(message)` or `Send(reply)`.
- `slash_lore` returns its reply: an embed or a text.
- `on_command_error` returns the text it would send.

## Model

| member | source | states |
|---|---|---|
| `Chunking.Chunks` | discord-bot/src/bot.py:44 | the slicing comprehension; no ensures of its own: `ChunksAt`, `ChunksLossless` and `ChunksBounded` state its count, slices, round trip and bounds |
| `Chunking.ChunkFields` | discord-bot/src/bot.py:41-47 | the fields one `safe_add_field` call adds, by the length test; no ensures of its own: `ChunkFieldsShort`, `ChunkFieldsCount`, `ChunkFieldsLossless` and `ChunkFieldsNaming` state its properties, and `SafeAddField` is proved to append exactly these |
| `Chunking.ChunksAt` | discord-bot/src/bot.py:44 | the slicing comprehension yields `ceil(len/1024)` slices, and slice `i` is `value[i*1024 : min((i+1)*1024, len)]` |
| `Chunking.ChunksLossless` | discord-bot/src/bot.py:44 | the slices, concatenated in order, give back the value |
| `Chunking.ChunksBounded` | discord-bot/src/bot.py:44 | every slice is non-empty and at most 1024 long; every slice but the last is exactly 1024 long |
| `Chunking.ChunkFieldsShort` | discord-bot/src/bot.py:41-42 | a value of at most 1024 characters, the empty one included, becomes exactly one field with its name, value and inline flag unchanged |
| `Chunking.ChunkFieldsCount` | discord-bot/src/bot.py:41-44 | one call adds one field for an empty value and `ceil(len/1024)` fields otherwise |
| `Chunking.ChunkFieldsLossless` | discord-bot/src/bot.py:41-47 | the values of one call's fields, concatenated in order, give back the value; each is at most 1024 long; all but the last are full |
| `Chunking.ChunkFieldsNaming` | discord-bot/src/bot.py:45-47 | at least one field is added; the first keeps `name`; every later one is named `name + " (cont.)"`; all carry the caller's inline flag |
| `EmbedModel.Embed.constructor` | discord-bot/src/bot.py:77-81 | a new embed has the given title, description and colour, no fields, no footer and no thumbnail |
| `EmbedModel.Embed.AddField` | discord-bot/src/bot.py:82-83 | `add_field` appends exactly one field and changes nothing else |
| `EmbedModel.Embed.SetFooter` | discord-bot/src/bot.py:101 | `set_footer` sets the footer and changes nothing else |
| `EmbedModel.Embed.SetThumbnail` | discord-bot/src/bot.py:102-103 | `set_thumbnail` sets the thumbnail and changes nothing else |
| `EmbedModel.SafeAddField` | discord-bot/src/bot.py:39-47 | the call only appends: the new fields are the old ones followed by that value's chunk fields, and the rest of the embed is unchanged |
| `Ascii.Lower` | discord-bot/src/bot.py:32 | `str.lower()` over ASCII, used for the index keys (line 32), the trigger test (line 72) and both lookups (lines 74 and 114); no ensures of its own (`LowerChar` states the per-character mapping): `LowerForgetsCase`, `LowerPrefix` and `LowerAppend` state its properties |
| `Ascii.LowerChar` | discord-bot/src/bot.py:32 | the lower case of one character is never an upper-case letter, is a letter exactly when the input is, and leaves every non-letter unchanged |
| `Ascii.StartsWith` | discord-bot/src/bot.py:72 | `str.startswith`; no ensures of its own: `TriggerOnPhrase`, `TriggerDropsOneCharacter` and `TriggerCaseInsensitive` use it through `Handlers.TriggerQuery` |
| `Ascii.ReplaceChar` | discord-bot/src/bot.py:97 | `replace("_", " ")`; no ensures of its own: `HumanizeAt` states its effect on a section key |
| `Ascii.TitleFrom` | discord-bot/src/bot.py:97 | CPython's `title()` scan over ASCII; its ensures keeps the length, and `TitleFromAt` and `TitleFromAppend` state what it does to each character |
| `Ascii.Humanize` | discord-bot/src/bot.py:97 | `key.replace("_", " ").title()`; no ensures of its own: `HumanizeAt` states it pointwise and `Lore.GhostsTaleName` gives a worked key |
| `Ascii.LowerForgetsCase` | discord-bot/src/bot.py:32 | lower-casing maps `s`, `upper(s)` and `lower(s)` to the same string |
| `Ascii.TitleFromAt` | discord-bot/src/bot.py:97 | `title()`, pointwise: a letter after a cased character is lower-cased, any other letter is upper-cased, and every other character is kept |
| `Ascii.TitleFromAppend` | discord-bot/src/bot.py:97 | `title()` of a concatenation is the title of the first part, then the second part scanned from whether the first part ended in a cased character |
| `Ascii.HumanizeAt` | discord-bot/src/bot.py:97 | a humanized key has the key's length and no underscore left; `_` becomes a space; a letter opening a word is upper-cased and a letter inside a word is lower-cased |
| `Ascii.LeadingSpaces` | discord-bot/src/bot.py:73 | the length of the leading whitespace: every character before it is whitespace and the one at it is not |
| `Ascii.KeptLength` | discord-bot/src/bot.py:73 | the length without the trailing whitespace: every character after it is whitespace and the one before it is not |
| `Ascii.Trim` | discord-bot/src/bot.py:73 | `str.strip()` over ASCII whitespace; no ensures of its own: `TrimSpec`, `TrimEnds`, `TrimIdempotent` and `TrimStable` state its properties |
| `Ascii.TrimSpec` | discord-bot/src/bot.py:73 | `strip()` returns the part of the string after its leading whitespace, and everything before and after that part is whitespace |
| `Ascii.TrimEnds` | discord-bot/src/bot.py:73 | a non-empty stripped string neither starts nor ends with whitespace |
| `Ascii.TrimIdempotent` | discord-bot/src/bot.py:73 | stripping twice is the same as stripping once |
| `Ascii.TrimStable` | discord-bot/src/bot.py:73 | a string with no whitespace at either end is its own `strip()` |
| `Ascii.Join` | discord-bot/src/bot.py:84 | `sep.join(xs)`; no ensures of its own: `JoinSnoc` and `JoinLength` state its properties |
| `Ascii.JoinSnoc` | discord-bot/src/bot.py:84 | joining one more element adds the separator and that element at the end |
| `Ascii.JoinLength` | discord-bot/src/bot.py:84 | a join is as long as all the elements plus one separator between each pair |
| `Lore.MemberParagraph` | discord-bot/src/bot.py:91-92 | one member's paragraph, `**name**` then the Role, Fate and Reflection lines; no ensures of its own: the fireteam lemmas below state how paragraphs are joined |
| `Lore.FireteamText` | discord-bot/src/bot.py:90-93 | the fireteam section's value; no ensures of its own: `FireteamOneMember`, `FireteamTwoMembers` and `FireteamSnoc` state its shape |
| `Lore.FireteamOneMember` | discord-bot/src/bot.py:90-93 | a fireteam of one member is that member's paragraph, with no separator |
| `Lore.FireteamTwoMembers` | discord-bot/src/bot.py:90-93 | two fireteam members give two paragraphs with a blank line between them |
| `Lore.FireteamSnoc` | discord-bot/src/bot.py:90-93 | for any non-empty fireteam, one more member adds a blank line and that member's paragraph at the end |
| `Lore.QuotesText` | discord-bot/src/bot.py:96 | the quotes section's value; no ensures of its own: `QuotesSnoc` states its shape |
| `Lore.QuotesOne` | discord-bot/src/bot.py:96 | a single quote is that quote in double quotes, with no newline |
| `Lore.QuotesSnoc` | discord-bot/src/bot.py:96 | one more quote adds a newline and the quote wrapped in double quotes |
| `Lore.GhostsTaleName` | discord-bot/src/bot.py:97 | the section key `ghost's_tale` is shown as `Ghost'S Tale` |
| `Lore.SectionName` | discord-bot/src/bot.py:94-99 | `Fireteam` for the fireteam section and the humanized key for every other one; no ensures of its own: `Ascii.HumanizeAt` and `GhostsTaleName` state what it gives |
| `Lore.SectionText` | discord-bot/src/bot.py:88-99 | the text a section renders to, chosen by its shape; no ensures of its own: `AddSection` is proved to add its chunk fields |
| `Lore.SectionFields` | discord-bot/src/bot.py:94-99 | a section's text through the chunking rule, not inline; no ensures of its own: `LoreFieldsBounded` and `LoreFieldsLossless` state its properties |
| `Lore.LoreFields` | discord-bot/src/bot.py:88-99 | the fields of all sections in insertion order; no ensures of its own: the `LoreFields` lemmas below state its order, bounds and round trip |
| `Lore.LoreEmbed` | discord-bot/src/bot.py:77-103 | the embed the render sequence builds; no ensures of its own: `LoreEmbedLayout` states its layout and `RenderLore` is proved to build exactly it |
| `Lore.LoreFieldsAppend` | discord-bot/src/bot.py:88-99 | the fields of two runs of sections are the fields of the first run and then those of the second |
| `Lore.LoreFieldsSnoc` | discord-bot/src/bot.py:88-99 | one more section adds its own group of fields at the end |
| `Lore.LoreFieldsSplit` | discord-bot/src/bot.py:88-99 | insertion order: section `i`'s fields come after those of every earlier section and before those of every later one |
| `Lore.LoreFieldsLossless` | discord-bot/src/bot.py:88-99 | the section fields, read in order, spell out every section's text in insertion order |
| `Lore.LoreFieldsBounded` | discord-bot/src/bot.py:88-99 | every section field is at most 1024 long and not inline |
| `Lore.LoreEmbedLayout` | discord-bot/src/bot.py:77-103 | the embed has title `"Lore of " + name` and the record's description and colour; fields are Faction and Role (inline), then exactly the fields `safe_add_field` makes of the events joined by `", "` (first named Key Events, later ones Key Events (cont.)), which spell the joined events out, then the sections' fields spelling out their texts; every field after the first two is within the limit and not inline; the footer is `"First Appearance: " + first_appearance`; there is a thumbnail exactly when there is an image URL, and it is that URL |
| `Lore.RenderHead` | discord-bot/src/bot.py:77-84 | the embed is created, then Faction, Role and the chunked Key Events fields are added, in that order, and nothing else |
| `Lore.AddSection` | discord-bot/src/bot.py:89-99 | a section adds the chunk fields of its text under its name: `Fireteam`, or the humanized key |
| `Lore.AddSections` | discord-bot/src/bot.py:87-99 | the loop appends every section's fields in insertion order and changes nothing else |
| `Lore.RenderLore` | discord-bot/src/bot.py:77-103 | the whole render sequence builds exactly the embed `LoreEmbed` describes |
| `LoreIndex.BuildIndex` | discord-bot/src/bot.py:32 | the dictionary comprehension that lower-cases every key; no ensures of its own: `IndexKeys`, `LastWriteWins` and `ResolveOrigin` state its keys and values |
| `LoreIndex.Resolve` | discord-bot/src/bot.py:74-76 | `lowercase_lore.get(query.lower())` and the truthiness test, as on lines 114-116 too; no ensures of its own: `ResolveCaseInsensitive`, `ResolveFinds`, `ResolveFalsy`, `ResolveMissing`, `ResolveOrigin` and `PaddedQueryMisses` state its results |
| `LoreIndex.IndexKeys` | discord-bot/src/bot.py:32 | the index's keys are exactly the lower-cased names of the knowledge base, and every key is lower case |
| `LoreIndex.LastWriteWins` | discord-bot/src/bot.py:32 | a lowered name maps to the value of the last entry whose name lowers to it |
| `LoreIndex.ResolveCaseInsensitive` | discord-bot/src/bot.py:74 | looking up `s`, `s.upper()`, `s.lower()` or any string with the same lower case gives the same result |
| `LoreIndex.ResolveFinds` | discord-bot/src/bot.py:74-76 | a query that names an entry in any case finds that entry's record, when it is the last entry under that lowered name and is not empty |
| `LoreIndex.ResolveFalsy` | discord-bot/src/bot.py:76 | a present but empty record is reported as not found |
| `LoreIndex.ResolveMissing` | discord-bot/src/bot.py:74 | a query whose lower case is no entry's lowered name is not found, and no error is raised |
| `LoreIndex.ResolveOrigin` | discord-bot/src/bot.py:32 | whatever a lookup finds is the record of the last entry whose name has the query's lower case |
| `LoreIndex.PaddedQueryMisses` | discord-bot/src/bot.py:114 | when no knowledge-base name starts with whitespace, an unstripped query that does is never found |
| `Handlers.Drop` | discord-bot/src/bot.py:73 | Python's `s[14:]`: the length is `len(s) - 14`, or 0 when the string is shorter |
| `Handlers.TriggerQuery` | discord-bot/src/bot.py:72-73 | the trigger test and the query it yields; no ensures of its own: the `Trigger` lemmas below state its results |
| `Handlers.FoundEmbed` | discord-bot/src/bot.py:114-143 | the embed a query resolves to, or nothing; no ensures of its own: `Answer` is proved to compute it, and the `FindsEntry` and `Misses` lemmas state its results |
| `Handlers.MessageNotFound` | discord-bot/src/bot.py:107 | the message path's apology; no ensures of its own: `NotFoundQuotesQuery` states that it quotes the query |
| `Handlers.SlashNotFound` | discord-bot/src/bot.py:148 | the slash path's apology; no ensures of its own: `NotFoundQuotesQuery` states that it quotes the query and differs from the message path's |
| `Handlers.MessageResponse` | discord-bot/src/bot.py:67-109 | what `on_message` does; no ensures of its own: `OnMessage` is proved to compute it, and `MessageRouting`, `MessageFindsEntry` and `MessageMisses` state its results |
| `Handlers.SlashResponse` | discord-bot/src/bot.py:113-149 | what `slash_lore` replies; no ensures of its own: `SlashLore` is proved to compute it, and `SlashFindsEntry`, `SlashMisses` and `SlashPaddedNameMisses` state its results |
| `Handlers.Answer` | discord-bot/src/bot.py:114-145 | the shared lookup and render give the rendered embed of the record the lookup finds, or nothing when it finds none |
| `Handlers.OnMessage` | discord-bot/src/bot.py:67-109 | `on_message` does what `MessageResponse` describes |
| `Handlers.SlashLore` | discord-bot/src/bot.py:113-149 | `slash_lore` replies with what `SlashResponse` describes |
| `Handlers.MessageRouting` | discord-bot/src/bot.py:68-109 | the bot's own messages are ignored; a message that does not start with the phrase, in any case, goes to command dispatch unchanged; every other message gets a reply |
| `Handlers.TriggerCaseInsensitive` | discord-bot/src/bot.py:72 | a message and its upper-cased copy are either both triggers or both not |
| `Handlers.TriggerOnPhrase` | discord-bot/src/bot.py:72-73 | the phrase in any casing (`"TELL ME ABOUT"`, `"Tell me about"`, …), a space and a name ask about `strip(name)` |
| `Handlers.TriggerDropsOneCharacter` | discord-bot/src/bot.py:73 | the query starts at index 14, so the one character after the 13-character phrase is always dropped, whatever it is: `"tell me aboutSaladin"` asks about `"aladin"` |
| `Handlers.TriggerExample` | discord-bot/src/bot.py:72-73 | `"Tell me about Saladin"` asks about `"Saladin"` |
| `Handlers.TriggerQueryTrimmed` | discord-bot/src/bot.py:73 | a trigger's query has no whitespace at either end |
| `Handlers.MessageFindsEntry` | discord-bot/src/bot.py:72-105 | a trigger whose query names the last entry under its lowered name, with a non-empty record, is answered with that record's green embed titled with the query as typed |
| `Handlers.MessageMisses` | discord-bot/src/bot.py:106-107 | a trigger whose query is not in the knowledge base gets the message path's apology naming the query, and no embed |
| `Handlers.SlashFindsEntry` | discord-bot/src/bot.py:114-145 | `/lore` finds a record under any casing of its name and replies with the blue embed titled with the name as typed |
| `Handlers.SlashMisses` | discord-bot/src/bot.py:146-149 | a `/lore` name whose lower case is no entry's lowered name gets the slash apology naming it, and no embed |
| `Handlers.SlashPaddedNameMisses` | discord-bot/src/bot.py:146-149 | `/lore` does not strip its argument: a name with a leading space gets the slash apology when no knowledge-base name starts with whitespace |
| `Handlers.NotFoundQuotesQuery` | discord-bot/src/bot.py:106-107 | both apologies carry the query in single quotes right after their common opening, and the two apologies differ |
| `Handlers.BuildIndexConforms` | discord-bot/src/bot.py:32 | when every record of the knowledge base follows the schema, so does every record of the index built from it, which is what the handler methods require |
| `CommandErrors.CommandErrorText` | discord-bot/src/bot.py:153-159 | the reply for each kind of command error; no ensures of its own: `CommandErrorTextsDistinct` states that the three replies differ |
| `CommandErrors.CommandErrorTextsDistinct` | discord-bot/src/bot.py:153-159 | the missing-argument, unknown-command and default arms give three different replies |

## Left out

- Environment loading, the `BOT_TOKEN` / `GUILD_ID` checks and `exit(1)` (discord-bot/src/bot.py:9-22): process configuration.
- Reading `lore.json` with `json.load` (discord-bot/src/bot.py:25-35): file I/O and a foreign parser. The model takes the parsed object as the ordered sequence of its `(name, value)` entries.
- Bot construction, intents, `on_ready` (tree sync, presence, prints) and `bot.run` (discord-bot/src/bot.py:50-63, 162): SDK and network calls.
- The `async` sends (`channel.send`, `interaction.response.send_message`, `ctx.send`) and `bot.process_commands`: there is no event loop; each handler returns what it would send, and a forwarded message is returned as `Dispatch(message)`.
- `discord.Color.green()` / `blue()`: modelled as the tags `Green` and `Blue`.
- Python's Unicode `lower()`, `upper()`, `title()` and `strip()`: the model handles ASCII letters and ASCII whitespace. Non-ASCII letters are treated as uncased, and non-ASCII whitespace is not stripped.
- `isinstance` on the SDK's exception classes: replaced by the `CommandError` datatype.
- `Lore.RenderLore`, `Lore.AddSections`, `Lore.AddSection`, `Handlers.Answer`, `Handlers.OnMessage`, `Handlers.SlashLore`: these require every record to follow the knowledge base's schema: the `fireteam` section is a member mapping, `quotes` is a list, every other section is a string. Python's behaviour on a record outside the schema is not modelled. A `fireteam` section that is not a mapping raises at `.items()` (discord-bot/src/bot.py:90). A `quotes` section quotes each element of whatever it iterates over, so a string `"ab"` gives `"a"`, a newline and `"b"`, and a mapping gives its keys (discord-bot/src/bot.py:96). For any other section (discord-bot/src/bot.py:99), a list or mapping of at most 1024 elements is passed whole and `str()`-ed by discord.py; a longer list is sliced and each slice `str()`-ed; a number, a boolean, null or a longer mapping raises at the `len` or the slice (discord-bot/src/bot.py:41, 44).
- `Lore.LoreEmbed`, `Handlers.FoundEmbed`, `Handlers.MessageResponse`, `Handlers.SlashResponse`, `Handlers.MessageFindsEntry`, `Handlers.SlashFindsEntry`: these are total and render a section outside the schema by the shape of its content (`Lore.SectionText`), so for such a record they state an embed where Python raises or formats differently; they agree with the bot on every record that follows the schema, which is what `Lore.AddSection` proves.
- A record missing `description`, `faction`, `role`, `key_events` or `first_appearance` (Python raises `KeyError`): the record datatype always has these attributes. A missing `additional_lore` is the empty sequence, and a missing `image_url` is `None`.
- Discord's server-side limits (25 fields, 256-character names, 6000 characters per embed): the bot does not check them and neither does the model.
- The two handlers repeat the render code line for line (discord-bot/src/bot.py:77-103 and 117-143). The model writes it once, as `Lore.RenderLore`, which both handlers call through `Handlers.Answer`.
