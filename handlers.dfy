/**
 * The bot's three event handlers, with each send turned into a returned
 * value: the "tell me about" message trigger, the `/lore` slash command and
 * the command-error handler.
 */
module Handlers {
  import opened Wrappers
  import opened Ascii
  import opened EmbedModel
  import opened Lore
  import opened LoreIndex

  /** A Discord user, identified by an opaque id. */
  type UserId = nat

  /** An incoming chat message. */
  datatype Message = Message(author: UserId, content: string)

  /** What a handler sends back: an embed or a plain text message. */
  datatype Reply = EmbedReply(embed: EmbedView) | TextReply(text: string)

  /** What `on_message` does with a message. */
  datatype MessageAction =
    | Ignore                      // the bot's own message: nothing happens
    | Dispatch(message: Message)  // handed to `bot.process_commands` unchanged
    | Send(reply: Reply)          // a reply in the message's channel

  /** The trigger phrase, compared against the lower-cased message. */
  const TriggerPhrase: string := "tell me about"

  /** Where the query starts: `content[14:]`, one past the 13-character phrase. */
  const QueryOffset: nat := 14

  /** Python's `s[n:]` for `n >= 0`: empty when `n` is past the end. */
  function Drop(s: string, n: nat): (r: string)
    ensures |r| == if n <= |s| then |s| - n else 0
  {
    if n <= |s| then s[n..] else []
  }

  /** The query a message asks about, or `None` when it is not a trigger:
      `content.lower().startswith("tell me about")`, then `content[14:].strip()`. */
  function TriggerQuery(content: string): (query: Option<string>)
  {
    if StartsWith(Lower(content), TriggerPhrase) then Some(Trim(Drop(content, QueryOffset))) else None
  }

  /** Every record the index holds conforms to the knowledge base's schema. */
  predicate IndexConforms(index: map<string, Entry>)
  {
    forall k :: k in index && index[k].Record? ==> Conforms(index[k].record)
  }

  /** The embed both handlers send for a query the index resolves, or `None`. */
  function FoundEmbed(index: map<string, Entry>, query: string, color: Color): Option<EmbedView>
  {
    var found := Resolve(index, query);
    if found.Found? then Some(LoreEmbed(found.record, query, color)) else None
  }

  /** The words both apologies open with, up to the quoted query. */
  const NotFoundOpening: string := "Sorry, I couldn't find any lore for "

  /** The message trigger's reply when nothing is found. */
  function MessageNotFound(query: string): string
  {
    NotFoundOpening + "'" + query + "'" + ". Please check your spelling or try another name!"
  }

  /** The slash command's reply when nothing is found. */
  function SlashNotFound(query: string): string
  {
    NotFoundOpening + "'" + query + "'" + ". Please check your spelling!"
  }

  /** What `on_message` does with a message. */
  function MessageResponse(message: Message, botUser: UserId, index: map<string, Entry>): MessageAction
  {
    if message.author == botUser then Ignore
    else match TriggerQuery(message.content)
      case None => Dispatch(message)
      case Some(query) =>
        match FoundEmbed(index, query, Green)
        case Some(embed) => Send(EmbedReply(embed))
        case None => Send(TextReply(MessageNotFound(query)))
  }

  /** What `/lore character_name` replies. */
  function SlashResponse(characterName: string, index: map<string, Entry>): Reply
  {
    match FoundEmbed(index, characterName, Blue)
    case Some(embed) => EmbedReply(embed)
    case None => TextReply(SlashNotFound(characterName))
  }

  /** The lookup and render both handlers share: resolve the query and, if
      a record is found, build its embed in the caller's colour. */
  method Answer(index: map<string, Entry>, query: string, color: Color) returns (embed: Option<EmbedView>)
    requires IndexConforms(index)
    ensures embed == FoundEmbed(index, query, color)
  {
    var found := Resolve(index, query);
    if found.Found? {
      var rendered := RenderLore(found.record, query, color);
      embed := Some(rendered.View());
    } else {
      embed := None;
    }
  }

  /** `on_message`. */
  method OnMessage(message: Message, botUser: UserId, index: map<string, Entry>) returns (action: MessageAction)
    requires IndexConforms(index)
    ensures action == MessageResponse(message, botUser, index)
  {
    if message.author == botUser {
      return Ignore;
    }
    if StartsWith(Lower(message.content), TriggerPhrase) {
      var characterName := Trim(Drop(message.content, QueryOffset));
      var embed := Answer(index, characterName, Green);
      if embed.Some? {
        action := Send(EmbedReply(embed.value));
      } else {
        action := Send(TextReply(MessageNotFound(characterName)));
      }
    } else {
      action := Dispatch(message);
    }
  }

  /** `slash_lore`. */
  method SlashLore(characterName: string, index: map<string, Entry>) returns (reply: Reply)
    requires IndexConforms(index)
    ensures reply == SlashResponse(characterName, index)
  {
    var embed := Answer(index, characterName, Blue);
    if embed.Some? {
      reply := EmbedReply(embed.value);
    } else {
      reply := TextReply(SlashNotFound(characterName));
    }
  }

  /** The bot never answers itself, and a message that is not a trigger is
      passed to command dispatch exactly as it came. */
  lemma MessageRouting(message: Message, botUser: UserId, index: map<string, Entry>)
    ensures message.author == botUser ==> MessageResponse(message, botUser, index) == Ignore
    ensures message.author != botUser && !StartsWith(Lower(message.content), TriggerPhrase)
      ==> MessageResponse(message, botUser, index) == Dispatch(message)
    ensures message.author != botUser && StartsWith(Lower(message.content), TriggerPhrase)
      ==> MessageResponse(message, botUser, index).Send?
  {
  }

  /** The phrase test ignores case: a message and its upper-cased copy are
      either both triggers or both not. */
  lemma TriggerCaseInsensitive(content: string)
    ensures TriggerQuery(Upper(content)).Some? <==> TriggerQuery(content).Some?
  {
    LowerForgetsCase(content);
    if |TriggerPhrase| <= |content| {
      LowerPrefix(Lower(Upper(content)), |TriggerPhrase|);
    }
  }

  /** The phrase in any casing, a space and a name ask about the name,
      stripped: `"TELL ME ABOUT Ikora"` asks about `"Ikora"`. */
  lemma TriggerOnPhrase(phrase: string, name: string)
    requires Lower(phrase) == TriggerPhrase
    ensures TriggerQuery(phrase + " " + name) == Some(Trim(name))
  {
    var content := phrase + " " + name;
    LowerAppend(phrase, " " + name);
    assert |phrase| == |TriggerPhrase|;
    assert Lower(content)[..|TriggerPhrase|] == TriggerPhrase;
    assert content[QueryOffset..] == name;
  }

  /** The slice starts one past the phrase, so the character right after
      the phrase is always dropped, whatever it is: a name written straight
      after the phrase loses its first letter (`"tell me aboutSaladin"` asks
      about `"aladin"`). */
  lemma TriggerDropsOneCharacter(c: char, rest: string)
    ensures TriggerQuery(TriggerPhrase + [c] + rest) == Some(Trim(rest))
  {
    var content := TriggerPhrase + [c] + rest;
    LowerAppend(TriggerPhrase, [c] + rest);
    assert Lower(TriggerPhrase) == TriggerPhrase;
    assert content[QueryOffset..] == rest;
  }

  /** `"Tell me about Saladin"` asks about `"Saladin"`. */
  lemma TriggerExample(content: string)
    requires content == "Tell me about Saladin"
    ensures TriggerQuery(content) == Some("Saladin")
  {
    assert Lower(content)[..|TriggerPhrase|] == TriggerPhrase;
    assert Drop(content, QueryOffset) == "Saladin";
    TrimStable("Saladin");
  }

  /** The query a trigger yields has no whitespace left at either end. */
  lemma TriggerQueryTrimmed(content: string)
    requires TriggerQuery(content).Some?
    ensures Trim(TriggerQuery(content).value) == TriggerQuery(content).value
  {
    TrimIdempotent(Drop(content, QueryOffset));
  }

  /** End to end: a trigger whose query names the last entry under its
      lowered name, with a non-empty record, is answered with that record's
      green embed titled with the query as typed. */
  lemma MessageFindsEntry(entries: seq<(string, Entry)>, message: Message, botUser: UserId, i: nat)
    requires message.author != botUser
    requires TriggerQuery(message.content).Some?
    requires LastWriter(entries, i, Lower(TriggerQuery(message.content).value))
    requires entries[i].1.Record?
    ensures MessageResponse(message, botUser, BuildIndex(entries))
      == Send(EmbedReply(LoreEmbed(entries[i].1.record, TriggerQuery(message.content).value, Green)))
  {
    ResolveFinds(entries, TriggerQuery(message.content).value, i);
  }

  /** A trigger whose query the knowledge base does not know gets the
      message path's apology, naming the query, and no embed. */
  lemma MessageMisses(entries: seq<(string, Entry)>, message: Message, botUser: UserId)
    requires message.author != botUser
    requires TriggerQuery(message.content).Some?
    requires forall j :: 0 <= j < |entries| ==> Lower(entries[j].0) != Lower(TriggerQuery(message.content).value)
    ensures MessageResponse(message, botUser, BuildIndex(entries))
      == Send(TextReply(MessageNotFound(TriggerQuery(message.content).value)))
  {
    ResolveMissing(entries, TriggerQuery(message.content).value);
  }

  /** The slash command finds a record under any casing of its name and
      answers with the blue embed titled with the name as typed. */
  lemma SlashFindsEntry(entries: seq<(string, Entry)>, characterName: string, i: nat)
    requires LastWriter(entries, i, Lower(characterName))
    requires entries[i].1.Record?
    ensures SlashResponse(characterName, BuildIndex(entries))
      == EmbedReply(LoreEmbed(entries[i].1.record, characterName, Blue))
  {
    ResolveFinds(entries, characterName, i);
  }

  /** A `/lore` name whose lower case is no entry's lowered name gets the
      slash command's apology, naming it, and no embed. */
  lemma SlashMisses(entries: seq<(string, Entry)>, characterName: string)
    requires forall j :: 0 <= j < |entries| ==> Lower(entries[j].0) != Lower(characterName)
    ensures SlashResponse(characterName, BuildIndex(entries)) == TextReply(SlashNotFound(characterName))
  {
    ResolveMissing(entries, characterName);
  }

  /** Every record of a knowledge base that follows the schema is indexed
      conforming, so the handlers can be called on the index it builds. */
  lemma {:induction false} BuildIndexConforms(entries: seq<(string, Entry)>)
    requires forall j :: 0 <= j < |entries| && entries[j].1.Record? ==> Conforms(entries[j].1.record)
    ensures IndexConforms(BuildIndex(entries))
  {
    if entries != [] {
      var n := |entries| - 1;
      forall j | 0 <= j < n && entries[..n][j].1.Record? ensures Conforms(entries[..n][j].1.record) {
        assert entries[..n][j] == entries[j];
      }
      BuildIndexConforms(entries[..n]);
    }
  }

  /** The slash command does not strip its argument: a name typed with a
      leading space is not found when no knowledge-base name starts with
      whitespace, while the message trigger strips it. */
  lemma SlashPaddedNameMisses(entries: seq<(string, Entry)>, characterName: string)
    requires characterName != [] && IsSpace(characterName[0])
    requires forall j :: 0 <= j < |entries| ==> entries[j].0 == [] || !IsSpace(entries[j].0[0])
    ensures SlashResponse(characterName, BuildIndex(entries)) == TextReply(SlashNotFound(characterName))
  {
    PaddedQueryMisses(entries, characterName);
  }

  /** Both apologies quote the query right after their common opening,
      and they differ. */
  lemma NotFoundQuotesQuery(query: string)
    ensures MessageNotFound(query)[|NotFoundOpening|..|NotFoundOpening| + |query| + 2] == "'" + query + "'"
    ensures SlashNotFound(query)[|NotFoundOpening|..|NotFoundOpening| + |query| + 2] == "'" + query + "'"
    ensures MessageNotFound(query) != SlashNotFound(query)
  {
    var quoted := "'" + query + "'";
    assert MessageNotFound(query) == NotFoundOpening + quoted + ". Please check your spelling or try another name!";
    assert SlashNotFound(query) == NotFoundOpening + quoted + ". Please check your spelling!";
    assert |MessageNotFound(query)| != |SlashNotFound(query)|;
  }
}
