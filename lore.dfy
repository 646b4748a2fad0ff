/**
 * A character's lore record, as parsed from the knowledge base, and how the
 * bot renders it into an embed: title, description, the Faction / Role /
 * Key Events fields, one group of fields per additional-lore section in
 * insertion order, a footer and an optional thumbnail.
 */
module Lore {
  import opened Wrappers
  import opened Ascii
  import opened Chunking
  import opened EmbedModel
  import opened Sequences

  /** One fireteam member's details: `{"role": ..., "fate": ..., "reflection": ...}`. */
  datatype Member = Member(role: string, fate: string, reflection: string)

  /** The content of one `additional_lore` section: a string, a list of
      quotes, or a mapping from member name to details (kept in its order). */
  datatype LoreContent =
    | Text(text: string)
    | QuoteList(quotes: seq<string>)
    | Fireteam(members: seq<(string, Member)>)

  /** A character record. `additionalLore` is `additional_lore.items()` in
      insertion order; an absent `additional_lore` is the empty sequence. */
  datatype CharacterRecord = CharacterRecord(
    description: string,
    faction: string,
    role: string,
    keyEvents: seq<string>,
    firstAppearance: string,
    imageUrl: Option<string>,
    additionalLore: seq<(string, LoreContent)>)

  /** The knowledge base's schema ties a section's shape to its key: the
      `fireteam` section is a member mapping, the `quotes` section a list,
      every other section a string. */
  predicate SectionConforms(key: string, content: LoreContent)
  {
    if key == "fireteam" then content.Fireteam?
    else if key == "quotes" then content.QuoteList?
    else content.Text?
  }

  predicate SectionsConform(sections: seq<(string, LoreContent)>)
  {
    forall i :: 0 <= i < |sections| ==> SectionConforms(sections[i].0, sections[i].1)
  }

  predicate Conforms(record: CharacterRecord)
  {
    SectionsConform(record.additionalLore)
  }

  /** One member's paragraph: `**member**`, then Role, Fate and Reflection lines. */
  function MemberParagraph(name: string, details: Member): string
  {
    "**" + name + "**\nRole: " + details.role + "\nFate: " + details.fate + "\nReflection: " + details.reflection
  }

  /** The fireteam section's value: one paragraph per member, separated by a blank line. */
  function FireteamText(members: seq<(string, Member)>): string
  {
    Join("\n\n", seq(|members|, i requires 0 <= i < |members| => MemberParagraph(members[i].0, members[i].1)))
  }

  /** The quotes section's value: each quote in double quotes, one per line. */
  function QuotesText(quotes: seq<string>): string
  {
    Join("\n", seq(|quotes|, i requires 0 <= i < |quotes| => "\"" + quotes[i] + "\""))
  }

  /** The field name a section is shown under. */
  function SectionName(key: string): string
  {
    if key == "fireteam" then "Fireteam" else Humanize(key)
  }

  /** The text a section renders to, before chunking. On a section that
      conforms to the schema this is the formatting the key selects. */
  function SectionText(content: LoreContent): string
  {
    match content
    case Fireteam(members) => FireteamText(members)
    case QuoteList(quotes) => QuotesText(quotes)
    case Text(text) => text
  }

  /** The fields of one section: its text through the chunking rule, not inline. */
  function SectionFields(section: (string, LoreContent)): seq<Field>
  {
    ChunkFields(SectionName(section.0), SectionText(section.1), false)
  }

  /** The fields of all sections, one group after another in insertion order. */
  function LoreFields(sections: seq<(string, LoreContent)>): seq<Field>
  {
    ConcatMap(SectionFields, sections)
  }

  /** The texts of all sections, in insertion order. */
  function SectionTexts(sections: seq<(string, LoreContent)>): (texts: seq<string>)
    ensures |texts| == |sections|
  {
    seq(|sections|, i requires 0 <= i < |sections| => SectionText(sections[i].1))
  }

  /** The embed the bot renders for `record` when asked about `name`. */
  function LoreEmbed(record: CharacterRecord, name: string, color: Color): EmbedView
  {
    EmbedView(
      "Lore of " + name,
      record.description,
      color,
      [Field("Faction", record.faction, true), Field("Role", record.role, true)]
        + ChunkFields("Key Events", Join(", ", record.keyEvents), false)
        + LoreFields(record.additionalLore),
      Some("First Appearance: " + record.firstAppearance),
      record.imageUrl)
  }

  /** Sections are rendered group by group: the fields of a concatenation are
      the fields of its parts, in the same order. */
  lemma LoreFieldsAppend(a: seq<(string, LoreContent)>, b: seq<(string, LoreContent)>)
    ensures LoreFields(a + b) == LoreFields(a) + LoreFields(b)
  {
    ConcatMapAppend(SectionFields, a, b);
  }

  /** One more section adds its own group of fields at the end. */
  lemma LoreFieldsSnoc(sections: seq<(string, LoreContent)>, section: (string, LoreContent))
    ensures LoreFields(sections + [section]) == LoreFields(sections) + SectionFields(section)
  {
    ConcatMapSnoc(SectionFields, sections, section);
  }

  /** Insertion order: section `i`'s fields come after those of every earlier
      section and before those of every later one. */
  lemma LoreFieldsSplit(sections: seq<(string, LoreContent)>, i: nat)
    requires i < |sections|
    ensures LoreFields(sections) ==
      LoreFields(sections[..i]) + SectionFields(sections[i]) + LoreFields(sections[i + 1..])
  {
    ConcatMapSplit(SectionFields, sections, i);
  }

  /** One section's fields spell out its text. */
  lemma SectionLossless(section: (string, LoreContent))
    ensures Flatten(Values(SectionFields(section))) == SectionText(section.1)
  {
    ChunkFieldsLossless(SectionName(section.0), SectionText(section.1), false);
  }

  lemma FlattenTextsSnoc(init: seq<(string, LoreContent)>, last: (string, LoreContent))
    ensures Flatten(SectionTexts(init + [last])) == Flatten(SectionTexts(init)) + SectionText(last.1)
  {
    assert SectionTexts(init + [last]) == SectionTexts(init) + [SectionText(last.1)];
    FlattenAppend(SectionTexts(init), [SectionText(last.1)]);
    assert Flatten([SectionText(last.1)]) == SectionText(last.1) + Flatten([]);
  }

  lemma FlattenFieldsSnoc(init: seq<(string, LoreContent)>, last: (string, LoreContent))
    ensures Flatten(Values(LoreFields(init + [last]))) == Flatten(Values(LoreFields(init))) + SectionText(last.1)
  {
    LoreFieldsSnoc(init, last);
    ValuesAppend(LoreFields(init), SectionFields(last));
    FlattenAppend(Values(LoreFields(init)), Values(SectionFields(last)));
    SectionLossless(last);
  }

  /** Nothing is lost: the section fields, read in order, spell out every
      section's text one after another. */
  lemma {:induction false} LoreFieldsLossless(sections: seq<(string, LoreContent)>)
    ensures Flatten(Values(LoreFields(sections))) == Flatten(SectionTexts(sections))
  {
    if sections != [] {
      var n := |sections| - 1;
      var init, last := sections[..n], sections[n];
      assert sections == init + [last];
      LoreFieldsLossless(init);
      FlattenFieldsSnoc(init, last);
      FlattenTextsSnoc(init, last);
    }
  }

  /** Every section field is within the platform's field limit and not inline. */
  lemma {:induction false} LoreFieldsBounded(sections: seq<(string, LoreContent)>)
    ensures forall k :: 0 <= k < |LoreFields(sections)| ==>
      |LoreFields(sections)[k].value| <= MaxFieldLength && !LoreFields(sections)[k].inline
  {
    if sections != [] {
      var n := |sections| - 1;
      var init, last := sections[..n], sections[n];
      LoreFieldsBounded(init);
      ChunkFieldsLossless(SectionName(last.0), SectionText(last.1), false);
      ChunkFieldsNaming(SectionName(last.0), SectionText(last.1), false);
      var fs: seq<Field>, gs: seq<Field> := LoreFields(init), SectionFields(last);
      forall k | 0 <= k < |fs + gs| ensures |(fs + gs)[k].value| <= MaxFieldLength && !(fs + gs)[k].inline {
        if k >= |fs| { assert (fs + gs)[k] == gs[k - |fs|]; }
      }
    }
  }

  /**
   * The layout of a rendered embed: the title uses the caller's text,
   * Faction and Role come first and inline, then exactly the fields
   * `safe_add_field` makes of the events joined by ", " (named "Key Events",
   * then "Key Events (cont.)"), then the sections; every field
   * after Faction and Role is within the field limit; the footer carries
   * the first appearance and the thumbnail is there exactly when an image
   * URL is.
   */
  lemma LoreEmbedLayout(record: CharacterRecord, name: string, color: Color)
    ensures var e, events := LoreEmbed(record, name, color), ChunkFields("Key Events", Join(", ", record.keyEvents), false);
      && e.title == "Lore of " + name
      && e.description == record.description
      && e.color == color
      && |e.fields| == 2 + |events| + |LoreFields(record.additionalLore)|
      && e.fields[0] == Field("Faction", record.faction, true)
      && e.fields[1] == Field("Role", record.role, true)
      && e.fields[2].name == "Key Events"
      && e.fields[2..2 + |events|] == events
      && Flatten(Values(e.fields[2..2 + |events|])) == Join(", ", record.keyEvents)
      && Flatten(Values(e.fields[2 + |events|..])) == Flatten(SectionTexts(record.additionalLore))
      && (forall k :: 2 <= k < |e.fields| ==> |e.fields[k].value| <= MaxFieldLength && !e.fields[k].inline)
      && e.footer == Some("First Appearance: " + record.firstAppearance)
      && (e.thumbnail.Some? <==> record.imageUrl.Some?)
      && (record.imageUrl.Some? ==> e.thumbnail.value == record.imageUrl.value)
  {
    var e := LoreEmbed(record, name, color);
    var head := [Field("Faction", record.faction, true), Field("Role", record.role, true)];
    var events := ChunkFields("Key Events", Join(", ", record.keyEvents), false);
    var sections := LoreFields(record.additionalLore);
    assert Within(events) by {
      ChunkFieldsLossless("Key Events", Join(", ", record.keyEvents), false);
      ChunkFieldsNaming("Key Events", Join(", ", record.keyEvents), false);
    }
    assert Within(sections) by {
      LoreFieldsBounded(record.additionalLore);
    }
    ChunkFieldsLossless("Key Events", Join(", ", record.keyEvents), false);
    ChunkFieldsNaming("Key Events", Join(", ", record.keyEvents), false);
    LoreFieldsLossless(record.additionalLore);
    assert e.fields == head + events + sections;
    LayoutParts(head, events, sections);
  }

  /** Every field is within the limit and not inline. */
  predicate Within(fields: seq<Field>)
  {
    forall k :: 0 <= k < |fields| ==> |fields[k].value| <= MaxFieldLength && !fields[k].inline
  }

  /** The three parts of an embed's field list can be read back from it, and
      everything after the two head fields is within the limit when both
      later parts are. */
  lemma LayoutParts(head: seq<Field>, events: seq<Field>, sections: seq<Field>)
    requires |head| == 2
    requires Within(events) && Within(sections)
    ensures (head + events + sections)[2..2 + |events|] == events
    ensures (head + events + sections)[2 + |events|..] == sections
    ensures forall k :: 2 <= k < |head + events + sections| ==>
      |(head + events + sections)[k].value| <= MaxFieldLength && !(head + events + sections)[k].inline
  {
    var fs := head + events + sections;
    assert fs[2..2 + |events|] == events;
    assert fs[2 + |events|..] == sections;
    forall k | 2 <= k < |fs|
      ensures |fs[k].value| <= MaxFieldLength && !fs[k].inline
    {
      if k < 2 + |events| {
        assert fs[k] == events[k - 2];
      } else {
        assert fs[k] == sections[k - 2 - |events|];
      }
    }
  }

  /** A single fireteam member is one paragraph and no separator. */
  lemma FireteamOneMember(name: string, details: Member)
    ensures FireteamText([(name, details)]) == MemberParagraph(name, details)
  {
    var members := [(name, details)];
    assert seq(|members|, i requires 0 <= i < |members| => MemberParagraph(members[i].0, members[i].1)) == [MemberParagraph(name, details)];
  }

  /** Two fireteam members become two paragraphs with a blank line between them. */
  lemma FireteamTwoMembers(a: string, da: Member, b: string, db: Member)
    ensures FireteamText([(a, da), (b, db)]) == MemberParagraph(a, da) + "\n\n" + MemberParagraph(b, db)
  {
    var members := [(a, da), (b, db)];
    var paragraphs := seq(|members|, i requires 0 <= i < |members| => MemberParagraph(members[i].0, members[i].1));
    assert paragraphs == [MemberParagraph(a, da), MemberParagraph(b, db)];
    assert paragraphs[1..] == [MemberParagraph(b, db)];
    assert Join("\n\n", paragraphs[1..]) == MemberParagraph(b, db);
  }

  /** One more fireteam member adds a blank line and that member's paragraph. */
  lemma FireteamSnoc(members: seq<(string, Member)>, m: (string, Member))
    requires members != []
    ensures FireteamText(members + [m]) == FireteamText(members) + "\n\n" + MemberParagraph(m.0, m.1)
  {
    var paragraphs := seq(|members|, i requires 0 <= i < |members| => MemberParagraph(members[i].0, members[i].1));
    var more := members + [m];
    var paragraphs' := seq(|more|, i requires 0 <= i < |more| => MemberParagraph(more[i].0, more[i].1));
    assert paragraphs' == paragraphs + [MemberParagraph(m.0, m.1)];
    JoinSnoc("\n\n", paragraphs, MemberParagraph(m.0, m.1));
  }

  /** A single quote is one quoted line and no newline. */
  lemma QuotesOne(q: string)
    ensures QuotesText([q]) == "\"" + q + "\""
  {
    var quotes := [q];
    assert seq(|quotes|, i requires 0 <= i < |quotes| => "\"" + quotes[i] + "\"") == ["\"" + q + "\""];
  }

  /** Adding a quote adds one quoted line after a newline. */
  lemma QuotesSnoc(quotes: seq<string>, q: string)
    requires quotes != []
    ensures QuotesText(quotes + [q]) == QuotesText(quotes) + "\n" + "\"" + q + "\""
  {
    var lines := seq(|quotes|, i requires 0 <= i < |quotes| => "\"" + quotes[i] + "\"");
    var more := quotes + [q];
    var lines' := seq(|more|, i requires 0 <= i < |more| => "\"" + more[i] + "\"");
    assert lines' == lines + ["\"" + q + "\""];
    JoinSnoc("\n", lines, "\"" + q + "\"");
  }

  /** Python's `title()` capitalises after an apostrophe: the section key
      `ghost's_tale` is shown as `Ghost'S Tale`, with a capital `S`. */
  lemma GhostsTaleName(key: string)
    requires key == "ghost's_tale"
    ensures SectionName(key) == "Ghost'S Tale"
  {
    assert key != "fireteam";
    var h := SectionName(key);
    forall i | 0 <= i < 12 ensures h[i] == "Ghost'S Tale"[i] {
      HumanizeAt(key, i);
    }
  }

  /**
   * The render sequence of both handlers: create the embed, add Faction and
   * Role, add the joined key events through the chunking rule, add each
   * additional-lore section in order, set the footer and, when the record
   * has an image URL, the thumbnail.
   */
  method RenderLore(record: CharacterRecord, name: string, color: Color) returns (embed: Embed)
    requires Conforms(record)
    ensures fresh(embed)
    ensures embed.View() == LoreEmbed(record, name, color)
  {
    embed := RenderHead(record, name, color);
    AddSections(embed, record.additionalLore);
    embed.SetFooter("First Appearance: " + record.firstAppearance);
    if record.imageUrl.Some? {
      embed.SetThumbnail(record.imageUrl.value);
    }
  }

  /** The first part of the render sequence: the embed with Faction, Role
      and the Key Events fields, nothing else yet. */
  method RenderHead(record: CharacterRecord, name: string, color: Color) returns (embed: Embed)
    ensures fresh(embed)
    ensures embed.View() == EmbedView("Lore of " + name, record.description, color,
      [Field("Faction", record.faction, true), Field("Role", record.role, true)]
        + ChunkFields("Key Events", Join(", ", record.keyEvents), false),
      None, None)
  {
    embed := new Embed("Lore of " + name, record.description, color);
    embed.AddField("Faction", record.faction, true);
    embed.AddField("Role", record.role, true);
    assert embed.View() == EmbedView("Lore of " + name, record.description, color,
      [Field("Faction", record.faction, true), Field("Role", record.role, true)], None, None);
    SafeAddField(embed, "Key Events", Join(", ", record.keyEvents), false);
  }

  /** `for title, content in additional_lore.items(): ...`: the sections'
      fields are appended in insertion order and nothing else changes. */
  method AddSections(embed: Embed, sections: seq<(string, LoreContent)>)
    requires SectionsConform(sections)
    modifies embed
    ensures embed.View() == old(embed.View()).(fields := old(embed.fields) + LoreFields(sections))
  {
    ghost var start := embed.View();
    var i := 0;
    while i < |sections|
      invariant 0 <= i <= |sections|
      invariant embed.View() == start.(fields := start.fields + LoreFields(sections[..i]))
    {
      AddSection(embed, sections[i]);
      FieldsStep(start.fields, sections, i);
      i := i + 1;
    }
    assert sections[..i] == sections;
  }

  /** The loop step of `AddSections`: the fields after section `i` are the
      fields after the first `i` sections followed by section `i`'s group. */
  lemma FieldsStep(prefix: seq<Field>, sections: seq<(string, LoreContent)>, i: nat)
    requires i < |sections|
    ensures prefix + LoreFields(sections[..i]) + SectionFields(sections[i]) == prefix + LoreFields(sections[..i + 1])
  {
    assert sections[..i + 1] == sections[..i] + [sections[i]];
    LoreFieldsSnoc(sections[..i], sections[i]);
    AppendAssoc(prefix, LoreFields(sections[..i]), SectionFields(sections[i]));
  }

  /** The body of the `additional_lore` loop: one section, formatted by its
      key and added through the chunking rule. */
  method AddSection(embed: Embed, section: (string, LoreContent))
    requires SectionConforms(section.0, section.1)
    modifies embed
    ensures embed.View() == old(embed.View()).(fields := old(embed.fields) + SectionFields(section))
  {
    var (title, content) := section;
    if title == "fireteam" {
      var fireteamDetails := FireteamText(content.members);
      SafeAddField(embed, "Fireteam", fireteamDetails, false);
    } else if title == "quotes" {
      var quotes := QuotesText(content.quotes);
      SafeAddField(embed, Humanize(title), quotes, false);
    } else {
      SafeAddField(embed, Humanize(title), content.text, false);
    }
  }
}
