/**
 * The rich message the bot sends: a title, a description, a colour tag, the
 * fields appended so far, an optional footer and an optional thumbnail. The
 * class is the mutable object the handlers build step by step; `EmbedView` is
 * its value once it is handed to the send call.
 */
module EmbedModel {
  import opened Wrappers
  import opened Chunking

  /** `discord.Color.green()` (message trigger) and `discord.Color.blue()` (slash command). */
  datatype Color = Green | Blue

  datatype EmbedView = EmbedView(
    title: string,
    description: string,
    color: Color,
    fields: seq<Field>,
    footer: Option<string>,
    thumbnail: Option<string>)

  class Embed {
    var title: string
    var description: string
    var color: Color
    var fields: seq<Field>
    var footer: Option<string>
    var thumbnail: Option<string>

    function View(): EmbedView
      reads this
    {
      EmbedView(title, description, color, fields, footer, thumbnail)
    }

    /** `discord.Embed(title=..., description=..., color=...)`: no fields, footer or thumbnail yet. */
    constructor (title: string, description: string, color: Color)
      ensures View() == EmbedView(title, description, color, [], None, None)
    {
      this.title := title;
      this.description := description;
      this.color := color;
      this.fields := [];
      this.footer := None;
      this.thumbnail := None;
    }

    /** `embed.add_field(...)`: appends one field and changes nothing else. */
    method AddField(name: string, value: string, inline: bool)
      modifies this
      ensures View() == old(View()).(fields := old(fields) + [Field(name, value, inline)])
    {
      fields := fields + [Field(name, value, inline)];
    }

    /** `embed.set_footer(text=...)`. */
    method SetFooter(text: string)
      modifies this
      ensures View() == old(View()).(footer := Some(text))
    {
      footer := Some(text);
    }

    /** `embed.set_thumbnail(url=...)`. */
    method SetThumbnail(url: string)
      modifies this
      ensures View() == old(View()).(thumbnail := Some(url))
    {
      thumbnail := Some(url);
    }
  }

  /**
   * `safe_add_field`: a value within the limit is added as one field; a
   * longer one is cut into slices, added in order, the first under `name`
   * and the rest under `name + " (cont.)"`. The call only appends: the
   * fields already there and the rest of the embed are left as they were.
   */
  method SafeAddField(embed: Embed, name: string, value: string, inline: bool)
    modifies embed
    ensures embed.View() == old(embed.View()).(fields := old(embed.fields) + ChunkFields(name, value, inline))
  {
    if |value| <= MaxFieldLength {
      embed.AddField(name, value, inline);
    } else {
      var chunks := Chunks(value);
      var idx := 0;
      while idx < |chunks|
        invariant 0 <= idx <= |chunks|
        invariant embed.View() == old(embed.View()).(fields := old(embed.fields) + Labelled(name, chunks, inline)[..idx])
      {
        var fieldName := if idx == 0 then name else name + " (cont.)";
        embed.AddField(fieldName, chunks[idx], inline);
        assert Labelled(name, chunks, inline)[..idx + 1] == Labelled(name, chunks, inline)[..idx] + [Field(fieldName, chunks[idx], inline)];
        idx := idx + 1;
      }
      assert Labelled(name, chunks, inline)[..idx] == Labelled(name, chunks, inline);
    }
  }
}
