/** A chat embed as the commands build it: a title, a description, a colour, a footer, an optional
    thumbnail and a list of (name, value) fields appended in order. */
module Embeds {
  import opened Wrappers

  datatype Field = Field(name: string, value: string)

  class Embed {
    var title: string
    var description: string
    var color: int
    var footer: string
    var thumbnail: Option<string>
    var fields: seq<Field>

    constructor (title: string, description: string, color: int)
      ensures this.title == title && this.description == description && this.color == color
      ensures footer == "" && thumbnail == None && fields == []
    {
      this.title := title;
      this.description := description;
      this.color := color;
      footer := "";
      thumbnail := None;
      fields := [];
    }

    /** `add_field(name=..., value=...)`: one more field at the end, nothing else changes. */
    method AddField(name: string, value: string)
      modifies this
      ensures fields == old(fields) + [Field(name, value)]
      ensures title == old(title) && description == old(description)
      ensures color == old(color) && footer == old(footer) && thumbnail == old(thumbnail)
    {
      fields := fields + [Field(name, value)];
    }

    /** `set_footer(text=...)`. */
    method SetFooter(text: string)
      modifies this
      ensures footer == text && fields == old(fields)
      ensures title == old(title) && description == old(description)
      ensures color == old(color) && thumbnail == old(thumbnail)
    {
      footer := text;
    }

    /** `set_thumbnail(url=...)`. */
    method SetThumbnail(url: string)
      modifies this
      ensures thumbnail == Some(url) && fields == old(fields)
      ensures title == old(title) && description == old(description)
      ensures color == old(color) && footer == old(footer)
    {
      thumbnail := Some(url);
    }
  }
}
