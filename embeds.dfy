/** The rich reply card (a `discord.Embed`) as the card-producing pipelines
    fill it in, field by field. Rendering is not modelled: a card is the plain
    record of the fields the pipelines set. */
module Embeds {
  import opened Wrappers

  /** A colour given by its red, green and blue components. */
  datatype Colour = Colour(red: nat, green: nat, blue: nat)

  /** The module constant `embed_color`, `discord.Colour.from_rgb(215,195,134)`. */
  const EmbedColour: Colour := Colour(215, 195, 134)

  /** The requesting user: display name, discriminating suffix and avatar reference. */
  datatype Author = Author(name: string, discriminator: string, avatarUrl: string)

  datatype Footer = Footer(text: string, iconUrl: string)

  /** The value of an embed: every field is empty until a pipeline sets it. */
  datatype Card = Card(
    title: Option<string>,
    description: Option<string>,
    image: Option<string>,
    url: Option<string>,
    footer: Option<Footer>,
    colour: Option<Colour>)

  /** A freshly constructed `discord.Embed()`. */
  const Blank: Card := Card(None, None, None, None, None, None)

  /** The footer every card-producing pipeline sets: `name#discriminator` with the avatar. */
  function Attribution(author: Author): Footer
  {
    Footer(author.name + "#" + author.discriminator, author.avatarUrl)
  }

  /** The card carries the requesting author's attribution and the fixed colour. */
  predicate Attributed(c: Card, author: Author)
  {
    c.footer == Some(Attribution(author)) && c.colour == Some(EmbedColour)
  }

  /** A mutable embed, as `discord.Embed` is used by the pipelines. */
  class Embed {
    var title: Option<string>
    var description: Option<string>
    var image: Option<string>
    var url: Option<string>
    var footer: Option<Footer>
    var colour: Option<Colour>

    constructor ()
      ensures View() == Blank
    {
      title, description, image, url := None, None, None, None;
      footer, colour := None, None;
    }

    /** The card this embed currently describes. */
    function View(): Card
      reads this
    {
      Card(title, description, image, url, footer, colour)
    }

    /** `set_footer(text=..., icon_url=...)`: replaces the footer and nothing else. */
    method SetFooter(text: string, iconUrl: string)
      modifies this
      ensures View() == old(View()).(footer := Some(Footer(text, iconUrl)))
    {
      footer := Some(Footer(text, iconUrl));
    }

    /** `set_image(url=...)`: replaces the image and nothing else. */
    method SetImage(imageUrl: string)
      modifies this
      ensures View() == old(View()).(image := Some(imageUrl))
    {
      image := Some(imageUrl);
    }
  }

  /** The opening every card-producing `generate` shares: a new embed with the
      author's footer and the fixed colour. */
  method NewAttributedEmbed(author: Author) returns (embed: Embed)
    ensures fresh(embed)
    ensures embed.View() == Blank.(footer := Some(Attribution(author)), colour := Some(EmbedColour))
    ensures Attributed(embed.View(), author)
  {
    embed := new Embed();
    embed.SetFooter(author.name + "#" + author.discriminator, author.avatarUrl);
    embed.colour := Some(EmbedColour);
  }
}
