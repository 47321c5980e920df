/** The image-board pipeline (src/pipeline.py:69-114): one random post from
    the unrestricted or the safe board, chosen by the `nsfw` flag, shown on an
    attributed card; the response is parsed as a mapping or as a list of
    mappings, and anything else becomes a "Post not found." card. */
module Danbooru {
  import opened Wrappers
  import opened Base
  import opened Embeds

  /** A `pybooru.Danbooru` client: the board it talks to and its credentials. */
  datatype Booru = Booru(site: string, username: string, apiKey: string)

  /** The arguments of `post_list(tags=..., limit=..., random=...)`. */
  datatype PostQuery = PostQuery(tags: string, limit: nat, random: bool)

  /** The decoded response of `post_list`: nothing, one post as a mapping, or
      a list of posts. */
  datatype PostResult =
    | NoOutput
    | Mapping(post: map<string, string>)
    | Posts(posts: seq<map<string, string>>)

  /** The board's answer to a client's query. */
  type PostList = (Booru, PostQuery) -> PostResult

  const NeedTerm := "Please input a search term!"
  const PostNotFound := "Post not found."

  /** The query the pipeline sends: the message as tags, one random post. */
  function QueryFor(message: string): PostQuery
  {
    PostQuery(message, 1, true)
  }

  /** Python truthiness of the response (`if not output`): only no output,
      an empty mapping and an empty list are false. */
  function Truthy(output: PostResult): (r: bool)
    ensures r <==> output != NoOutput && output != Mapping(map[]) && output != Posts([])
  {
    match output
    case NoOutput => false
    case Mapping(post) => |post| != 0
    case Posts(posts) => |posts| != 0
  }

  /** The defensive parse: `output['file_url']`, which only a mapping with
      that key answers (a list indexed by a string raises), and failing that
      `output[0]['file_url']`, which only a non-empty list whose first post has
      the key answers (a mapping has no key `0`). */
  function FileUrl(output: PostResult): (r: Option<string>)
    ensures output.Mapping? && "file_url" in output.post ==> r == Some(output.post["file_url"])
    ensures output.Posts? && output.posts != [] && "file_url" in output.posts[0] ==>
      r == Some(output.posts[0]["file_url"])
    ensures r.Some? <==>
      || (output.Mapping? && "file_url" in output.post)
      || (output.Posts? && output.posts != [] && "file_url" in output.posts[0])
  {
    match output
    case NoOutput => None
    case Mapping(post) => if "file_url" in post then Some(post["file_url"]) else None
    case Posts(posts) => if posts != [] && "file_url" in posts[0] then Some(posts[0]["file_url"]) else None
  }

  /** The error card with the given description. */
  function ErrorCard(author: Author, description: string): Card
  {
    Blank.(title := Some("Error"), description := Some(description),
           footer := Some(Attribution(author)), colour := Some(EmbedColour))
  }

  /** The card for a post found under the given tags. */
  function PostCard(author: Author, message: string, url: string): Card
  {
    Blank.(title := Some(message), image := Some(url), url := Some(url),
           footer := Some(Attribution(author)), colour := Some(EmbedColour))
  }

  class DanbooruPipeline {
    const util: Option<Logger>
    const keys: Option<Keys>
    const nsfwClient: Booru
    const sfwClient: Booru

    /** Both clients use the same credentials, read outside any guard. */
    constructor (util: Option<Logger>, keys: Option<Keys>)
      requires keys.Some? && "danbooru_username" in keys.value && "danbooru_token" in keys.value
      ensures this.util == util && this.keys == keys
      ensures nsfwClient == Booru("danbooru", keys.value["danbooru_username"], keys.value["danbooru_token"])
      ensures sfwClient == Booru("safebooru", keys.value["danbooru_username"], keys.value["danbooru_token"])
    {
      this.util := util;
      this.keys := keys;
      nsfwClient := Booru("danbooru", keys.value["danbooru_username"], keys.value["danbooru_token"]);
      sfwClient := Booru("safebooru", keys.value["danbooru_username"], keys.value["danbooru_token"]);
    }

    /** The client a request goes to. */
    function ClientFor(nsfw: bool): Booru
    {
      if nsfw then nsfwClient else sfwClient
    }

    /** The card `generate(message, nsfw, author)` returns. */
    function Reply(message: string, nsfw: bool, author: Author, postList: PostList): (c: Card)
      ensures Attributed(c, author)
      ensures c.image == c.url
      ensures message == "" ==> c == ErrorCard(author, NeedTerm)
      ensures message != "" ==>
        var url := FileUrl(postList(ClientFor(nsfw), QueryFor(message)));
        c == if url.Some? then PostCard(author, message, url.value) else ErrorCard(author, PostNotFound)
    {
      if message == "" then ErrorCard(author, NeedTerm)
      else
        var output := postList(ClientFor(nsfw), QueryFor(message));
        if !Truthy(output) then ErrorCard(author, PostNotFound)
        else
          match FileUrl(output)
          case Some(url) => PostCard(author, message, url)
          case None => ErrorCard(author, PostNotFound)
    }

    /** `generate(message, nsfw, author)`, filling the embed step by step:
        the title is set to the message and then overwritten with "Error"
        when neither form of the response holds a file URL. */
    method Generate(message: string, nsfw: bool, author: Author, postList: PostList) returns (embed: Embed)
      ensures fresh(embed)
      ensures embed.View() == Reply(message, nsfw, author, postList)
    {
      embed := NewAttributedEmbed(author);
      if message == "" {
        embed.title := Some("Error");
        embed.description := Some(NeedTerm);
        return;
      }
      var output;
      if nsfw {
        output := postList(nsfwClient, QueryFor(message));
      } else {
        output := postList(sfwClient, QueryFor(message));
      }
      if !Truthy(output) {
        embed.title := Some("Error");
        embed.description := Some(PostNotFound);
        return;
      }
      embed.title := Some(message);
      if output.Mapping? && "file_url" in output.post {
        embed.SetImage(output.post["file_url"]);
        embed.url := Some(output.post["file_url"]);
        return;
      }
      if output.Posts? && output.posts != [] && "file_url" in output.posts[0] {
        embed.SetImage(output.posts[0]["file_url"]);
        embed.url := Some(output.posts[0]["file_url"]);
        return;
      }
      embed.title := Some("Error");
      embed.description := Some(PostNotFound);
    }
  }

  /** A false response never holds a file URL, so the emptiness test only
      short-cuts the parse. */
  lemma FalsyHasNoFileUrl(output: PostResult)
    requires !Truthy(output)
    ensures FileUrl(output) == None
  {
  }

  /** The card depends on the chosen board alone: two boards' behaviours that
      agree on the chosen client give the same card, so the other client is
      never consulted. An empty message consults neither. */
  lemma OtherBoardIrrelevant(p: DanbooruPipeline, message: string, nsfw: bool, author: Author, list1: PostList, list2: PostList)
    requires message != "" ==>
      list1(p.ClientFor(nsfw), QueryFor(message)) == list2(p.ClientFor(nsfw), QueryFor(message))
    ensures p.Reply(message, nsfw, author, list1) == p.Reply(message, nsfw, author, list2)
  {
  }

  /** A post given as a bare mapping and the same post as a one-element list
      yield the same card, showing its file URL. */
  lemma BothShapesAccepted(p: DanbooruPipeline, message: string, nsfw: bool, author: Author, list1: PostList, list2: PostList, post: map<string, string>)
    requires message != "" && "file_url" in post
    requires list1(p.ClientFor(nsfw), QueryFor(message)) == Mapping(post)
    requires list2(p.ClientFor(nsfw), QueryFor(message)) == Posts([post])
    ensures p.Reply(message, nsfw, author, list1) == p.Reply(message, nsfw, author, list2)
    ensures p.Reply(message, nsfw, author, list1).image == Some(post["file_url"])
    ensures p.Reply(message, nsfw, author, list1).title == Some(message)
  {
  }

  /** A card shows an image exactly when the message is non-empty and one of
      the two forms yields a file URL; every other card is an "Error" card. */
  lemma ImageExactlyWhenParsed(p: DanbooruPipeline, message: string, nsfw: bool, author: Author, postList: PostList)
    ensures var c := p.Reply(message, nsfw, author, postList);
      var output := postList(p.ClientFor(nsfw), QueryFor(message));
      && (c.image.Some? <==>
            (message != "" &&
             ((output.Mapping? && "file_url" in output.post) ||
              (output.Posts? && output.posts != [] && "file_url" in output.posts[0]))))
      && (c.image.None? ==> c.title == Some("Error") && c.description.Some?)
      && (c.image.Some? ==> c.title == Some(message) && c.description == None)
  {
  }
}
