# Message pipelines of the Ran Yakumo chat bot, in Dafny

This project models the message pipelines of the Ran Yakumo Discord bot
(`src/pipeline.py`). Each pipeline takes the text of a user's command and
produces a reply. The reply is either a plain string or a rich card (a
`discord.Embed`). The pipelines are:

- the base `Pipeline`: an echoing null object with an optional logger;
- `WikipediaPipeline`: searches the encyclopedia and returns the URL of the first candidate page;
- `YoutubePipeline`: lists the titles of the search hits in order, lets a relevance classifier pick one, and links that video;
- `DanbooruPipeline`: fetches one random post from the safe or the unrestricted board and puts it on a card;
- `QnAPipeline` and `DictionaryPipeline`: fill a prompt template, send it to the GPT-J completion service, and put the answer on a card;
- `TranslationPipeline`: checks both language codes against a fixed table, sends a cut prompt to GPT-3, and replaces an empty answer with a notice.

Each third-party service becomes a function-typed parameter of `Generate`:
`wikipedia.search`/`wikipedia.page`, `YoutubeSearch`,
`SearchService.classify_sequence`, `Danbooru.post_list` and
`sample_sequence_raw`. The model treats the service's answer to a given
request as a fixed value. "This service is never consulted" is therefore stated as
non-interference: two services that agree on the one request the pipeline
makes give the same reply.

Modules:

- `Wrappers`: `Option`.
- `Base`: the base `Pipeline` class, the credential map, the logging decision and the reply both search pipelines give to an empty query.
- `Embeds`: the embed as a mutable `Embed` class. Its value is the `Card` record. The module also holds the fixed colour and the author footer.
- `Prompts`: templates with named fields. It models `str.format` as `Format`, which substitutes each field once, and `s[0:400]` as `Truncate`. It also holds the three templates.
- `Wikipedia`, `Youtube`, `Danbooru`, `Generative` (Q&A and dictionary) and `Translation`: one module per pipeline family.

The card-producing `generate` methods fill a fresh `Embed` step by step, as
the source does. Each is proved against a function that gives the card they
build. YouTube's title list is built by a loop, proved against `Titles`.
Wikipedia and Translation `generate` are pure functions.

Some behaviours of the code are easy to miss. The model follows the code in each:

- Dictionary prompts are **not** cut to 400 characters (`src/pipeline.py:159-160`). Only Q&A and Translation cut them.
- A disambiguation error with an empty list of options makes `pop(0)` raise `IndexError` (`src/pipeline.py:36-37`). It does not give "No results found.".
- A page fetch that itself raises a disambiguation error is not caught (`src/pipeline.py:42-46`). The exception reaches the caller.
- Only the empty string counts as an empty query (`if not message`). A query of only whitespace is searched like any other. The Q&A, dictionary and translation pipelines do not test for an empty query at all.

## Model

| member | source | states |
|---|---|---|
| `Base.LogCall` | src/pipeline.py:13-15 | a log record is produced exactly when a logger was injected, tagged with the class name and carrying the message |
| `Base.Pipeline.Log` | src/pipeline.py:13-15 | the base pipeline logs under the name "Pipeline" exactly when it has a logger |
| `Base.Pipeline.Generate` | src/pipeline.py:17-18 | the null-object pipeline replies with its input unchanged |
| `Base.Pipeline.constructor` | src/pipeline.py:9-11 | the logger and the key map are stored as given |
| `Embeds.Embed.SetFooter` | src/pipeline.py:83 | setting the footer changes the footer and no other field of the card |
| `Embeds.Embed.SetImage` | src/pipeline.py:103 | setting the image changes the image and no other field of the card |
| `Embeds.NewAttributedEmbed` | src/pipeline.py:82-84 | every card-producing pipeline starts from a fresh embed that has only the footer `name#discriminator` (with the avatar) and the colour (215,195,134) |
| `Prompts.FillsExactlyWhenNamed` | src/pipeline.py:136 | `str.format` succeeds exactly when every field the template names has a value; extra keyword arguments are allowed |
| `Prompts.FormatUsesNamedFieldsOnly` | src/pipeline.py:136 | the formatted text depends only on the values of the fields the template names |
| `Prompts.Truncate` | src/pipeline.py:137 | `s[0:400]` is a prefix of `s`, is at most 400 characters long, is all of `s` when `s` fits, and is exactly 400 characters long otherwise |
| `Generative.Connect` | src/pipeline.py:124-127 | the GPT-J handle exists exactly when the service answered and all three credentials are present; any failure, a missing key included, leaves it unset |
| `Generative.AnswerCard` | src/pipeline.py:132-141 | a Q&A or dictionary card has the author's footer, the fixed colour and the raw answer as its description, and no title, image or link |
| `Generative.QnAFormatted` | src/pipeline.py:129-136 | formatting the Q&A template gives the author's name, the example exchange, the author's name, the question verbatim, then "Ran Yakumo:" |
| `Generative.QnAPrompt` | src/pipeline.py:136-137 | the prompt sent for a question is a prefix of the full Q&A text, is at most 400 characters long, is all of it when it fits, and is exactly 400 characters long otherwise |
| `Generative.QnAPipeline.constructor` | src/pipeline.py:122-129 | the model handle is whatever the guarded connection produced; a failure does not stop construction |
| `Generative.QnAPipeline.Generate` | src/pipeline.py:131-141 | the embed returned is the attributed card whose description is the service's answer to the cut Q&A prompt |
| `Generative.DictionaryFormatted` | src/pipeline.py:152-159 | formatting the dictionary template gives the eight worked definitions, then the term verbatim, then " -" |
| `Generative.DictionaryPrompt` | src/pipeline.py:159 | the dictionary prompt is the examples, the term and " -", with no cut, so its length grows with the term |
| `Generative.DictionaryNotTruncated` | src/pipeline.py:159-160 | a term longer than 400 characters reaches the service whole, inside a prompt longer than 400 characters |
| `Generative.DictionaryPipeline.constructor` | src/pipeline.py:145-152 | the model handle is whatever the guarded connection produced |
| `Generative.DictionaryPipeline.Generate` | src/pipeline.py:154-163 | the embed returned is the attributed card whose description is the service's answer to the uncut dictionary prompt |
| `Translation.LanguageTableKeys` | src/pipeline.py:172-190 | the language table accepts exactly the sixteen listed codes; the repeated 'fr' adds none |
| `Translation.TranslationFormatted` | src/pipeline.py:171-202 | formatting the translation template gives the heading with both language names, the message verbatim under the source language's name, then the target language's name |
| `Translation.TranslationPrompt` | src/pipeline.py:202-203 | the prompt sent for a translation is a prefix of the full translation text, is at most 400 characters long, is all of it when it fits, and is exactly 400 characters long otherwise |
| `Translation.TranslationPipeline.constructor` | src/pipeline.py:168-192 | the GPT-3 handle is davinci with 32 tokens at temperature 0.33 and the configured API key |
| `Translation.RejectsUnknownCode` | src/pipeline.py:197-200 | an unknown source code or an unknown target code gives "Invalid language code.", whatever the service would answer |
| `Translation.TranslatesKnownCodes` | src/pipeline.py:202-209 | with two known codes the reply is the service's answer to the cut prompt for the two language names; it is returned verbatim, or as "Unable to translate." when the answer is empty |
| `Translation.TranslationPipeline.Generate` | src/pipeline.py:194-209 | a translation reply is never the empty string, and any reply other than "Invalid language code." comes from two codes the table knows |
| `Translation.InvalidCodeExactly` | src/pipeline.py:197-209 | "Invalid language code." is returned if and only if a code is unknown or the service itself answered with that sentence |
| `Wikipedia.EmptyMessagePrompts` | src/pipeline.py:30-31 | an empty message gets "Please specify a search term.", whatever the search and page services would say |
| `Wikipedia.Candidates` | src/pipeline.py:34-37 | a plain search gives its titles as the candidates; a disambiguation gives its options minus the head, which was popped, and none at all (the `pop` raises) exactly when the options are empty |
| `Wikipedia.WikipediaPipeline.Generate` | src/pipeline.py:29-46 | an empty message gets the prompt; `IndexError` escapes exactly when the search disambiguates to no options; `DisambiguationError` escapes exactly when the first candidate's page is itself ambiguous |
| `Wikipedia.NoTitlesNoFetch` | src/pipeline.py:39-40 | a search with no titles gives "No results found.", and the result does not depend on the page service |
| `Wikipedia.DisambiguationSkipsHead` | src/pipeline.py:35-46 | on disambiguation the first option is dropped: no options raises IndexError, one option gives "No results found.", and otherwise the reply depends only on the page of the second option and is its URL when that page exists |
| `Wikipedia.FetchesFirstCandidateOnly` | src/pipeline.py:42-46 | only the first candidate's page matters: page services that agree on it give the same reply |
| `Wikipedia.FirstCandidateOutcome` | src/pipeline.py:42-46 | with candidates to try, the reply is the first candidate's URL when its page exists, "No results found." on `PageError`, and an escaping `DisambiguationError` when the page is ambiguous |
| `Wikipedia.RepliesAreNoticesOrArticleUrls` | src/pipeline.py:29-46 | every string returned is the prompt, "No results found.", or the URL of an article the page service produced |
| `Wikipedia.WikipediaPipeline.constructor` | src/pipeline.py:25-27 | the logger and the key map are stored as given |
| `Youtube.Titles` | src/pipeline.py:62-64 | the title list has one title per search hit, in the hits' order |
| `Youtube.WatchUrl` | src/pipeline.py:67 | a video's link starts with "https://www.youtube.com" and is followed by the video's URL suffix |
| `Youtube.YoutubePipeline.constructor` | src/pipeline.py:49-52 | the classifier is opened with the configured OpenAI token |
| `Youtube.YoutubePipeline.Generate` | src/pipeline.py:54-67 | an empty message gets the prompt; otherwise the classifier receives the hits' titles in order, and the reply is the host followed by the URL suffix of the hit whose index it chose |
| `Danbooru.FileUrl` | src/pipeline.py:102-111 | a mapping response that has the key `file_url` yields that value; a non-empty list response whose first post has `file_url` yields that post's value; every other response (no output, a mapping without the key, an empty list, a list whose first post lacks the key) yields no URL |
| `Danbooru.Truthy` | src/pipeline.py:95 | `if not output` is false only for no output, an empty mapping and an empty list |
| `Danbooru.DanbooruPipeline.constructor` | src/pipeline.py:75-79 | the unrestricted client talks to "danbooru" and the safe client to "safebooru", both with the same credentials |
| `Danbooru.DanbooruPipeline.Reply` | src/pipeline.py:81-114 | every card is attributed and coloured; its image and its link are equal; an empty message gives the "Error" card asking for a search term; otherwise the card shows the post's file URL under the message as title, or it is the "Error" card saying "Post not found." |
| `Danbooru.DanbooruPipeline.Generate` | src/pipeline.py:81-114 | the embed filled step by step, with the title set to the message and then overwritten with "Error" when parsing fails, ends up as that card |
| `Danbooru.FalsyHasNoFileUrl` | src/pipeline.py:95-98 | an empty response holds no file URL, so the emptiness test and the parse agree |
| `Danbooru.OtherBoardIrrelevant` | src/pipeline.py:91-94 | the card depends only on the answer of the client that `nsfw` selects, so the other board is never consulted, and an empty message consults neither |
| `Danbooru.BothShapesAccepted` | src/pipeline.py:102-110 | a post given as a bare mapping and the same post as a one-element list give the same card, titled with the message and showing the post's file URL |
| `Danbooru.ImageExactlyWhenParsed` | src/pipeline.py:100-114 | a card has an image exactly when the message is non-empty and one of the two forms yields a file URL; every other card is titled "Error" and has a description |

## Left out

- The third-party services are parameters. Their behaviour is a fixed function of the request: the random post choice, the sampling of completions, network failures and time-outs are not modelled. Faults they raise at call time are not modelled either, except the two uncaught exceptions of the encyclopedia pipeline.
- The result limits (5 encyclopedia titles, 8 videos, 1 post) are passed to the services. Enforcing them is the service's job.
- `YoutubePipeline`'s `if not results` test (`src/pipeline.py:59-60`) is left out. Whether it can ever fire depends on how the video-search library defines truthiness, which is not part of this model. So the model never replies "Could not find YouTube video.".
- Youtube.YoutubePipeline.Generate: requires the classifier's index to be a position in the hits, from 0 to one less than their number. The source indexes the list with it unchecked. An index past the end raises there. A negative index down to minus the number of hits does not raise in Python: it counts from the end (`videos[-1]` is the last hit). The model excludes those negative indices too.
- Logging through the injected logger is reduced to the decision of what is logged (`Base.LogCall`). The messages the constructors log are not modelled.
- Generative.QnAPipeline.Generate and Generative.DictionaryPipeline.Generate: require the model handle. In the source, calling `generate` after a failed construction raises `AttributeError`.
- The constructors of the YouTube, Danbooru and translation pipelines require the keys they read. The source reads them without a guard and raises `KeyError` when one is missing.
- Rendering of `discord.Embed` and `discord.Colour` is not modelled. A card is the record of its fields, and a colour is its red, green and blue components. The avatar URL is kept as an opaque string.
- Post fields are modelled as strings. A `file_url` that is not a string, and list elements that are not mappings, are not modelled.
- Translation.LanguageTableKeys: states the table's keys as the set of the sixteen listed codes. It does not prove the count of sixteen.
- The order of the two language-code checks (source code first) cannot be observed, because both failures give the same reply.
- Only strings are modelled as queries. A Python `None` message is not.
