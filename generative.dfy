/** The Q&A and dictionary pipelines (src/pipeline.py:120-163): a templated
    prompt sent to the GPT-J completion service, whose raw answer becomes the
    description of an attributed card. */
module Generative {
  import opened Wrappers
  import opened Base
  import opened Embeds
  import opened Prompts

  /** A handle on the GPT-J completion service and the credentials it was opened with. */
  datatype GptJ = GptJ(ip: string, username: string, password: string)

  /** `model.sample_sequence_raw(prompt)`: the external completion, as a
      function of the handle and the prompt sent to it. */
  type Sampler = (GptJ, string) -> string

  /** The constructors' guarded connection: the handle exists only when the
      three credentials are present and the service answered; every failure,
      a missing key included, is swallowed and leaves the model unset. */
  function Connect(keys: Option<Keys>, reachable: bool): (m: Option<GptJ>)
    ensures m.Some? <==>
      reachable && keys.Some? && "sukima_ip" in keys.value
      && "sukima_username" in keys.value && "sukima_password" in keys.value
    ensures m.Some? ==>
      m.value == GptJ(keys.value["sukima_ip"], keys.value["sukima_username"], keys.value["sukima_password"])
  {
    if reachable && keys.Some? && "sukima_ip" in keys.value
      && "sukima_username" in keys.value && "sukima_password" in keys.value
    then Some(GptJ(keys.value["sukima_ip"], keys.value["sukima_username"], keys.value["sukima_password"]))
    else None
  }

  /** The card both pipelines return: attribution, colour and the raw answer. */
  function AnswerCard(author: Author, response: string): (c: Card)
    ensures Attributed(c, author)
    ensures c.description == Some(response)
    ensures c.title == None && c.image == None && c.url == None
  {
    Blank.(footer := Some(Attribution(author)), colour := Some(EmbedColour), description := Some(response))
  }

  function QnAArgs(question: string, authorName: string): map<string, string>
  {
    map["question" := question, "author" := authorName]
  }

  /** The Q&A prompt in full: the author's name and the example exchange,
      then the question under the author's name, then the bot's name. */
  function QnAText(question: string, authorName: string): string
  {
    authorName + (QnAExample + (authorName + (": " + (question + "\nRan Yakumo:"))))
  }

  /** The Q&A template formats to the full Q&A text. */
  lemma QnAFormatted(question: string, authorName: string)
    ensures Fills(QnATemplate, QnAArgs(question, authorName))
    ensures Format(QnATemplate, QnAArgs(question, authorName))
         == QnAText(question, authorName)
  {
    var args := QnAArgs(question, authorName);
    assert args["author"] == authorName && args["question"] == question;
    var t0 := QnATemplate;
    var t1 := t0.rest;
    var t2 := t1.rest;
    var t3 := t2.rest;
    var t4 := t3.rest;
    FormatLastText("\nRan Yakumo:", args);
    assert Fills(t4, args) && Format(t4, args) == question + "\nRan Yakumo:";
    assert Fills(t3, args) && Format(t3, args) == ": " + (question + "\nRan Yakumo:");
    assert Fills(t2, args) && Format(t2, args) == authorName + (": " + (question + "\nRan Yakumo:"));
    assert Fills(t1, args) && Format(t1, args) == QnAExample + (authorName + (": " + (question + "\nRan Yakumo:")));
  }

  /** The prompt the Q&A pipeline sends: the formatted template cut to 400
      characters, so a prefix of the full prompt that is the whole of it when
      it fits. */
  function QnAPrompt(question: string, authorName: string): (p: string)
    ensures var full := QnAText(question, authorName);
      && p <= full && |p| <= PromptLimit
      && (|full| <= PromptLimit ==> p == full)
      && (|full| > PromptLimit ==> |p| == PromptLimit)
  {
    QnAFormatted(question, authorName);
    Truncate(Format(QnATemplate, QnAArgs(question, authorName)), PromptLimit)
  }

  /** The dictionary prompt: the worked definitions, then the term and a dash. */
  lemma DictionaryFormatted(term: string)
    ensures Fills(DictionaryTemplate, map["term" := term])
    ensures Format(DictionaryTemplate, map["term" := term]) == DictionaryExamples + (term + " -")
  {
    FormatLastText(" -", map["term" := term]);
  }

  /** The prompt the dictionary pipeline sends: the formatted template, with
      no length cut. */
  function DictionaryPrompt(term: string): (p: string)
    ensures p == DictionaryExamples + (term + " -")
    ensures |p| == |DictionaryExamples| + |term| + 2
  {
    DictionaryFormatted(term);
    Format(DictionaryTemplate, map["term" := term])
  }

  /** Unlike Q&A, a long term reaches the completion service whole: the
      prompt outgrows the 400-character cut and still ends in the term. */
  lemma DictionaryNotTruncated(term: string)
    requires |term| > PromptLimit
    ensures |DictionaryPrompt(term)| > PromptLimit
    ensures DictionaryPrompt(term)[|DictionaryExamples|..|DictionaryExamples| + |term|] == term
  {
    var p := DictionaryPrompt(term);
    assert p == DictionaryExamples + (term + " -");
    assert p[|DictionaryExamples|..|DictionaryExamples| + |term|] == term;
  }

  /** `QnAPipeline`: the GPT-J handle (absent when construction failed) and the
      Q&A template. */
  class QnAPipeline {
    const util: Option<Logger>
    const keys: Option<Keys>
    const model: Option<GptJ>
    const prompt: Template := QnATemplate

    /** `reachable` stands for whether the service accepted the credentials in time. */
    constructor (util: Option<Logger>, keys: Option<Keys>, reachable: bool)
      ensures this.util == util && this.keys == keys
      ensures model == Connect(keys, reachable)
    {
      this.util := util;
      this.keys := keys;
      model := Connect(keys, reachable);
    }

    /** `generate(message, author)`: the answer to the cut prompt, on an
        attributed card. Calling it after a failed construction raises in the
        source, so the handle is required. */
    method Generate(message: string, author: Author, sample: Sampler) returns (embed: Embed)
      requires model.Some?
      ensures fresh(embed)
      ensures embed.View() == AnswerCard(author, sample(model.value, QnAPrompt(message, author.name)))
    {
      embed := NewAttributedEmbed(author);
      QnAFormatted(message, author.name);
      var promptFormatted := Format(prompt, QnAArgs(message, author.name));
      promptFormatted := Truncate(promptFormatted, PromptLimit);
      var response := sample(model.value, promptFormatted);
      embed.description := Some(response);
    }
  }

  /** `DictionaryPipeline`: the GPT-J handle and the dictionary template. */
  class DictionaryPipeline {
    const util: Option<Logger>
    const keys: Option<Keys>
    const model: Option<GptJ>
    const prompt: Template := DictionaryTemplate

    constructor (util: Option<Logger>, keys: Option<Keys>, reachable: bool)
      ensures this.util == util && this.keys == keys
      ensures model == Connect(keys, reachable)
    {
      this.util := util;
      this.keys := keys;
      model := Connect(keys, reachable);
    }

    /** `generate(message, author)`: the definition the service completes for
        the whole, uncut prompt, on an attributed card. */
    method Generate(message: string, author: Author, sample: Sampler) returns (embed: Embed)
      requires model.Some?
      ensures fresh(embed)
      ensures embed.View() == AnswerCard(author, sample(model.value, DictionaryPrompt(message)))
    {
      embed := NewAttributedEmbed(author);
      DictionaryFormatted(message);
      var promptFormatted := Format(prompt, map["term" := message]);
      var response := sample(model.value, promptFormatted);
      embed.description := Some(response);
    }
  }
}
