/** The translation pipeline (src/pipeline.py:165-209): language codes checked
    against a fixed table, a templated prompt cut to 400 characters sent to the
    GPT-3 completion service, and an empty completion replaced by a notice. */
module Translation {
  import opened Wrappers
  import opened Base
  import opened Prompts

  /** A handle on the GPT-3 completion service with its fixed sampling settings. */
  datatype Gpt3 = Gpt3(generateNum: nat, temperature: real, modelName: string, apiKey: string)

  /** `model.sample_sequence_raw(prompt)`, as a function of the handle and the prompt. */
  type Sampler = (Gpt3, string) -> string

  const InvalidCode := "Invalid language code."
  const UnableToTranslate := "Unable to translate."

  /** `tl_configurations`, in the source's order; `'fr'` is listed twice with
      the same name, so the second entry changes nothing. */
  const LanguageTable: map<string, string> := map[
    "ja" := "Japanese",
    "en" := "English",
    "es" := "Spanish",
    "br" := "Brazilian",
    "pt" := "Portuguese",
    "fr" := "French",
    "it" := "Italian",
    "de" := "German",
    "ru" := "Russian",
    "ko" := "Korean",
    "zh" := "Chinese",
    "ar" := "Arabic",
    "nl" := "Dutch",
    "fi" := "Finnish",
    "fr" := "French",
    "hi" := "Hindi",
    "id" := "Indonesian"
  ]

  /** The sixteen codes the table accepts. */
  const LanguageCodes: set<string> :=
    {"ja", "en", "es", "br", "pt", "fr", "it", "de", "ru", "ko", "zh", "ar", "nl", "fi", "hi", "id"}

  /** The table maps exactly the sixteen codes, the duplicate `'fr'` adding none. */
  lemma LanguageTableKeys()
    ensures LanguageTable.Keys == LanguageCodes
  {
  }

  function TranslationArgs(fromName: string, toName: string, message: string): map<string, string>
  {
    map["from_lang" := fromName, "to_lang" := toName, "message" := message]
  }

  /** The translation prompt in full, piece by piece: the heading naming
      both languages, the message under the source language's name, then the
      target language's name. */
  function TranslationText(fromName: string, toName: string, message: string): string
  {
    "This is a translation from " + (fromName + (" to " + (toName + (".\n" +
      (fromName + (": " + (message + ("\n" + (toName + ":")))))))))
  }

  /** The translation template formats to the full translation text. */
  lemma TranslationFormatted(fromName: string, toName: string, message: string)
    ensures Fills(TranslationTemplate, TranslationArgs(fromName, toName, message))
    ensures Format(TranslationTemplate, TranslationArgs(fromName, toName, message))
         == TranslationText(fromName, toName, message)
  {
    var args := TranslationArgs(fromName, toName, message);
    assert args["from_lang"] == fromName && args["to_lang"] == toName && args["message"] == message;
    var t0 := TranslationTemplate;
    var t1 := t0.rest;
    var t2 := t1.rest;
    var t3 := t2.rest;
    var t4 := t3.rest;
    var t5 := t4.rest;
    var t6 := t5.rest;
    var t7 := t6.rest;
    var t8 := t7.rest;
    var t9 := t8.rest;
    FormatLastText(":", args);
    assert Fills(t9, args) && Format(t9, args) == toName + ":";
    assert Fills(t8, args) && Format(t8, args) == "\n" + (toName + ":");
    assert Fills(t7, args) && Format(t7, args) == message + ("\n" + (toName + ":"));
    assert Fills(t6, args) && Format(t6, args) == ": " + (message + ("\n" + (toName + ":")));
    assert Fills(t5, args) && Format(t5, args) == fromName + (": " + (message + ("\n" + (toName + ":"))));
    assert Fills(t4, args) && Format(t4, args) == ".\n" + (fromName + (": " + (message + ("\n" + (toName + ":")))));
    assert Fills(t3, args) && Format(t3, args) == toName + (".\n" + (fromName + (": " + (message + ("\n" + (toName + ":"))))));
    assert Fills(t2, args) && Format(t2, args) == " to " + (toName + (".\n" + (fromName + (": " + (message + ("\n" + (toName + ":")))))));
    assert Fills(t1, args) && Format(t1, args) == fromName + (" to " + (toName + (".\n" + (fromName + (": " + (message + ("\n" + (toName + ":"))))))));
  }

  /** The prompt sent for a translation: a prefix of the fully formatted
      template, at most 400 characters, and the whole of it when it fits. */
  function TranslationPrompt(fromName: string, toName: string, message: string): (p: string)
    ensures var full := TranslationText(fromName, toName, message);
      && p <= full && |p| <= PromptLimit
      && (|full| <= PromptLimit ==> p == full)
      && (|full| > PromptLimit ==> |p| == PromptLimit)
  {
    TranslationFormatted(fromName, toName, message);
    Truncate(Format(TranslationTemplate, TranslationArgs(fromName, toName, message)), PromptLimit)
  }

  /** `TranslationPipeline`: the GPT-3 handle, the template and the language table. */
  class TranslationPipeline {
    const util: Option<Logger>
    const keys: Option<Keys>
    const model: Gpt3
    const prompt: Template := TranslationTemplate
    const tlConfigurations: map<string, string> := LanguageTable

    /** The source reads `keys["openai_token"]` outside any guard, so the key must be there. */
    constructor (util: Option<Logger>, keys: Option<Keys>)
      requires keys.Some? && "openai_token" in keys.value
      ensures this.util == util && this.keys == keys
      ensures model == Gpt3(32, 0.33, "davinci", keys.value["openai_token"])
    {
      this.util := util;
      this.keys := keys;
      model := Gpt3(32, 0.33, "davinci", keys.value["openai_token"]);
    }

    /** `generate(message, from_lang, to_lang)`: never an empty reply, and any
        reply other than the rejection comes from two known codes. */
    function Generate(message: string, fromLang: string, toLang: string, sample: Sampler): (r: string)
      ensures r != ""
      ensures r != InvalidCode ==> fromLang in tlConfigurations && toLang in tlConfigurations
    {
      if fromLang !in tlConfigurations then InvalidCode
      else if toLang !in tlConfigurations then InvalidCode
      else
        TranslationFormatted(tlConfigurations[fromLang], tlConfigurations[toLang], message);
        var promptFormatted := Format(prompt, TranslationArgs(tlConfigurations[fromLang], tlConfigurations[toLang], message));
        var response := sample(model, Truncate(promptFormatted, PromptLimit));
        if response == "" then UnableToTranslate else response
    }
  }

  /** An unknown source or target code is rejected whatever the completion
      service would say; no prompt is built. */
  lemma RejectsUnknownCode(p: TranslationPipeline, message: string, fromLang: string, toLang: string, sample: Sampler)
    requires fromLang !in LanguageCodes || toLang !in LanguageCodes
    ensures p.Generate(message, fromLang, toLang, sample) == InvalidCode
  {
    LanguageTableKeys();
  }

  /** With two known codes the reply is the completion of the cut prompt for
      the two language names, verbatim unless it is empty. */
  lemma TranslatesKnownCodes(p: TranslationPipeline, message: string, fromLang: string, toLang: string, sample: Sampler)
    requires fromLang in LanguageCodes && toLang in LanguageCodes
    ensures fromLang in LanguageTable && toLang in LanguageTable
    ensures var c := sample(p.model, TranslationPrompt(LanguageTable[fromLang], LanguageTable[toLang], message));
      p.Generate(message, fromLang, toLang, sample) == if c == "" then UnableToTranslate else c
  {
    LanguageTableKeys();
  }

  /** "Invalid language code." comes back exactly when a code is unknown or
      the service itself completed the prompt with that sentence. */
  lemma InvalidCodeExactly(p: TranslationPipeline, message: string, fromLang: string, toLang: string, sample: Sampler)
    ensures p.Generate(message, fromLang, toLang, sample) == InvalidCode <==>
      || fromLang !in LanguageCodes
      || toLang !in LanguageCodes
      || sample(p.model, TranslationPrompt(LanguageTable[fromLang], LanguageTable[toLang], message)) == InvalidCode
  {
    LanguageTableKeys();
  }
}
