/** Prompt templates of the generative pipelines, Python's `str.format` on
    them, and the 400-character prompt cut. */
module Prompts {

  /** A template read left to right: literal text and `{name}` fields, each
      followed by the rest of the template. */
  datatype Template = End | Text(text: string, rest: Template) | Field(name: string, rest: Template)

  /** Every field the template names has a value (`format` raises otherwise). */
  predicate Fills(t: Template, args: map<string, string>)
  {
    match t
    case End => true
    case Text(_, rest) => Fills(rest, args)
    case Field(name, rest) => name in args && Fills(rest, args)
  }

  /** `template.format(**args)`: each field is replaced by its value in one
      pass; the values are not themselves searched for fields. */
  function Format(t: Template, args: map<string, string>): string
    requires Fills(t, args)
  {
    match t
    case End => ""
    case Text(s, rest) => s + Format(rest, args)
    case Field(name, rest) => args[name] + Format(rest, args)
  }

  /** The field names a template mentions. */
  function Names(t: Template): set<string>
  {
    match t
    case End => {}
    case Text(_, rest) => Names(rest)
    case Field(name, rest) => {name} + Names(rest)
  }

  /** `format` succeeds exactly when every field the template names is given
      a value; a missing one raises `KeyError`, an extra one is ignored. */
  lemma {:induction false} FillsExactlyWhenNamed(t: Template, args: map<string, string>)
    ensures Fills(t, args) <==> Names(t) <= args.Keys
  {
    match t
    case End =>
    case Text(_, rest) => FillsExactlyWhenNamed(rest, args);
    case Field(name, rest) => FillsExactlyWhenNamed(rest, args);
  }

  /** The formatted text depends only on the values of the fields the
      template names: arguments the template does not mention change nothing. */
  lemma {:induction false} FormatUsesNamedFieldsOnly(t: Template, args1: map<string, string>, args2: map<string, string>)
    requires forall name :: name in Names(t) ==> name in args1 && name in args2 && args1[name] == args2[name]
    ensures Fills(t, args1) && Fills(t, args2) && Format(t, args1) == Format(t, args2)
  {
    match t
    case End =>
    case Text(_, rest) => FormatUsesNamedFieldsOnly(rest, args1, args2);
    case Field(name, rest) => FormatUsesNamedFieldsOnly(rest, args1, args2);
  }

  /** A template that ends in literal text formats to that text. */
  lemma FormatLastText(s: string, args: map<string, string>)
    ensures Fills(Text(s, End), args) && Format(Text(s, End), args) == s
  {
    assert Format(End, args) == "";
    assert s + "" == s;
  }

  /** The fixed cut-off of the Q&A and translation prompts (`prompt[0:400]`). */
  const PromptLimit: nat := 400

  /** `s[0:limit]`: the longest prefix of `s` no longer than `limit`. */
  function Truncate(s: string, limit: nat): (r: string)
    ensures r <= s && |r| <= limit
    ensures |s| <= limit ==> r == s
    ensures |s| > limit ==> |r| == limit
  {
    s[..if |s| < limit then |s| else limit]
  }

  /** The Q&A template: the author's line of a fixed example exchange, then
      the question under the author's name. */
  const QnAExample: string :=
    ": How does a telescope work?\nRan Yakumo: Telescopes use lenses or mirrors to focus light and make objects appear closer.\n"

  const QnATemplate: Template :=
    Field("author", Text(QnAExample, Field("author", Text(": ", Field("question", Text("\nRan Yakumo:", End))))))

  /** The dictionary template: eight worked definitions, then the term. */
  const DictionaryExamples: string :=
    "world - the earth, together with all of its countries, peoples, and natural features.\n"
    + "brain - an organ of soft nervous tissue having a grayish-white surface and a number of minute blood vessels, functioning as the center of the nervous system.\n"
    + "linker (programming) - a program that links the source code of a software program into a single executable file.\n"
    + "intracranial hemorrhaging - the process of bleeding within the brain.\n"
    + "president - a person who presides over an organization, usually with the title of chairman.\n"
    + "senator - a person who is elected to represent a state in the U.S. Senate.\n"
    + "virtual machine - a computer program that emulates the behavior of a real machine.\n"
    + "hole - a small opening or cavity.\n"

  const DictionaryTemplate: Template := Text(DictionaryExamples, Field("term", Text(" -", End)))

  /** The translation template: a heading naming both languages, the message
      under the source language's name, then the target language's name. */
  const TranslationTemplate: Template :=
    Text("This is a translation from ", Field("from_lang", Text(" to ", Field("to_lang", Text(".\n",
      Field("from_lang", Text(": ", Field("message", Text("\n", Field("to_lang", Text(":", End)))))))))))
}
