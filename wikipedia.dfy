/** The encyclopedia lookup pipeline (src/pipeline.py:24-46). The search and
    page services are parameters: each call's outcome, normal or raised, is
    a value. */
module Wikipedia {
  import opened Wrappers
  import opened Base

  /** What `wikipedia.search(query, results='5')` does: return titles, or raise
      `DisambiguationError` carrying alternative titles. */
  datatype SearchOutcome = Titles(titles: seq<string>) | Ambiguous(options: seq<string>)

  /** What `wikipedia.page(title=..., auto_suggest=False)` does: return the
      article, raise `PageError`, or raise `DisambiguationError`. */
  datatype PageOutcome = Article(url: string) | PageError | PageAmbiguous(options: seq<string>)

  /** The exceptions `generate` lets escape to its caller. */
  datatype Exception = IndexError | DisambiguationError

  /** `generate` either returns a string or raises. */
  datatype Reply = Returned(text: string) | Raised(exception: Exception)

  type Search = (string, nat) -> SearchOutcome
  type Page = string -> PageOutcome

  const NoResults := "No results found."
  const SearchLimit: nat := 5

  /** The candidate titles after the search: the returned titles, or the
      disambiguation options with their head popped; popping an empty list of
      options raises `IndexError`. */
  function Candidates(outcome: SearchOutcome): (r: Option<seq<string>>)
    ensures outcome.Titles? ==> r == Some(outcome.titles)
    ensures outcome.Ambiguous? ==> (r.None? <==> outcome.options == [])
    ensures outcome.Ambiguous? && r.Some? ==> [outcome.options[0]] + r.value == outcome.options
  {
    match outcome
    case Titles(titles) => Some(titles)
    case Ambiguous(options) => if options == [] then None else Some(options[1..])
  }

  class WikipediaPipeline {
    const util: Option<Logger>
    const keys: Option<Keys>

    constructor (util: Option<Logger>, keys: Option<Keys>)
      ensures this.util == util && this.keys == keys
    {
      this.util := util;
      this.keys := keys;
    }

    /** `generate(message)`. An empty message is never an error; `IndexError`
        escapes exactly when the search disambiguates to no options, and
        `DisambiguationError` exactly when the fetched page is itself
        ambiguous. */
    function Generate(message: string, search: Search, page: Page): (r: Reply)
      ensures message == "" ==> r == Returned(PromptForTerm)
      ensures r == Raised(IndexError) <==> message != "" && search(message, SearchLimit) == Ambiguous([])
      ensures r == Raised(DisambiguationError) <==>
        message != "" &&
        var c := Candidates(search(message, SearchLimit));
        c.Some? && c.value != [] && page(c.value[0]).PageAmbiguous?
    {
      if message == "" then Returned(PromptForTerm)
      else
        match Candidates(search(message, SearchLimit))
        case None => Raised(IndexError)
        case Some(terms) =>
          if terms == [] then Returned(NoResults)
          else
            match page(terms[0])
            case Article(url) => Returned(url)
            case PageError => Returned(NoResults)
            case PageAmbiguous(_) => Raised(DisambiguationError)
    }
  }

  /** An empty message is answered with the prompt, whatever the services
      would have said: neither is consulted. */
  lemma EmptyMessagePrompts(p: WikipediaPipeline, search: Search, page: Page)
    ensures p.Generate("", search, page) == Returned(PromptForTerm)
  {
  }

  /** A search that returns no titles gives "No results found." and no page
      is fetched. */
  lemma NoTitlesNoFetch(p: WikipediaPipeline, message: string, search: Search, page1: Page, page2: Page)
    requires message != "" && search(message, SearchLimit) == Titles([])
    ensures p.Generate(message, search, page1) == p.Generate(message, search, page2) == Returned(NoResults)
  {
  }

  /** On disambiguation the head option is dropped: no options raises
      `IndexError`, one option gives "No results found.", and otherwise the
      reply depends only on the page of the second option. */
  lemma DisambiguationSkipsHead(p: WikipediaPipeline, message: string, options: seq<string>, search: Search, page1: Page, page2: Page)
    requires message != "" && search(message, SearchLimit) == Ambiguous(options)
    ensures |options| == 0 ==> p.Generate(message, search, page1) == Raised(IndexError)
    ensures |options| == 1 ==> p.Generate(message, search, page1) == Returned(NoResults)
    ensures |options| >= 2 && page1(options[1]) == page2(options[1]) ==>
      p.Generate(message, search, page1) == p.Generate(message, search, page2)
    ensures |options| >= 2 && page1(options[1]).Article? ==>
      p.Generate(message, search, page1) == Returned(page1(options[1]).url)
  {
  }

  /** Only the first candidate's page is fetched: two page services that agree
      on it give the same reply. */
  lemma FetchesFirstCandidateOnly(p: WikipediaPipeline, message: string, search: Search, page1: Page, page2: Page)
    requires message != ""
    requires var c := Candidates(search(message, SearchLimit)); c.Some? && c.value != [] ==> page1(c.value[0]) == page2(c.value[0])
    ensures p.Generate(message, search, page1) == p.Generate(message, search, page2)
  {
  }

  /** What fetching the first candidate gives: its URL when the page exists,
      "No results found." when it does not, and an escaping
      `DisambiguationError` when the page is itself ambiguous. */
  lemma FirstCandidateOutcome(p: WikipediaPipeline, message: string, search: Search, page: Page, terms: seq<string>)
    requires message != "" && Candidates(search(message, SearchLimit)) == Some(terms) && terms != []
    ensures p.Generate(message, search, page) ==
      match page(terms[0])
      case Article(url) => Returned(url)
      case PageError => Returned(NoResults)
      case PageAmbiguous(_) => Raised(DisambiguationError)
  {
  }

  /** Every string returned is the prompt, "No results found.", or the URL of
      an article the page service produced; a missing page is never an error
      to the caller. */
  lemma RepliesAreNoticesOrArticleUrls(p: WikipediaPipeline, message: string, search: Search, page: Page)
    ensures var r := p.Generate(message, search, page);
      r.Returned? ==> r.text == PromptForTerm || r.text == NoResults || exists title :: page(title) == Article(r.text)
  {
    var r := p.Generate(message, search, page);
    if message != "" && r.Returned? && r.text != NoResults {
      var terms := Candidates(search(message, SearchLimit)).value;
      assert page(terms[0]) == Article(r.text);
    }
  }
}
