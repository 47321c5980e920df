/** The video search pipeline (src/pipeline.py:48-67): the titles of the
    search results, in order, go to a relevance classifier whose answer
    selects the video to link. */
module Youtube {
  import opened Wrappers
  import opened Base

  /** One entry of `results.videos`: its title and its `url_suffix`. */
  datatype Video = Video(title: string, urlSuffix: string)

  /** The relevance classifier `SearchService`, opened with an API key. */
  datatype Classifier = SearchService(apiKey: string)

  /** `YoutubeSearch(query, max_results=...).videos`. */
  type Search = (string, nat) -> seq<Video>

  /** `service.classify_sequence(query, labels)`: the index it picks. */
  type Classify = (Classifier, string, seq<string>) -> int

  const Host := "https://www.youtube.com"
  const MaxResults: nat := 8

  /** The titles of the videos, one per video and in the same order. */
  function Titles(videos: seq<Video>): (r: seq<string>)
    ensures |r| == |videos|
    ensures forall k :: 0 <= k < |videos| ==> r[k] == videos[k].title
  {
    if videos == [] then [] else [videos[0].title] + Titles(videos[1..])
  }

  /** The link to a video: the host followed by its suffix. */
  function WatchUrl(video: Video): (r: string)
    ensures Host <= r && r[|Host|..] == video.urlSuffix
  {
    Host + video.urlSuffix
  }

  class YoutubePipeline {
    const util: Option<Logger>
    const keys: Option<Keys>
    const service: Classifier

    /** The source reads `keys["openai_token"]` outside any guard, so the key must be there. */
    constructor (util: Option<Logger>, keys: Option<Keys>)
      requires keys.Some? && "openai_token" in keys.value
      ensures this.util == util && this.keys == keys
      ensures service == SearchService(keys.value["openai_token"])
    {
      this.util := util;
      this.keys := keys;
      service := SearchService(keys.value["openai_token"]);
    }

    /** `generate(message)`. The source indexes the results with the
        classifier's answer unchecked, so a non-empty message needs that
        answer to be a position in the results. */
    method Generate(message: string, search: Search, classify: Classify) returns (reply: string)
      requires message != "" ==>
        var videos := search(message, MaxResults);
        0 <= classify(service, message, Titles(videos)) < |videos|
      ensures message == "" ==> reply == PromptForTerm
      ensures message != "" ==>
        var videos := search(message, MaxResults);
        reply == WatchUrl(videos[classify(service, message, Titles(videos))])
    {
      if message == "" {
        return PromptForTerm;
      }
      var videos := search(message, MaxResults);
      var searchQuery: seq<string> := [];
      for i := 0 to |videos|
        invariant |searchQuery| == i
        invariant forall k :: 0 <= k < i ==> searchQuery[k] == videos[k].title
      {
        searchQuery := searchQuery + [videos[i].title];
      }
      assert searchQuery == Titles(videos);
      var selection := classify(service, message, searchQuery);
      reply := Host + videos[selection].urlSuffix;
    }
  }
}
