/** Pre-summarisation: which posts and threads are long enough to be condensed
    first, the prompt that asks for the condensed text, and the driver that asks
    the model once per such unit and files the answer against every post. */
module Presummary {
  import opened Wrappers
  import opened Text
  import opened Json
  import opened Errors
  import opened Models
  import opened Sorting
  import opened Classify
  import opened LlmBase

  /** The numeric thresholds of the `pre_summarization` section. */
  datatype PresummaryConfig = PresummaryConfig(
    longTweetChars: int,
    longQuoteChars: int,
    longCombinedChars: int,
    threadMinTweets: int)

  const Defaults := PresummaryConfig(500, 300, 600, 2)

  /** The section `_get_default_presummary_config` supplies. */
  const DefaultSection: map<string, Json> :=
    map["enabled" := JBool(true)]["long_tweet_chars" := JInt(500)]["long_quote_chars" := JInt(300)]
       ["long_combined_chars" := JInt(600)]["thread_min_tweets" := JInt(2)]["max_summary_tokens" := JInt(300)]

  /** `config.get("pre_summarization", {})`, with a missing configuration replaced
      by the defaults; a section that is not a dictionary fails on its first `.get`. */
  function Section(config: Option<map<string, Json>>): (r: Result<map<string, Json>, Failure>)
    ensures config.None? ==> r == Ok(DefaultSection)
    ensures config.Some? && "pre_summarization" !in config.value ==> r == Ok(map[])
    ensures r.Err? <==> config.Some? && "pre_summarization" in config.value
                        && !config.value["pre_summarization"].JObj?
  {
    if config.None? then Ok(DefaultSection)
    else if "pre_summarization" !in config.value then Ok(map[])
    else match config.value["pre_summarization"]
      case JObj(f) => Ok(f)
      case _ => Err(Uncaught("AttributeError"))
  }

  /** `section.get("enabled", True)` read for its truth value. */
  predicate EnabledOf(section: map<string, Json>) {
    "enabled" !in section || Truthy(section["enabled"])
  }

  /** `section.get(key, default)` used as a number: booleans count as 0 and 1,
      and any other kind of value makes the comparison raise `TypeError`. */
  function Threshold(section: map<string, Json>, key: string, default: int): (r: Result<int, Failure>)
    ensures key !in section ==> r == Ok(default)
    ensures key in section && section[key].JInt? ==> r == Ok(section[key].i)
  {
    if key !in section then Ok(default)
    else match section[key]
      case JInt(i) => Ok(i)
      case JBool(b) => Ok(if b then 1 else 0)
      case _ => Err(Uncaught("TypeError"))
  }

  /** Whether `section.get(key, …)` can be compared with a length: absent, an
      integer or a boolean. */
  predicate Numeric(section: map<string, Json>, key: string) {
    key !in section || section[key].JInt? || section[key].JBool?
  }

  /** All four thresholds read at once: the reading `should_presummary` agrees
      with whenever every threshold is numeric. */
  function ThresholdsOf(section: map<string, Json>): (r: Result<PresummaryConfig, Failure>)
    ensures r.Ok? <==> Numeric(section, "long_tweet_chars") && Numeric(section, "long_quote_chars")
                       && Numeric(section, "long_combined_chars") && Numeric(section, "thread_min_tweets")
    ensures r.Err? ==> r.error == Uncaught("TypeError")
    ensures r.Ok? ==> && Threshold(section, "long_tweet_chars", 500) == Ok(r.value.longTweetChars)
                      && Threshold(section, "long_quote_chars", 300) == Ok(r.value.longQuoteChars)
                      && Threshold(section, "long_combined_chars", 600) == Ok(r.value.longCombinedChars)
                      && Threshold(section, "thread_min_tweets", 2) == Ok(r.value.threadMinTweets)
  {
    var a := Threshold(section, "long_tweet_chars", 500);
    var b := Threshold(section, "long_quote_chars", 300);
    var c := Threshold(section, "long_combined_chars", 600);
    var d := Threshold(section, "thread_min_tweets", 2);
    if a.Err? then Err(a.error)
    else if b.Err? then Err(b.error)
    else if c.Err? then Err(c.error)
    else if d.Err? then Err(d.error)
    else Ok(PresummaryConfig(a.value, b.value, c.value, d.value))
  }

  /** A missing configuration, and a section missing the threshold keys, both
      give the 500 / 300 / 600 / 2 defaults. */
  lemma DefaultsWhenMissing(section: map<string, Json>)
    requires "long_tweet_chars" !in section && "long_quote_chars" !in section
    requires "long_combined_chars" !in section && "thread_min_tweets" !in section
    ensures ThresholdsOf(section) == Ok(Defaults)
    ensures ThresholdsOf(DefaultSection) == Ok(Defaults)
    ensures EnabledOf(DefaultSection)
  {
  }

  /** A post over the limits `c`: strictly longer than the post, quote or
      combined limit. */
  predicate ExceedsPost(t: Tweet, c: PresummaryConfig) {
    || |t.text| > c.longTweetChars
    || (t.quoted.Some? && |t.quoted.value.text| > c.longQuoteChars)
    || ContentLength(t) > c.longCombinedChars
  }

  /** A list over the limits `c`: long enough as a thread, or a one-element list
      whose post is over them. */
  predicate ExceedsList(ts: seq<Tweet>, c: PresummaryConfig) {
    if |ts| >= c.threadMinTweets then true
    else if |ts| == 1 then ExceedsPost(ts[0], c)
    else false
  }

  /** `should_presummary` on one post. Each threshold is read only when the test
      before it failed, and the quote limit only for a post with a quote, so a
      non-numeric threshold raises `TypeError` only once it is reached. */
  function ShouldSingle(t: Tweet, section: map<string, Json>): (r: Result<bool, Failure>)
    ensures ThresholdsOf(section).Ok? ==> r == Ok(ExceedsPost(t, ThresholdsOf(section).value))
    ensures r.Err? ==> r.error == Uncaught("TypeError")
    ensures var a := Threshold(section, "long_tweet_chars", 500);
      a.Ok? && |t.text| > a.value ==> r == Ok(true)
  {
    match Threshold(section, "long_tweet_chars", 500)
    case Err(f) => Err(f)
    case Ok(a) =>
      if |t.text| > a then Ok(true)
      else
        var quoteLong :=
          if t.quoted.None? then Ok(false)
          else match Threshold(section, "long_quote_chars", 300)
            case Err(f) => Err(f)
            case Ok(b) => Ok(|t.quoted.value.text| > b);
        match quoteLong
        case Err(f) => Err(f)
        case Ok(true) => Ok(true)
        case Ok(false) =>
          match Threshold(section, "long_combined_chars", 600)
          case Err(f) => Err(f)
          case Ok(c) => Ok(ContentLength(t) > c)
  }

  /** `should_presummary` on a list: the thread minimum is read first; a shorter
      one-element list is judged as its post, and the post limits are read for
      no other list. */
  function ShouldThread(ts: seq<Tweet>, section: map<string, Json>): (r: Result<bool, Failure>)
    ensures ThresholdsOf(section).Ok? ==> r == Ok(ExceedsList(ts, ThresholdsOf(section).value))
    ensures r.Err? ==> r.error == Uncaught("TypeError")
    ensures var m := Threshold(section, "thread_min_tweets", 2);
      && (m.Err? ==> r.Err?)
      && (m.Ok? && |ts| >= m.value ==> r == Ok(true))
      && (m.Ok? && |ts| < m.value ==> r == (if |ts| == 1 then ShouldSingle(ts[0], section) else Ok(false)))
  {
    match Threshold(section, "thread_min_tweets", 2)
    case Err(f) => Err(f)
    case Ok(m) =>
      if |ts| >= m then Ok(true)
      else if |ts| == 1 then ShouldSingle(ts[0], section)
      else Ok(false)
  }

  /** Judging a post fails exactly when a non-numeric threshold is reached: the
      post limit, then the quote limit for a quoting post within the post limit,
      then the combined limit for a post within both. */
  lemma ShouldSingleFails(t: Tweet, section: map<string, Json>)
    ensures ShouldSingle(t, section).Err? <==>
      || !Numeric(section, "long_tweet_chars")
      || (Threshold(section, "long_tweet_chars", 500).value >= |t.text|
          && ((t.quoted.Some? && !Numeric(section, "long_quote_chars"))
              || (!(t.quoted.Some? && |t.quoted.value.text| > Threshold(section, "long_quote_chars", 300).value)
                  && !Numeric(section, "long_combined_chars"))))
  {
  }

  /** The quote limit is never read for a post without a quote. */
  lemma QuoteLimitOnlyForQuotes(t: Tweet, section: map<string, Json>)
    requires t.quoted.None?
    ensures ShouldSingle(t, section) == ShouldSingle(t, section - {"long_quote_chars"})
  {
  }

  /** Without a quote, and with the combined limit no lower than the post limit,
      only the post limit matters, and it is strict. */
  lemma ExceedsPostWithoutQuote(t: Tweet, c: PresummaryConfig)
    requires t.quoted.None? && c.longCombinedChars >= c.longTweetChars
    ensures ExceedsPost(t, c) <==> |t.text| > c.longTweetChars
  {
  }

  /** Raising any threshold never makes more content qualify. */
  lemma ExceedsListMonotone(ts: seq<Tweet>, c: PresummaryConfig, c': PresummaryConfig)
    requires c'.longTweetChars >= c.longTweetChars && c'.longQuoteChars >= c.longQuoteChars
    requires c'.longCombinedChars >= c.longCombinedChars && c'.threadMinTweets >= c.threadMinTweets
    ensures ExceedsList(ts, c') ==> ExceedsList(ts, c)
    ensures |ts| == 1 ==> (ExceedsPost(ts[0], c') ==> ExceedsPost(ts[0], c))
  {
  }

  /** A one-element list below the thread minimum is judged as its post, and the
      empty list never qualifies under a positive minimum. */
  lemma ExceedsListSmall(ts: seq<Tweet>, c: PresummaryConfig)
    requires |ts| < c.threadMinTweets
    ensures |ts| == 1 ==> (ExceedsList(ts, c) <==> ExceedsPost(ts[0], c))
    ensures |ts| == 0 ==> !ExceedsList(ts, c)
  {
  }

  const ThreadSeparator := "\n---\n"

  /** The `ORIGINAL LENGTH` line: characters, and for a thread the number of
      separators plus one. */
  function LengthDesc(content: string, contentType: string): string {
    if contentType == "thread" then
      NatToString(|content|) + " chars / " + NatToString(CountOcc(content, ThreadSeparator) + 1) + " tweets"
    else NatToString(|content|) + " chars"
  }

  const PromptPreamble := "You are summarizing Twitter content for a digest. Preserve the key insights in detail.\n\n"

  const PromptInstructions :=
    "INSTRUCTIONS:\n"
    + "- Write 2 paragraphs (4-6 sentences total)\n"
    + "- First paragraph: core message, main argument, key claims\n"
    + "- Second paragraph: supporting details, specific numbers, recommendations, implications\n"
    + "- Preserve the author's perspective and tone\n"
    + "- Keep technical details if present\n"
    + "- Note what's opinion vs fact where relevant\n\n"
    + "OUTPUT: Just the summary, no preamble."

  /** The prompt's shape around its variable fields. */
  function PromptLayout(contentType: string, author: string, desc: string, content: string): string {
    PromptPreamble
    + ("CONTENT TYPE: " + contentType + "\n")
    + ("AUTHOR: @" + author + "\n")
    + ("ORIGINAL LENGTH: " + desc + "\n\n")
    + ("CONTENT:\n" + content + "\n\n")
    + PromptInstructions
  }


  lemma LayoutShows(pre: string, a: string, b: string, c: string, d: string, post: string)
    ensures Contains(pre + a + b + c + d + post, b)
    ensures Contains(pre + a + b + c + d + post, c)
    ensures Contains(pre + a + b + c + d + post, d)
    ensures StartsWith(pre + a + b + c + d + post, pre + a)
  {
    var p := pre + a + b + c + d + post;
    ContainsInfix(pre + a, b, c + d + post);
    assert pre + a + b + (c + d + post) == p;
    ContainsInfix(pre + a + b, c, d + post);
    assert pre + a + b + c + (d + post) == p;
    ContainsInfix(pre + a + b + c, d, post);
    assert p[..|pre + a|] == pre + a;
  }

  /** `build_presummary_prompt`. */
  function BuildPresummaryPrompt(content: string, contentType: string, author: string): string {
    PromptLayout(contentType, author, LengthDesc(content, contentType), content)
  }

  /** The prompt names the content type, the author and the length, carries the
      content verbatim between its headings, and ends with the instructions. */
  lemma PromptShows(content: string, contentType: string, author: string)
    ensures var p := BuildPresummaryPrompt(content, contentType, author);
      && StartsWith(p, PromptPreamble + ("CONTENT TYPE: " + contentType + "\n"))
      && Contains(p, "AUTHOR: @" + author + "\n")
      && Contains(p, "ORIGINAL LENGTH: " + LengthDesc(content, contentType) + "\n\n")
      && Contains(p, "CONTENT:\n" + content + "\n\n")
      && EndsWith(p, PromptInstructions)
  {
    LayoutShows(PromptPreamble, "CONTENT TYPE: " + contentType + "\n", "AUTHOR: @" + author + "\n",
      "ORIGINAL LENGTH: " + LengthDesc(content, contentType) + "\n\n", "CONTENT:\n" + content + "\n\n",
      PromptInstructions);
  }

  /** `Tweet i: text` for the i-th member, counting from one. */
  function ThreadPart(i: nat, t: Tweet): string {
    "Tweet " + NatToString(i) + ": " + t.text
  }

  function ThreadParts(thread: seq<Tweet>): (r: seq<string>)
    ensures |r| == |thread| && forall i :: 0 <= i < |thread| ==> r[i] == ThreadPart(i + 1, thread[i])
  {
    seq(|thread|, i requires 0 <= i < |thread| => ThreadPart(i + 1, thread[i]))
  }

  function ThreadContent(thread: seq<Tweet>): string {
    Join(ThreadParts(thread), ThreadSeparator)
  }

  /** When no member's text has a line break, the separator count in the thread
      prompt is exactly the number of members. */
  lemma ThreadPromptCountsPosts(thread: seq<Tweet>)
    requires thread != []
    requires forall i, j :: 0 <= i < |thread| && 0 <= j < |thread[i].text| ==> thread[i].text[j] != '\n'
    ensures LengthDesc(ThreadContent(thread), "thread")
            == NatToString(|ThreadContent(thread)|) + " chars / " + NatToString(|thread|) + " tweets"
  {
    var parts := ThreadParts(thread);
    forall i, j | 0 <= i < |parts| && 0 <= j < |parts[i]|
      ensures parts[i][j] != ThreadSeparator[0]
    {
      var digits := NatToString(i + 1);
      assert parts[i] == "Tweet " + digits + ": " + thread[i].text;
      if 6 <= j < 6 + |digits| {
        assert parts[i][j] == digits[j - 6];
      } else if j >= 8 + |digits| {
        assert parts[i][j] == thread[i].text[j - 8 - |digits|];
      }
    }
    CountOccJoin(parts, ThreadSeparator);
  }

  /** The content of a single post, and its type: a quote appends the quoted text
      and its author. */
  function SingleContent(t: Tweet): (r: (string, string))
    ensures StartsWith(r.0, t.text)
    ensures r.1 == (if t.quoted.Some? then "quote_chain" else "long_tweet")
  {
    if t.quoted.Some? then
      (t.text + "\n\nQUOTED CONTENT:\n" + t.quoted.value.text
        + "\n(Originally by @" + t.quoted.value.author.username + ")", "quote_chain")
    else (t.text, "long_tweet")
  }

  function SinglePrompt(t: Tweet): string {
    var (content, contentType) := SingleContent(t);
    BuildPresummaryPrompt(content, contentType, t.author.username)
  }

  function ThreadPrompt(thread: seq<Tweet>): string
    requires thread != []
  {
    BuildPresummaryPrompt(ThreadContent(thread), "thread", thread[0].author.username)
  }

  /** The request the summarisers send: no system prompt, no images. */
  function Ask(prompt: string): LlmRequest {
    LlmRequest(prompt, "", None)
  }

  /** What a summariser makes of the model's answer: a stripped non-empty answer
      is the summary, an empty one is none, a model error is swallowed as none,
      and any other failure escapes. */
  function SummaryOf(reply: Result<string, Failure>): (r: Result<Option<string>, Failure>)
    ensures r.Ok? && r.value.Some? ==> reply.Ok? && reply.value != "" && r.value.value == Strip(reply.value)
    ensures reply == Ok("") ==> r == Ok(None)
    ensures r.Err? <==> reply.Err? && !(reply.error.Raised? && reply.error.error.kind == Llm)
    ensures r.Err? ==> r.error == reply.error
  {
    match reply
    case Ok(s) => Ok(if s == "" then None else Some(Strip(s)))
    case Err(f) => if f.Raised? && f.error.kind == Llm then Ok(None) else Err(f)
  }

  /** `_summarize_single_tweet`: the summary and the prompt it sent. */
  method SummarizeSingleTweet(t: Tweet, llm: Provider) returns (summary: Result<Option<string>, Failure>, prompt: string)
    ensures prompt == SinglePrompt(t)
    ensures summary == SummaryOf(llm(Ask(prompt)))
  {
    var content := t.text;
    var contentType := "long_tweet";
    if t.quoted.Some? {
      content := content + "\n\nQUOTED CONTENT:\n" + t.quoted.value.text;
      content := content + "\n(Originally by @" + t.quoted.value.author.username + ")";
      contentType := "quote_chain";
    }
    prompt := BuildPresummaryPrompt(content, contentType, t.author.username);
    summary := SummaryOf(llm(Ask(prompt)));
  }

  /** `_summarize_thread`: the loop numbering the members, the join, then one
      request. Indexing the first member of an empty thread raises `IndexError`,
      which the handler does not catch. */
  method SummarizeThread(thread: seq<Tweet>, llm: Provider) returns (summary: Result<Option<string>, Failure>, prompt: Option<string>)
    ensures thread == [] ==> summary == Err(Uncaught("IndexError")) && prompt == None
    ensures thread != [] ==> prompt == Some(ThreadPrompt(thread)) && summary == SummaryOf(llm(Ask(prompt.value)))
  {
    var parts: seq<string> := [];
    var i := 0;
    while i < |thread|
      invariant 0 <= i <= |thread|
      invariant parts == ThreadParts(thread[..i])
    {
      parts := parts + [ThreadPart(i + 1, thread[i])];
      i := i + 1;
    }
    assert thread[..i] == thread;
    var content := Join(parts, ThreadSeparator);
    if thread == [] {
      return Err(Uncaught("IndexError")), None;
    }
    var p := BuildPresummaryPrompt(content, "thread", thread[0].author.username);
    prompt := Some(p);
    summary := SummaryOf(llm(Ask(p)));
  }

  /** Every post of a unit, paired with the unit's summary. */
  function Tag(thread: seq<Tweet>, s: Option<string>): (r: seq<(Tweet, Option<string>)>)
    ensures |r| == |thread| && forall i :: 0 <= i < |thread| ==> r[i] == (thread[i], s)
  {
    seq(|thread|, i requires 0 <= i < |thread| => (thread[i], s))
  }

  /** Whether a unit is sent to the model: a lone post is judged as a post, any
      other unit as a list. */
  function NeedsSummary(thread: seq<Tweet>, section: map<string, Json>): Result<bool, Failure> {
    if |thread| == 1 then ShouldSingle(thread[0], section) else ShouldThread(thread, section)
  }

  /** One unit of the driver loop: its summary and the prompts it sent. */
  function UnitOutcome(thread: seq<Tweet>, llm: Provider, section: map<string, Json>)
    : (r: Result<(Option<string>, seq<string>), Failure>)
    ensures NeedsSummary(thread, section).Err? ==> r == Err(NeedsSummary(thread, section).error)
    ensures r.Ok? ==> NeedsSummary(thread, section).Ok?
                      && |r.value.1| == (if NeedsSummary(thread, section).value then 1 else 0)
    ensures r.Ok? && NeedsSummary(thread, section) == Ok(false) ==> r.value.0 == None
  {
    match NeedsSummary(thread, section)
    case Err(f) => Err(f)
    case Ok(need) =>
    if !need then Ok((None, []))
    else if |thread| == 1 then
      var p := SinglePrompt(thread[0]);
      match SummaryOf(llm(Ask(p)))
      case Ok(s) => Ok((s, [p]))
      case Err(f) => Err(f)
    else if thread == [] then Err(Uncaught("IndexError"))
    else
      var p := ThreadPrompt(thread);
      match SummaryOf(llm(Ask(p)))
      case Ok(s) => Ok((s, [p]))
      case Err(f) => Err(f)
  }

  /** The driver loop over the units, in order: the pairs and the prompts sent. */
  function PresummarySpec(units: seq<seq<Tweet>>, llm: Provider, section: map<string, Json>)
    : Result<(seq<(Tweet, Option<string>)>, seq<string>), Failure>
  {
    if units == [] then Ok(([], []))
    else match PresummarySpec(units[..|units| - 1], llm, section)
      case Err(f) => Err(f)
      case Ok((rs, ps)) =>
        match UnitOutcome(units[|units| - 1], llm, section)
        case Err(f) => Err(f)
        case Ok((s, p)) => Ok((rs + Tag(units[|units| - 1], s), ps + p))
  }

  /** `presummary_tweets` as a value: the thresholds are read as each unit is
      judged, so a batch that never reaches a threshold never reads it. */
  function PresummaryTweetsSpec(tweets: seq<Tweet>, key: Tweet -> int, llm: Provider, config: Option<map<string, Json>>)
    : Result<(seq<(Tweet, Option<string>)>, seq<string>), Failure>
  {
    match Section(config)
    case Err(f) => Err(f)
    case Ok(section) =>
      if !EnabledOf(section) then Ok((Tag(tweets, None), []))
      else PresummarySpec(Values(ThreadsSpec(tweets, key)), llm, section)
  }

  lemma {:induction false} PresummaryErrPersists(units: seq<seq<Tweet>>, llm: Provider, section: map<string, Json>, k: nat)
    requires k <= |units| && PresummarySpec(units[..k], llm, section).Err?
    ensures PresummarySpec(units, llm, section) == PresummarySpec(units[..k], llm, section)
    decreases |units| - k
  {
    if k < |units| {
      assert units[..k + 1][..k] == units[..k];
      PresummaryErrPersists(units, llm, section, k + 1);
    } else {
      assert units[..k] == units;
    }
  }

  /** The body of the driver loop for one unit: the single-post or the thread
      path, and the prompts it sent. */
  method SummarizeUnit(thread: seq<Tweet>, llm: Provider, section: map<string, Json>)
    returns (summary: Result<Option<string>, Failure>, sent: seq<string>)
    ensures summary.Err? ==> UnitOutcome(thread, llm, section) == Err(summary.error)
    ensures summary.Ok? ==> UnitOutcome(thread, llm, section) == Ok((summary.value, sent))
  {
    summary, sent := Ok(None), [];
    if |thread| == 1 {
      var t := thread[0];
      var need := ShouldSingle(t, section);
      if need.Err? {
        return Err(need.error), [];
      }
      if need.value {
        var p;
        summary, p := SummarizeSingleTweet(t, llm);
        sent := [p];
      }
    } else {
      var need := ShouldThread(thread, section);
      if need.Err? {
        return Err(need.error), [];
      }
      if need.value {
        var p;
        summary, p := SummarizeThread(thread, llm);
        if p.Some? {
          sent := [p.value];
        }
      }
    }
  }

  /** `presummary_tweets`: the disabled shortcut, the reconstruction, then the
      loop over the threads asking once per unit that needs it. `prompts` are the
      requests sent to the model, in order. */
  method PresummaryTweets(tweets: seq<Tweet>, key: Tweet -> int, llm: Provider, config: Option<map<string, Json>>)
    returns (r: Result<seq<(Tweet, Option<string>)>, Failure>, prompts: seq<string>)
    ensures var spec := PresummaryTweetsSpec(tweets, key, llm, config);
      && (spec.Ok? ==> r == Ok(spec.value.0) && prompts == spec.value.1)
      && (spec.Err? ==> r == Err(spec.error))
  {
    prompts := [];
    var section := Section(config);
    if section.Err? {
      return Err(section.error), [];
    }
    if !EnabledOf(section.value) {
      return Ok(Tag(tweets, None)), [];
    }
    var threads := ReconstructThreads(tweets, key);
    r, prompts := SummarizeUnits(Values(threads), llm, section.value);
  }

  /** The driver loop of `presummary_tweets` over the units, stopping at the
      first failure. */
  method SummarizeUnits(units: seq<seq<Tweet>>, llm: Provider, section: map<string, Json>)
    returns (r: Result<seq<(Tweet, Option<string>)>, Failure>, prompts: seq<string>)
    ensures var spec := PresummarySpec(units, llm, section);
      && (spec.Ok? ==> r == Ok(spec.value.0) && prompts == spec.value.1)
      && (spec.Err? ==> r == Err(spec.error))
  {
    prompts := [];
    var results: seq<(Tweet, Option<string>)> := [];
    var k := 0;
    while k < |units|
      invariant 0 <= k <= |units|
      invariant PresummarySpec(units[..k], llm, section) == Ok((results, prompts))
    {
      assert units[..k + 1][..k] == units[..k];
      var thread := units[k];
      var summary, sent := SummarizeUnit(thread, llm, section);
      prompts := prompts + sent;
      if summary.Err? {
        PresummaryErrPersists(units, llm, section, k + 1);
        return Err(summary.error), prompts;
      }
      results := results + Tag(thread, summary.value);
      k := k + 1;
    }
    assert units[..k] == units;
    r := Ok(results);
  }

  /** The posts of the pairs. */
  function Firsts(rs: seq<(Tweet, Option<string>)>): (r: seq<Tweet>)
    ensures |r| == |rs| && forall i :: 0 <= i < |rs| ==> r[i] == rs[i].0
  {
    seq(|rs|, i requires 0 <= i < |rs| => rs[i].0)
  }

  /** The number of units sent to the model. */
  function CountNeeding(units: seq<seq<Tweet>>, section: map<string, Json>): (n: nat)
    ensures n <= |units|
  {
    if units == [] then 0
    else CountNeeding(units[..|units| - 1], section) + (if NeedsSummary(units[|units| - 1], section) == Ok(true) then 1 else 0)
  }

  /** One step of a successful run: the earlier units succeed, then the last. */
  lemma PresummaryStep(units: seq<seq<Tweet>>, llm: Provider, section: map<string, Json>)
    requires units != [] && PresummarySpec(units, llm, section).Ok?
    ensures var init, last := units[..|units| - 1], units[|units| - 1];
      && PresummarySpec(init, llm, section).Ok? && UnitOutcome(last, llm, section).Ok?
      && PresummarySpec(units, llm, section).value
         == (PresummarySpec(init, llm, section).value.0 + Tag(last, UnitOutcome(last, llm, section).value.0),
             PresummarySpec(init, llm, section).value.1 + UnitOutcome(last, llm, section).value.1)
      && |UnitOutcome(last, llm, section).value.1| == (if NeedsSummary(last, section) == Ok(true) then 1 else 0)
      && CountNeeding(units, section)
         == CountNeeding(init, section) + (if NeedsSummary(last, section) == Ok(true) then 1 else 0)
  {
  }

  /** A successful run pairs every post of every unit, in unit order. */
  lemma {:induction false} PresummaryListsUnits(units: seq<seq<Tweet>>, llm: Provider, section: map<string, Json>)
    requires PresummarySpec(units, llm, section).Ok?
    ensures Firsts(PresummarySpec(units, llm, section).value.0) == Concat(units)
  {
    if units != [] {
      var init, last := units[..|units| - 1], units[|units| - 1];
      PresummaryStep(units, llm, section);
      PresummaryListsUnits(init, llm, section);
      var rs := PresummarySpec(init, llm, section).value.0;
      assert units == init + [last];
      ConcatAppend(init, last);
      FirstsTag(rs, last, UnitOutcome(last, llm, section).value.0);
    }
  }

  /** A successful run sends exactly one prompt per unit that needs a summary. */
  lemma {:induction false} PresummaryCountsPrompts(units: seq<seq<Tweet>>, llm: Provider, section: map<string, Json>)
    requires PresummarySpec(units, llm, section).Ok?
    ensures |PresummarySpec(units, llm, section).value.1| == CountNeeding(units, section)
  {
    if units != [] {
      PresummaryStep(units, llm, section);
      PresummaryCountsPrompts(units[..|units| - 1], llm, section);
    }
  }

  /** A successful run pairs every post of every unit, in unit order, and sends
      exactly one prompt per unit that needs a summary. */
  lemma PresummaryCoversUnits(units: seq<seq<Tweet>>, llm: Provider, section: map<string, Json>)
    requires PresummarySpec(units, llm, section).Ok?
    ensures Firsts(PresummarySpec(units, llm, section).value.0) == Concat(units)
    ensures |PresummarySpec(units, llm, section).value.1| == CountNeeding(units, section)
  {
    PresummaryListsUnits(units, llm, section);
    PresummaryCountsPrompts(units, llm, section);
  }

  lemma FirstsTag(rs: seq<(Tweet, Option<string>)>, thread: seq<Tweet>, s: Option<string>)
    ensures Firsts(rs + Tag(thread, s)) == Firsts(rs) + thread
  {
  }

  /** No two units share a conversation. */
  predicate Separated(units: seq<seq<Tweet>>) {
    forall j, j', a, b ::
      (0 <= j < |units| && 0 <= j' < |units| && 0 <= a < |units[j]| && 0 <= b < |units[j']|
       && units[j][a].conversationId == units[j'][b].conversationId) ==> j == j'
  }

  lemma ThreadsSeparated(ts: seq<Tweet>, key: Tweet -> int)
    ensures Separated(Values(ThreadsSpec(ts, key)))
  {
    var r: Groups := ThreadsSpec(ts, key);
    var vs: seq<seq<Tweet>> := Values(r);
    ThreadsArePartition(ts, key);
    forall j | 0 <= j < |r|
      ensures forall a :: 0 <= a < |vs[j]| ==> vs[j][a].conversationId == r[j].0
    {
      MembersShareConversation(ts, r[j].0);
      assert multiset(vs[j]) == multiset(Members(ts, r[j].0));
      forall a | 0 <= a < |vs[j]|
        ensures vs[j][a].conversationId == r[j].0
      {
        assert vs[j][a] in multiset(Members(ts, r[j].0));
        var i :| 0 <= i < |Members(ts, r[j].0)| && Members(ts, r[j].0)[i] == vs[j][a];
      }
    }
  }

  lemma {:induction false} InConcat(units: seq<seq<Tweet>>, i: nat)
    requires i < |Concat(units)|
    ensures exists j, a :: 0 <= j < |units| && 0 <= a < |units[j]| && units[j][a] == Concat(units)[i]
  {
    assert units != [];
    if i < |units[0]| {
      assert Concat(units)[i] == units[0][i];
    } else {
      InConcat(units[1..], i - |units[0]|);
      var j, a :| 0 <= j < |units[1..]| && 0 <= a < |units[1..][j]| && units[1..][j][a] == Concat(units[1..])[i - |units[0]|];
      assert units[j + 1][a] == Concat(units)[i];
    }
  }

  /** Pairs whose posts of one conversation share a summary. */
  predicate OneSummaryPerConversation(rs: seq<(Tweet, Option<string>)>) {
    forall i, i' :: 0 <= i < |rs| && 0 <= i' < |rs| && rs[i].0.conversationId == rs[i'].0.conversationId
      ==> rs[i].1 == rs[i'].1
  }

  /** Appending the last unit, tagged with one summary, to the pairs of the
      earlier units keeps one summary per conversation. */
  lemma TagLastUnit(units: seq<seq<Tweet>>, rs0: seq<(Tweet, Option<string>)>, s: Option<string>)
    requires units != [] && Separated(units)
    requires Firsts(rs0) == Concat(units[..|units| - 1]) && OneSummaryPerConversation(rs0)
    ensures OneSummaryPerConversation(rs0 + Tag(units[|units| - 1], s))
  {
    var init, last := units[..|units| - 1], units[|units| - 1];
    var rs := rs0 + Tag(last, s);
    forall i, i' | 0 <= i < |rs0| && |rs0| <= i' < |rs|
      ensures rs[i].0.conversationId != rs[i'].0.conversationId
    {
      InConcat(init, i);
      var j, a :| 0 <= j < |init| && 0 <= a < |init[j]| && init[j][a] == Concat(init)[i];
      assert rs[i].0 == units[j][a];
      assert rs[i'].0 == units[|units| - 1][i' - |rs0|];
    }
  }

  /** Posts of one conversation carry one summary: every member of a thread gets
      the thread's summary. */
  lemma {:induction false} SummaryPerConversation(units: seq<seq<Tweet>>, llm: Provider, section: map<string, Json>)
    requires Separated(units) && PresummarySpec(units, llm, section).Ok?
    ensures OneSummaryPerConversation(PresummarySpec(units, llm, section).value.0)
  {
    if units != [] {
      var init := units[..|units| - 1];
      assert Separated(init) by {
        forall j | 0 <= j < |init| ensures init[j] == units[j] { }
      }
      PresummaryStep(units, llm, section);
      SummaryPerConversation(init, llm, section);
      PresummaryCoversUnits(init, llm, section);
      TagLastUnit(units, PresummarySpec(init, llm, section).value.0, UnitOutcome(units[|units| - 1], llm, section).value.0);
    }
  }

  /** On success the driver returns one pair per input post, and the posts of one
      conversation share their summary. */
  lemma PresummaryTweetsShape(tweets: seq<Tweet>, key: Tweet -> int, llm: Provider, config: Option<map<string, Json>>)
    requires PresummaryTweetsSpec(tweets, key, llm, config).Ok?
    ensures var rs := PresummaryTweetsSpec(tweets, key, llm, config).value.0;
      && multiset(Firsts(rs)) == multiset(tweets)
      && |rs| == |tweets|
      && forall i, i' :: 0 <= i < |rs| && 0 <= i' < |rs| && rs[i].0.conversationId == rs[i'].0.conversationId
           ==> rs[i].1 == rs[i'].1
  {
    var section := Section(config).value;
    var rs := PresummaryTweetsSpec(tweets, key, llm, config).value.0;
    if !EnabledOf(section) {
      assert Firsts(rs) == tweets;
    } else {
      var units := Values(ThreadsSpec(tweets, key));
      PresummaryCoversUnits(units, llm, section);
      ThreadsArePartition(tweets, key);
      ThreadsSeparated(tweets, key);
      SummaryPerConversation(units, llm, section);
      assert |multiset(Firsts(rs))| == |multiset(tweets)|;
    }
  }

  /** Disabled pre-summarisation pairs every post with no summary, in input
      order, and sends nothing. */
  lemma DisabledSendsNothing(tweets: seq<Tweet>, key: Tweet -> int, llm: Provider, config: Option<map<string, Json>>)
    requires Section(config).Ok? && !EnabledOf(Section(config).value)
    ensures var spec := PresummaryTweetsSpec(tweets, key, llm, config);
      && spec.Ok? && spec.value.1 == [] && Firsts(spec.value.0) == tweets
      && forall i :: 0 <= i < |spec.value.0| ==> spec.value.0[i].1 == None
  {
    assert Firsts(Tag(tweets, None)) == tweets;
  }

  /** An empty batch reaches no threshold: even a threshold of the wrong kind
      gives an empty result. */
  lemma EmptyBatchReadsNoThreshold(key: Tweet -> int, llm: Provider, v: Json)
    ensures PresummaryTweetsSpec([], key, llm, Some(map["pre_summarization" := JObj(map["long_tweet_chars" := v])]))
            == Ok(([], []))
  {
    assert ThreadsSpec([], key) == [];
  }

  /** A post over the post limit needs a summary whatever the later thresholds
      hold, and an all-numeric section decides as the limits it holds. */
  lemma ThresholdsReadLazily(t: Tweet, section: map<string, Json>, v: Json, w: Json)
    requires Threshold(section, "long_tweet_chars", 500).Ok?
    requires |t.text| > Threshold(section, "long_tweet_chars", 500).value
    ensures ShouldSingle(t, section["long_quote_chars" := v]["long_combined_chars" := w]) == Ok(true)
    ensures ShouldThread([t], section["long_quote_chars" := v]["long_combined_chars" := w]).Ok?
            ==> ShouldThread([t], section["long_quote_chars" := v]["long_combined_chars" := w]) == Ok(true)
  {
    var s := section["long_quote_chars" := v]["long_combined_chars" := w];
    assert Threshold(s, "long_tweet_chars", 500) == Threshold(section, "long_tweet_chars", 500);
  }

  /** A model error on one unit gives that unit no summary and the run goes on. */
  lemma ModelErrorIsNoSummary(thread: seq<Tweet>, llm: Provider, section: map<string, Json>, e: XDigestError)
    requires |thread| == 1 && ShouldSingle(thread[0], section) == Ok(true)
    requires llm(Ask(SinglePrompt(thread[0]))) == Err(Raised(e)) && e.kind == Llm
    ensures UnitOutcome(thread, llm, section) == Ok((None, [SinglePrompt(thread[0])]))
  {
  }
}
