/** Digest assembly: the 0 / sparse / model policy ladder, the payload and the
    system prompt handed to the model, the fixed templates, and the splitter
    that cuts a long digest into messages at section boundaries. */
module Digest {
  import opened Wrappers
  import opened Seqs
  import opened Text
  import opened Json
  import opened Errors
  import opened Utils
  import opened Models
  import opened LlmBase

  const MinTweetsForLlm := 5
  const MaxMessageLength := 4000

  /** `config.get(key, default)` as an f-string prints it. */
  function Setting(config: map<string, Json>, key: string, default: string): (r: string)
    ensures key !in config ==> r == default
    ensures key in config && config[key].JStr? ==> r == config[key].s
  {
    if key in config then Render(config[key]) else default
  }

  const Clipboard := "\U{1F4CB}"
  const Heart := "❤️"
  const Dash := "—"

  /** The time as the digest sees it: the instant, that day written as
      `%b %d, %Y`, and the two calendar parsers of `parse_twitter_date`. */
  datatype Clock = Clock(now: Instant, today: string,
                         twitterFormat: string -> Option<Instant>,
                         isoFormat: string -> Option<Instant>)

  /** `_format_relative_time`: the post's timestamp parsed and shown relative to now. */
  function Relative(clock: Clock, createdAt: string): string {
    FormatRelativeTime(ParseTwitterDate(createdAt, clock.twitterFormat, clock.isoFormat), clock.now)
  }

  function PostLink(t: Tweet): string {
    "https://x.com/" + t.author.username + "/status/" + t.id
  }

  /** The first line of both fallback templates. */
  function DigestTitle(emoji: string, name: string, today: string): string {
    emoji + " *" + name + " Digest* " + Dash + " " + today
  }

  const QuietLine := "\U{1F4ED} *Quiet period* " + Dash + " No new tweets since last digest."

  // ---------------------------------------------------------------------------
  // The two templates used without the model

  /** `format_empty_digest`: the title under the configured emoji and display
      name (the list name when there is none), then the quiet-period line. */
  function FormatEmptyDigest(listName: Json, config: map<string, Json>, today: string): (r: string)
    ensures var emoji := Setting(config, "emoji", Clipboard);
      var name := Render(if "display_name" in config then config["display_name"] else listName);
      StartsWith(r, DigestTitle(emoji, name, today) + "\n\n") && EndsWith(r, QuietLine)
  {
    var emoji := Setting(config, "emoji", Clipboard);
    var name := Render(if "display_name" in config then config["display_name"] else listName);
    var title := DigestTitle(emoji, name, today) + "\n\n";
    var r := title + QuietLine;
    assert r[..|title|] == title && r[|r| - |QuietLine|..] == QuietLine;
    r
  }

  /** The display name of the sparse template. */
  function SparseName(config: map<string, Json>): string {
    Render(if "display_name" in config then config["display_name"]
           else if "list_name" in config then config["list_name"] else JStr("List"))
  }

  /** The first 100 characters of the text, with `...` when it was longer. */
  function Excerpt(text: string): string {
    PyTake(text, 100) + (if |text| > 100 then "..." else "")
  }

  lemma ExcerptShape(text: string)
    ensures |text| <= 100 ==> Excerpt(text) == text
    ensures |text| > 100 ==> Excerpt(text) == text[..100] + "..." && |Excerpt(text)| == 103
  {
    if |text| <= 100 {
      assert text + "" == text;
    }
  }

  function SparseHeader(config: map<string, Json>, today: string, count: nat): seq<string> {
    var emoji := Setting(config, "emoji", Clipboard);
    [DigestTitle(emoji, SparseName(config), today), "",
     emoji + " *" + NatToString(count) + " tweets since last digest:*", ""]
  }

  function BulletLine(t: Tweet): string {
    "• @" + t.author.username + ": " + Excerpt(t.text)
  }

  function LikesLine(t: Tweet): string {
    "  " + IntToString(t.likeCount) + " " + Heart + " · " + PostLink(t)
  }

  /** The three lines of one post in the sparse template. */
  function SparseEntry(t: Tweet): seq<string> {
    [BulletLine(t), LikesLine(t), ""]
  }

  function SparseEntries(ts: seq<Tweet>): (r: seq<string>)
    ensures |r| == 3 * |ts|
  {
    if ts == [] then [] else SparseEntries(ts[..|ts| - 1]) + SparseEntry(ts[|ts| - 1])
  }

  function SparseLines(ts: seq<Tweet>, config: map<string, Json>, today: string): seq<string> {
    SparseHeader(config, today, |ts|) + SparseEntries(ts)
  }

  /** `format_sparse_digest`: the header, then three lines per post, joined by
      newlines. */
  method FormatSparseDigest(tweets: seq<Tweet>, config: map<string, Json>, today: string) returns (r: string)
    ensures r == Join(SparseLines(tweets, config, today), "\n")
  {
    var lines := AppendSparseEntries(SparseHeader(config, today, |tweets|), tweets);
    r := Join(lines, "\n");
  }

  /** The loop of `format_sparse_digest`: three lines appended per post. */
  method AppendSparseEntries(header: seq<string>, tweets: seq<Tweet>) returns (lines: seq<string>)
    ensures lines == header + SparseEntries(tweets)
  {
    lines := header;
    var i := 0;
    while i < |tweets|
      invariant 0 <= i <= |tweets|
      invariant lines == header + SparseEntries(tweets[..i])
    {
      var t := tweets[i];
      ghost var before := lines;
      assert tweets[..i + 1][..i] == tweets[..i];
      assert SparseEntries(tweets[..i + 1]) == SparseEntries(tweets[..i]) + SparseEntry(t);
      lines := lines + [BulletLine(t)];
      lines := lines + [LikesLine(t)];
      lines := lines + [""];
      assert lines == before + SparseEntry(t);
      i := i + 1;
    }
    assert tweets[..i] == tweets;
  }

  /** The sparse template lists every post, in order, each as a bullet with its
      excerpt, then its likes and link, then a blank line, after four header
      lines that count the posts. */
  lemma {:induction false} SparseEntriesAt(ts: seq<Tweet>, k: nat)
    requires k < |ts|
    ensures SparseEntries(ts)[3 * k] == BulletLine(ts[k])
    ensures SparseEntries(ts)[3 * k + 1] == LikesLine(ts[k])
    ensures SparseEntries(ts)[3 * k + 2] == ""
    decreases |ts|
  {
    var init := ts[..|ts| - 1];
    if k < |ts| - 1 {
      SparseEntriesAt(init, k);
      assert init[k] == ts[k];
    }
  }

  lemma SparseDigestShape(ts: seq<Tweet>, config: map<string, Json>, today: string)
    ensures var lines := SparseLines(ts, config, today);
      && |lines| == 4 + 3 * |ts|
      && lines[2] == Setting(config, "emoji", Clipboard) + " *" + NatToString(|ts|) + " tweets since last digest:*"
      && forall k :: 0 <= k < |ts| ==>
           lines[4 + 3 * k] == BulletLine(ts[k]) && lines[5 + 3 * k] == LikesLine(ts[k])
  {
    var lines := SparseLines(ts, config, today);
    var header := SparseHeader(config, today, |ts|);
    assert lines == header + SparseEntries(ts);
    assert |header| == 4;
    forall k | 0 <= k < |ts|
      ensures lines[4 + 3 * k] == BulletLine(ts[k]) && lines[5 + 3 * k] == LikesLine(ts[k])
    {
      SparseLineAt(header, ts, k);
    }
  }

  /** One post's bullet and likes lines, after a four-line header. */
  lemma SparseLineAt(header: seq<string>, ts: seq<Tweet>, k: nat)
    requires |header| == 4 && k < |ts|
    ensures (header + SparseEntries(ts))[4 + 3 * k] == BulletLine(ts[k])
    ensures (header + SparseEntries(ts))[5 + 3 * k] == LikesLine(ts[k])
  {
    var e := SparseEntries(ts);
    SparseEntriesAt(ts, k);
    TripleBound(k, |ts|);
    ConcatIndex(header, e, 3 * k);
    ConcatIndex(header, e, 3 * k + 1);
  }

  lemma TripleBound(k: nat, n: nat)
    requires k < n
    ensures 3 * k + 2 < 3 * n
  {
  }

  // ---------------------------------------------------------------------------
  // The payload

  /** The ids that have a selected image (the keys of `image_map`). */
  function ImageIds(images: seq<(string, string)>): set<string> {
    set p | p in images :: p.0
  }

  function PayloadHeader(config: map<string, Json>, today: string, posts: nat, summarized: nat, imaged: nat): seq<string> {
    ["# Digest Request: " + Setting(config, "emoji", Clipboard) + " " + Setting(config, "display_name", "List"),
     "**Period:** " + today,
     "**Tweets:** " + NatToString(posts) + " total (" + NatToString(summarized) + " pre-summarized, "
       + NatToString(imaged) + " with images)",
     "", "---", ""]
  }

  function TweetHeading(i: nat): string {
    "## Tweet " + NatToString(i)
  }

  function LinkLine(t: Tweet): string {
    "- **Link:** " + PostLink(t)
  }

  function SummaryLine(summary: string): string {
    "- **Summary:** " + summary
  }

  function TextLine(t: Tweet): string {
    "- **Text:** " + t.text
  }

  const ImageLine := "- **[Image attached]**"

  /** The content lines: the pre-summary and the original's length, or the text. */
  function ContentLines(t: Tweet, summaries: map<string, string>): seq<string> {
    if t.id in summaries then [SummaryLine(summaries[t.id]), "- **Original:** " + NatToString(|t.text|) + " chars"]
    else [TextLine(t)]
  }

  function QuoteLines(t: Tweet): seq<string> {
    if t.quoted.Some? then ["- **Quote:** @" + t.quoted.value.author.username + ": \"" + t.quoted.value.text + "\""]
    else []
  }

  /** The block for the `i`-th post. */
  function PayloadEntry(i: nat, t: Tweet, summaries: map<string, string>, imageIds: set<string>, clock: Clock): seq<string> {
    [TweetHeading(i),
     "- **Author:** @" + t.author.username + " (" + t.author.name + ")",
     "- **Time:** " + Relative(clock, t.createdAt),
     "- **Engagement:** " + IntToString(t.likeCount) + " " + Heart + " · " + IntToString(t.retweetCount)
       + " \U{1F501} · " + IntToString(t.replyCount) + " \U{1F4AC}"]
    + ContentLines(t, summaries)
    + QuoteLines(t)
    + [LinkLine(t)]
    + (if t.id in imageIds then [ImageLine] else [])
    + ["", "---", ""]
  }

  function PayloadEntries(ts: seq<Tweet>, summaries: map<string, string>, imageIds: set<string>, clock: Clock): seq<string> {
    if ts == [] then []
    else PayloadEntries(ts[..|ts| - 1], summaries, imageIds, clock)
         + PayloadEntry(|ts|, ts[|ts| - 1], summaries, imageIds, clock)
  }

  function PayloadLines(ts: seq<Tweet>, summaries: map<string, string>, images: seq<(string, string)>,
                        config: map<string, Json>, clock: Clock): seq<string> {
    PayloadHeader(config, clock.today, |ts|, |summaries|, |images|)
    + PayloadEntries(ts, summaries, ImageIds(images), clock)
  }

  /** `build_digest_payload`: the header, then one block per post numbered from
      one, joined by newlines. */
  method BuildDigestPayload(tweets: seq<Tweet>, summaries: map<string, string>, images: seq<(string, string)>,
                            config: map<string, Json>, clock: Clock) returns (payload: string)
    ensures payload == Join(PayloadLines(tweets, summaries, images, config, clock), "\n")
  {
    var lines := PayloadHeader(config, clock.today, |tweets|, |summaries|, |images|);
    var imageIds := ImageIds(images);
    var blocks := AppendEntries(tweets, summaries, imageIds, clock);
    lines := lines + blocks;
    payload := Join(lines, "\n");
  }

  /** The loop over the posts, appending each post's block. */
  method AppendEntries(tweets: seq<Tweet>, summaries: map<string, string>, imageIds: set<string>, clock: Clock)
    returns (lines: seq<string>)
    ensures lines == PayloadEntries(tweets, summaries, imageIds, clock)
  {
    lines := [];
    var i := 0;
    while i < |tweets|
      invariant 0 <= i <= |tweets|
      invariant lines == PayloadEntries(tweets[..i], summaries, imageIds, clock)
    {
      PayloadEntriesSnoc(tweets, summaries, imageIds, clock, i);
      lines := lines + PayloadEntry(i + 1, tweets[i], summaries, imageIds, clock);
      i := i + 1;
    }
    assert tweets[..i] == tweets;
  }

  lemma PayloadEntriesSnoc(ts: seq<Tweet>, summaries: map<string, string>, imageIds: set<string>,
                           clock: Clock, i: nat)
    requires i < |ts|
    ensures PayloadEntries(ts[..i + 1], summaries, imageIds, clock)
            == PayloadEntries(ts[..i], summaries, imageIds, clock) + PayloadEntry(i + 1, ts[i], summaries, imageIds, clock)
  {
    assert ts[..i + 1][..i] == ts[..i];
  }

  lemma {:induction false} EntryListed(ts: seq<Tweet>, summaries: map<string, string>, imageIds: set<string>,
                                       clock: Clock, k: nat, line: string)
    requires k < |ts| && line in PayloadEntry(k + 1, ts[k], summaries, imageIds, clock)
    ensures line in PayloadEntries(ts, summaries, imageIds, clock)
    decreases |ts|
  {
    var init := ts[..|ts| - 1];
    if k < |ts| - 1 {
      assert init[k] == ts[k];
      EntryListed(init, summaries, imageIds, clock, k, line);
    }
  }

  /** A listed line occurs in the joined text. */
  lemma LineShown(lines: seq<string>, line: string)
    requires line in lines
    ensures Contains(Join(lines, "\n"), line)
  {
    var k :| 0 <= k < |lines| && lines[k] == line;
    JoinHasPart(lines, "\n", k);
  }

  /** What the payload tells the model about the post at position `k`: its
      heading and link, its pre-summary when it has one and its text otherwise,
      and the image marker when an image was selected for it. */
  lemma PayloadDescribesPost(ts: seq<Tweet>, summaries: map<string, string>, images: seq<(string, string)>,
                             config: map<string, Json>, clock: Clock, k: nat)
    requires k < |ts|
    ensures var payload := Join(PayloadLines(ts, summaries, images, config, clock), "\n");
      && Contains(payload, TweetHeading(k + 1))
      && Contains(payload, LinkLine(ts[k]))
      && (ts[k].id in summaries ==> Contains(payload, SummaryLine(summaries[ts[k].id])))
      && (ts[k].id !in summaries ==> Contains(payload, TextLine(ts[k])))
      && (ts[k].id in ImageIds(images) ==> Contains(payload, ImageLine))
  {
    var lines := PayloadLines(ts, summaries, images, config, clock);
    var ids := ImageIds(images);
    var entry := PayloadEntry(k + 1, ts[k], summaries, ids, clock);
    var header := PayloadHeader(config, clock.today, |ts|, |summaries|, |images|);
    forall line | line in entry
      ensures line in lines
    {
      EntryListed(ts, summaries, ids, clock, k, line);
    }
    assert TweetHeading(k + 1) in entry;
    LineShown(lines, TweetHeading(k + 1));
    assert LinkLine(ts[k]) in entry;
    LineShown(lines, LinkLine(ts[k]));
    if ts[k].id in summaries {
      assert SummaryLine(summaries[ts[k].id]) in entry;
      LineShown(lines, SummaryLine(summaries[ts[k].id]));
    } else {
      assert TextLine(ts[k]) in entry;
      LineShown(lines, TextLine(ts[k]));
    }
    if ts[k].id in ids {
      assert ImageLine in entry;
      LineShown(lines, ImageLine);
    }
  }

  // ---------------------------------------------------------------------------
  // The system prompt

  const PromptGoal :=
    "You are a Twitter digest curator. Distill a curated list's tweets into a concise, scannable WhatsApp digest.\n\n"
    + "GOAL: Surface the most valuable content so the reader skips the noise. Prioritize by:\n"
    + "1. ENGAGEMENT " + Dash + " High likes/retweets indicate resonance\n"
    + "2. PATTERNS " + Dash + " Multiple tweets on the same topic = signal worth grouping\n"
    + "3. SIGNAL DENSITY " + Dash + " Primary sources > commentary > retweets\n\n"
    + "SECTIONS (use exactly these in this order, skip any section with zero items):\n\n"

  const PromptRules :=
    "\n\nFORMATTING RULES (WhatsApp-compatible markdown):\n"
    + "- Each item: 1-2 sentence summary with *bold* key phrase\n"
    + "- End each item with: @author link\n"
    + "- Link format: https://x.com/{username}/status/{id}\n"
    + "- Group related content (quote + original, reactions to same news) into ONE item\n"
    + "- Skip pure retweets unless they add unique context\n"
    + "- Non-English: translate, add [Language] tag\n"
    + "- Keep the whole digest CONCISE " + Dash + " aim for 2000-3000 chars total\n"
    + "- Use bullet points (-)\n"
    + "- Section headers: ## emoji *Section Name*\n\n"
    + "EXAMPLE OUTPUT:\n\n"

  const PromptClosing := "\n\nDo NOT include any preamble, sign-off, or commentary outside the sections."

  const Fire := "\U{1F525}"
  const Tools := "\U{1F6E0}\U{FE0F}"
  const Israel := "\U{1F1EE}\U{1F1F1}"
  const Thinking := "\U{1F914}"

  /** `_get_builtin_digest_prompt`: the fixed prompt with the four built-in
      sections and a worked example. */
  const BuiltinDigestPrompt :=
    PromptGoal
    + "## " + Fire + " Top\n3-5 highest-signal items. Major launches, breaking news, viral takes.\n\n"
    + "## " + Tools + " Dev Tips\nTools, techniques, code tips, architecture insights, tutorials.\n\n"
    + "## " + Israel + " Hebrew\nHebrew-language tweets. Translate to English, keep [Hebrew] tag.\n\n"
    + "## " + Thinking + " Deep\nThought-provoking takes, essays, philosophical observations about tech/AI.\n\n"
    + "If a big theme dominates (5+ tweets), add a BONUS section with a custom emoji+name (e.g., \""
    + "\U{1F680} *Mistral Voxtral Launch*\") " + Dash + " place it between " + Fire + " Top and " + Tools + " Dev."
    + PromptRules
    + "## " + Fire + " Top\n"
    + "- *Karpathy's 1-year vibe coding retrospective* " + Dash
    + " lessons from building entirely with AI assistants\n"
    + "  @karpathy https://x.com/karpathy/status/1234567890\n"
    + "- *Claude Code /insights command* " + Dash + " reads your history, gives personalized tips (1.3k " + Heart + ")\n"
    + "  @trq212 https://x.com/trq212/status/1234567891\n\n"
    + "## " + Tools + " Dev Tips\n"
    + "- *Codex architecture deep dive* " + Dash + " how the sandboxed agent environment works under the hood\n"
    + "  @OpenAIDevs https://x.com/OpenAIDevs/status/1234567892\n\n"
    + "## " + Israel + " Hebrew\n"
    + "- [Hebrew] *OpenClaw on Android via Termux* " + Dash + " step-by-step guide\n"
    + "  @taltimes2 https://x.com/taltimes2/status/1234567893\n\n"
    + "## " + Thinking + " Deep\n"
    + "- *\"Creative psychosis\" from AI building* " + Dash + " the addictive loop of shipping with agents\n"
    + "  @GeoffreyHuntley https://x.com/GeoffreyHuntley/status/1234567894"
    + PromptClosing

  /** The fields one configured section contributes. */
  function SectionEmoji(section: map<string, Json>): string {
    Setting(section, "emoji", Clipboard)
  }

  function SectionName(section: map<string, Json>): string {
    Render(if "name" in section then section["name"]
           else if "key" in section then section["key"] else JStr("Section"))
  }

  function SectionHeading(section: map<string, Json>): string {
    "## " + SectionEmoji(section) + " " + SectionName(section)
  }

  /** A section's definition: its heading, then its description. */
  function SectionBlock(section: map<string, Json>): string {
    SectionHeading(section) + "\n" + Setting(section, "description", "")
  }

  function SectionBlocks(sections: seq<map<string, Json>>): (r: seq<string>)
    ensures |r| == |sections|
  {
    if sections == [] then [] else SectionBlocks(sections[..|sections| - 1]) + [SectionBlock(sections[|sections| - 1])]
  }

  /** The worked-example lines for the `i`-th example section; all but the last
      are followed by a blank line. */
  function ExampleEntry(i: nat, section: map<string, Json>, last: bool): seq<string> {
    [SectionHeading(section),
     "- *Example highlight for " + SectionName(section) + "* " + Dash + " brief summary of the content",
     "  @username https://x.com/username/status/123456789" + NatToString(i)]
    + (if last then [] else [""])
  }

  /** The example lines for the first `k` of the example sections. */
  function ExampleLines(examples: seq<map<string, Json>>, k: nat): seq<string>
    requires k <= |examples|
  {
    if k == 0 then []
    else ExampleLines(examples, k - 1) + ExampleEntry(k - 1, examples[k - 1], k - 1 >= |examples| - 1)
  }

  /** The prompt around its configured parts. */
  function SectionsPromptLayout(block: string, firstEmoji: string, firstName: string, example: string): string {
    PromptGoal + block + PromptAfterSections(firstEmoji, firstName, example)
  }

  /** The bonus hint naming the first section, the rules and the example. */
  function PromptAfterSections(firstEmoji: string, firstName: string, example: string): string {
    "\n\nIf a big theme dominates (5+ tweets), add a BONUS section with a custom emoji+name (e.g., \""
    + "\U{1F680} *Breaking Topic*\") " + Dash + " place it after " + firstEmoji + " " + firstName + "."
    + PromptRules + example + PromptClosing
  }

  /** Whatever the sections block contains, the prompt contains. */
  lemma LayoutShowsBlock(block: string, firstEmoji: string, firstName: string, example: string, part: string)
    requires Contains(block, part)
    ensures Contains(SectionsPromptLayout(block, firstEmoji, firstName, example), part)
    ensures StartsWith(SectionsPromptLayout(block, firstEmoji, firstName, example), PromptGoal)
  {
    InfixShows(PromptGoal, block, PromptAfterSections(firstEmoji, firstName, example), part);
  }

  /** What the middle of a text contains, the text contains; and the text
      starts with its first piece. */
  lemma InfixShows(a: string, b: string, c: string, part: string)
    requires Contains(b, part)
    ensures Contains(a + b + c, part) && StartsWith(a + b + c, a)
  {
    ContainsInfix(a, b, c);
    ContainsTrans(a + b + c, b, part);
    assert (a + b + c)[..|a|] == a;
  }

  /** The sections' definitions, one block per section, in order. */
  method CollectSectionBlocks(sections: seq<map<string, Json>>) returns (lines: seq<string>)
    ensures lines == SectionBlocks(sections)
  {
    lines := [];
    var i := 0;
    while i < |sections|
      invariant 0 <= i <= |sections|
      invariant lines == SectionBlocks(sections[..i])
    {
      assert sections[..i + 1][..i] == sections[..i];
      lines := lines + [SectionBlock(sections[i])];
      i := i + 1;
    }
    assert sections[..i] == sections;
  }

  /** The worked-example lines of the example sections, in order. */
  method CollectExampleLines(examples: seq<map<string, Json>>) returns (lines: seq<string>)
    ensures lines == ExampleLines(examples, |examples|)
  {
    lines := [];
    var j := 0;
    while j < |examples|
      invariant 0 <= j <= |examples|
      invariant lines == ExampleLines(examples, j)
    {
      lines := lines + ExampleEntry(j, examples[j], !(j < |examples| - 1));
      j := j + 1;
    }
  }

  function SectionsPromptSpec(sections: seq<map<string, Json>>): string
    requires sections != []
  {
    var examples := sections[..if |sections| < 3 then |sections| else 3];
    SectionsPromptLayout(Join(SectionBlocks(sections), "\n\n"),
                         Setting(sections[0], "emoji", Clipboard), Setting(sections[0], "name", "Top"),
                         Join(ExampleLines(examples, |examples|), "\n"))
  }

  /** `_get_builtin_digest_prompt_with_sections`: one definition block per
      section, examples for the first three, the bonus hint naming the first. */
  method SectionsPrompt(sections: seq<map<string, Json>>) returns (r: string)
    requires sections != []
    ensures r == SectionsPromptSpec(sections)
  {
    var sectionLines := CollectSectionBlocks(sections);
    var examples := sections[..if |sections| < 3 then |sections| else 3];
    var exampleLines := CollectExampleLines(examples);
    r := SectionsPromptLayout(Join(sectionLines, "\n\n"),
                              Setting(sections[0], "emoji", Clipboard), Setting(sections[0], "name", "Top"),
                              Join(exampleLines, "\n"));
  }

  /** `"prompt" in defaults` and `defaults["prompt"]` on whatever `defaults` holds:
      a dictionary is looked up; a list or string that contains `"prompt"` passes
      the membership check but cannot be indexed by a string; for anything else
      the membership check itself raises. */
  function DefaultsPrompt(defaults: Json): (r: Result<Option<string>, Failure>)
    ensures defaults.JObj? ==> r.Ok?
    ensures defaults.JNull? || defaults.JBool? || defaults.JInt? ==> r == Err(Uncaught("TypeError"))
  {
    match defaults
    case JObj(f) => if "prompt" in f then Ok(Some(Render(f["prompt"]))) else Ok(None)
    case JArr(items) => if JStr("prompt") in items then Err(Uncaught("TypeError")) else Ok(None)
    case JStr(s) => if Contains(s, "prompt") then Err(Uncaught("TypeError")) else Ok(None)
    case _ => Err(Uncaught("TypeError"))
  }

  /** The configured sections when `sections` is a non-empty list: its items as
      dictionaries, or an `AttributeError` for the first `.get` on an item that is
      not one. */
  function ConfiguredSections(config: map<string, Json>): (r: Option<Result<seq<map<string, Json>>, Failure>>)
    ensures r.Some? <==> "sections" in config && config["sections"].JArr? && config["sections"].items != []
    ensures r.Some? && r.value.Ok? ==> r.value.value != [] && |r.value.value| == |config["sections"].items|
  {
    if "sections" in config && config["sections"].JArr? && config["sections"].items != [] then
      Some(AsSections(config["sections"].items))
    else None
  }

  function AsSections(items: seq<Json>): (r: Result<seq<map<string, Json>>, Failure>)
    ensures r.Ok? <==> forall i :: 0 <= i < |items| ==> items[i].JObj?
    ensures r.Ok? ==> |r.value| == |items| && forall i :: 0 <= i < |items| ==> r.value[i] == items[i].fields
    ensures r.Err? ==> r.error == Uncaught("AttributeError")
  {
    if items == [] then Ok([])
    else
      match AsSections(items[..|items| - 1])
      case Err(e) => Err(e)
      case Ok(init) =>
        if items[|items| - 1].JObj? then Ok(init + [items[|items| - 1].fields]) else Err(Uncaught("AttributeError"))
  }

  /** Which prompt `build_system_prompt` picks, or the error it raises. */
  function SystemPromptSpec(config: map<string, Json>): Result<string, Failure> {
    if "prompt" in config then Ok(Render(config["prompt"]))
    else
      match DefaultsPrompt(if "defaults" in config then config["defaults"] else JObj(map[]))
      case Err(e) => Err(e)
      case Ok(Some(p)) => Ok(p)
      case Ok(None) =>
        match ConfiguredSections(config)
        case None => Ok(BuiltinDigestPrompt)
        case Some(Err(e)) => Err(e)
        case Some(Ok(sections)) => Ok(SectionsPromptSpec(sections))
  }

  /** `build_system_prompt`: the list's own prompt, else the defaults' prompt,
      else the built-in prompt made from the configured sections, else the fixed
      built-in prompt. */
  method BuildSystemPrompt(config: map<string, Json>) returns (r: Result<string, Failure>)
    ensures r == SystemPromptSpec(config)
  {
    if "prompt" in config {
      return Ok(Render(config["prompt"]));
    }
    var defaults := if "defaults" in config then config["defaults"] else JObj(map[]);
    var fromDefaults := DefaultsPrompt(defaults);
    if fromDefaults.Err? {
      return Err(fromDefaults.error);
    }
    if fromDefaults.value.Some? {
      return Ok(fromDefaults.value.value);
    }
    var sections := ConfiguredSections(config);
    if sections.None? {
      return Ok(BuiltinDigestPrompt);
    }
    if sections.value.Err? {
      return Err(sections.value.error);
    }
    var p := SectionsPrompt(sections.value.value);
    return Ok(p);
  }

  /** The override order: a list prompt wins over everything; a defaults prompt
      wins over the sections; without either, the sections decide. */
  lemma SystemPromptPriority(config: map<string, Json>)
    ensures "prompt" in config ==> SystemPromptSpec(config) == Ok(Render(config["prompt"]))
    ensures "prompt" !in config && "defaults" in config && config["defaults"].JObj?
            && "prompt" in config["defaults"].fields
            ==> SystemPromptSpec(config) == Ok(Render(config["defaults"].fields["prompt"]))
    ensures "prompt" !in config && NoDefaultsPrompt(config) && ConfiguredSections(config).None?
            ==> SystemPromptSpec(config) == Ok(BuiltinDigestPrompt)
    ensures "prompt" !in config && NoDefaultsPrompt(config) && ConfiguredSections(config).Some?
            ==> SystemPromptSpec(config) == match ConfiguredSections(config).value
                  case Ok(sections) => Ok(SectionsPromptSpec(sections))
                  case Err(e) => Err(e)
  {
  }

  /** No defaults section, or one without a prompt. */
  predicate NoDefaultsPrompt(config: map<string, Json>) {
    "defaults" !in config || (config["defaults"].JObj? && "prompt" !in config["defaults"].fields)
  }

  /** The sections prompt defines every configured section under its heading and
      names the first one in the bonus hint. */
  lemma SectionsPromptNamesEverySection(sections: seq<map<string, Json>>, k: nat)
    requires k < |sections|
    ensures Contains(SectionsPromptSpec(sections), SectionHeading(sections[k]))
    ensures Contains(SectionsPromptSpec(sections), SectionBlock(sections[k]))
    ensures StartsWith(SectionsPromptSpec(sections), PromptGoal)
  {
    var blocks := SectionBlocks(sections);
    var examples := sections[..if |sections| < 3 then |sections| else 3];
    var fe := Setting(sections[0], "emoji", Clipboard);
    var fn := Setting(sections[0], "name", "Top");
    var ex := Join(ExampleLines(examples, |examples|), "\n");
    var heading := SectionHeading(sections[k]);
    var whole := SectionBlock(sections[k]);
    SectionBlocksAt(sections, k);
    JoinHasPart(blocks, "\n\n", k);
    HeadingInBlock(sections[k]);
    ContainsTrans(Join(blocks, "\n\n"), whole, heading);
    LayoutShowsBlock(Join(blocks, "\n\n"), fe, fn, ex, whole);
    LayoutShowsBlock(Join(blocks, "\n\n"), fe, fn, ex, heading);
  }

  lemma HeadingInBlock(section: map<string, Json>)
    ensures Contains(SectionBlock(section), SectionHeading(section))
  {
    var h, b := SectionHeading(section), SectionBlock(section);
    assert b == h + ("\n" + Setting(section, "description", ""));
    assert b[..|h|] == h;
    ContainsPrefix(b, h);
  }

  lemma {:induction false} SectionBlocksAt(sections: seq<map<string, Json>>, k: nat)
    requires k < |sections|
    ensures SectionBlocks(sections)[k] == SectionBlock(sections[k])
    decreases |sections|
  {
    if k < |sections| - 1 {
      var init := sections[..|sections| - 1];
      SectionBlocksAt(init, k);
      assert init[k] == sections[k];
    }
  }

  // ---------------------------------------------------------------------------
  // Generation

  /** The images handed to the model: each selected image fetched and encoded in
      order, any whose fetch raises left out. */
  function FetchedImages(images: seq<(string, string)>, fetch: string -> Result<ImagePart, Failure>): (r: seq<ImagePart>)
    ensures |r| <= |images|
    ensures (forall i :: 0 <= i < |images| ==> fetch(images[i].1).Ok?) ==> |r| == |images|
  {
    if images == [] then []
    else
      var init := FetchedImages(images[..|images| - 1], fetch);
      assert forall i :: 0 <= i < |images| - 1 ==> images[..|images| - 1][i] == images[i];
      match fetch(images[|images| - 1].1)
      case Ok(part) => init + [part]
      case Err(_) => init
  }

  method FetchImages(images: seq<(string, string)>, fetch: string -> Result<ImagePart, Failure>)
    returns (data: seq<ImagePart>)
    ensures data == FetchedImages(images, fetch)
  {
    data := [];
    var i := 0;
    while i < |images|
      invariant 0 <= i <= |images|
      invariant data == FetchedImages(images[..i], fetch)
    {
      assert images[..i + 1][..i] == images[..i];
      var encoded := fetch(images[i].1);
      if encoded.Ok? {
        data := data + [encoded.value];
      }
      i := i + 1;
    }
    assert images[..i] == images;
  }

  /** An error the digest step catches: an `LLMError`. */
  predicate IsLlmError(f: Failure) {
    f.Raised? && f.error.kind == Llm
  }

  /** `generate_digest`: no posts give the quiet-period template and fewer than
      five the sparse one, without calling the model; otherwise the payload, the
      system prompt and the fetched images go to the model in one call, and its
      reply is stripped, or replaced by the sparse template when the model
      fails with an `LLMError`. `requests` lists the calls made. */
  method GenerateDigest(tweets: seq<Tweet>, summaries: map<string, string>, images: seq<(string, string)>,
                        config: map<string, Json>, llm: Provider,
                        fetch: string -> Result<ImagePart, Failure>, clock: Clock)
    returns (r: Result<string, Failure>, requests: seq<LlmRequest>)
    ensures |requests| <= 1
    ensures |tweets| == 0 ==>
      requests == [] && r == Ok(FormatEmptyDigest(if "list_name" in config then config["list_name"] else JStr("Unknown List"),
                                                  config, clock.today))
    ensures 0 < |tweets| < MinTweetsForLlm ==>
      requests == [] && r == Ok(Join(SparseLines(tweets, config, clock.today), "\n"))
    ensures |tweets| >= MinTweetsForLlm && SystemPromptSpec(config).Err? ==>
      requests == [] && r == Err(SystemPromptSpec(config).error)
    ensures |tweets| >= MinTweetsForLlm && SystemPromptSpec(config).Ok? ==>
      && requests == [LlmRequest(Join(PayloadLines(tweets, summaries, images, config, clock), "\n"),
                                 SystemPromptSpec(config).value, Some(FetchedImages(images, fetch)))]
      && (llm(requests[0]).Ok? ==> r == Ok(Strip(llm(requests[0]).value)))
      && (llm(requests[0]).Err? && IsLlmError(llm(requests[0]).error) ==>
            r == Ok(Join(SparseLines(tweets, config, clock.today), "\n")))
      && (llm(requests[0]).Err? && !IsLlmError(llm(requests[0]).error) ==> r == Err(llm(requests[0]).error))
  {
    requests := [];
    var listName := if "list_name" in config then config["list_name"] else JStr("Unknown List");
    if |tweets| == 0 {
      return Ok(FormatEmptyDigest(listName, config, clock.today)), requests;
    }
    if |tweets| < MinTweetsForLlm {
      var sparse := FormatSparseDigest(tweets, config, clock.today);
      return Ok(sparse), requests;
    }
    var payload := BuildDigestPayload(tweets, summaries, images, config, clock);
    var systemPrompt := BuildSystemPrompt(config);
    if systemPrompt.Err? {
      return Err(systemPrompt.error), requests;
    }
    var imageData := FetchImages(images, fetch);
    var request := LlmRequest(payload, systemPrompt.value, Some(imageData));
    requests := [request];
    var digest := llm(request);
    if digest.Ok? {
      return Ok(Strip(digest.value)), requests;
    }
    if IsLlmError(digest.error) {
      var sparse := FormatSparseDigest(tweets, config, clock.today);
      return Ok(sparse), requests;
    }
    return Err(digest.error), requests;
  }

  // ---------------------------------------------------------------------------
  // Splitting

  /** The cut markers for the configured sections: for each truthy emoji, the
      emoji and the header with the emoji, each after a blank line. */
  function SectionMarkers(sections: seq<map<string, Json>>): (r: seq<string>)
    ensures forall i :: 0 <= i < |r| ==> StartsWith(r[i], "\n\n")
  {
    if sections == [] then []
    else
      var s := sections[|sections| - 1];
      var more := if "emoji" in s && Truthy(s["emoji"])
        then ["\n\n" + Render(s["emoji"]), "\n\n## " + Render(s["emoji"])] else [];
      assert forall i :: 0 <= i < |more| ==> StartsWith(more[i], "\n\n");
      SectionMarkers(sections[..|sections| - 1]) + more
  }

  /** All markers in the order they are tried: the sections' own, then any
      header, any bold item start, any paragraph break. */
  function Markers(sections: seq<map<string, Json>>): (r: seq<string>)
    ensures forall i :: 0 <= i < |r| ==> |r[i]| >= 2
    ensures |r| >= 3 && r[|r| - 3..] == ["\n\n## ", "\n\n*", "\n\n"]
  {
    var r := SectionMarkers(sections) + ["\n\n## ", "\n\n*", "\n\n"];
    assert forall i :: 0 <= i < |SectionMarkers(sections)| ==> StartsWith(SectionMarkers(sections)[i], "\n\n");
    r
  }

  /** The right-most occurrence, wholly before `end`, of the first marker that
      has one at a positive index. */
  function MarkerCut(rem: string, markers: seq<string>, end: nat): (r: Option<nat>)
    requires end <= |rem|
    ensures r.Some? ==> 0 < r.value <= end
    ensures r.None? ==> forall i :: 0 <= i < |markers| ==> RFind(rem, markers[i], end) <= 0
  {
    if markers == [] then None
    else
      var idx := RFind(rem, markers[0], end);
      if idx > 0 then Some(idx)
      else
        var rest := MarkerCut(rem, markers[1..], end);
        assert forall i :: 1 <= i < |markers| ==> markers[i] == markers[1..][i - 1];
        rest
  }

  lemma {:induction false} MarkerCutNone(rem: string, markers: seq<string>, end: nat)
    requires end <= |rem|
    requires forall i :: 0 <= i < |markers| ==> RFind(rem, markers[i], end) <= 0
    ensures MarkerCut(rem, markers, end) == None
    decreases |markers|
  {
    if markers != [] {
      assert forall i :: 0 <= i < |markers[1..]| ==> markers[1..][i] == markers[i + 1];
      MarkerCutNone(rem, markers[1..], end);
    }
  }

  /** Where one turn of the loop cuts: at a marker, or else at `hardCut`. */
  function CutAt(rem: string, markers: seq<string>, searchEnd: nat, hardCut: nat): (k: nat)
    requires 0 < hardCut <= searchEnd <= |rem|
    ensures 0 < k <= searchEnd
  {
    MarkerCut(rem, markers, searchEnd).GetOr(hardCut)
  }

  /** One turn of the splitting loop: the stripped part before the cut and the
      stripped rest after it. */
  function SplitStep(rem: string, markers: seq<string>, searchEnd: nat, hardCut: nat): (r: (string, string))
    requires 0 < hardCut <= searchEnd <= |rem|
    ensures var k := CutAt(rem, markers, searchEnd, hardCut);
      r == (RStrip(rem[..k]), LStrip(rem[k..]))
    ensures |r.0| <= searchEnd && |r.1| < |rem|
  {
    var k := CutAt(rem, markers, searchEnd, hardCut);
    (RStrip(rem[..k]), LStrip(rem[k..]))
  }

  /** The parts the loop produces from `rem`: while more than `bound` characters
      remain, cut at a marker found before `searchEnd`, or else at `hardCut`; a
      non-empty tail is the last part. */
  function SplitParts(rem: string, markers: seq<string>, bound: nat, searchEnd: nat, hardCut: nat): seq<string>
    requires 0 < hardCut <= searchEnd <= bound
    decreases |rem|
  {
    if |rem| <= bound then (if rem == "" then [] else [rem])
    else
      var step := SplitStep(rem, markers, searchEnd, hardCut);
      [step.0] + SplitParts(step.1, markers, bound, searchEnd, hardCut)
  }

  /** The message suffix `\n\n_(i/total)_`. */
  function Indicator(i: nat, total: nat): string {
    "\n\n_(" + NatToString(i) + "/" + NatToString(total) + ")_"
  }

  /** Part indicators, added only when there is more than one part. */
  function Indicate(parts: seq<string>): (r: seq<string>)
    ensures |r| == |parts|
    ensures |parts| <= 1 ==> r == parts
    ensures |parts| > 1 ==> forall i :: 0 <= i < |parts| ==> r[i] == parts[i] + Indicator(i + 1, |parts|)
  {
    if |parts| <= 1 then parts
    else seq(|parts|, i requires 0 <= i < |parts| => parts[i] + Indicator(i + 1, |parts|))
  }

  /** `split_digest` as written. A limit of at most ten characters makes the
      source loop forever (see `SplitStallsAtTen`), so it is excluded here. */
  function SplitDigestSpec(digest: string, maxLength: nat, sections: seq<map<string, Json>>): seq<string>
    requires maxLength > 10
  {
    if |digest| <= maxLength then [digest]
    else Indicate(SplitParts(digest, Markers(sections), maxLength, maxLength, maxLength - 10))
  }

  /** `split_digest`: a short digest is returned as is; otherwise the marker list
      is built, the loop cuts, and the parts get indicators. */
  method SplitDigest(digest: string, maxLength: nat, sections: seq<map<string, Json>>) returns (parts: seq<string>)
    requires maxLength > 10
    ensures parts == SplitDigestSpec(digest, maxLength, sections)
  {
    if |digest| <= maxLength {
      return [digest];
    }
    var markers := Markers(sections);
    parts := SplitLoop(digest, markers, maxLength, maxLength, maxLength - 10);
    parts := Indicate(parts);
  }

  /** The inner search: markers in order, the first with a cut point wins. */
  method FindCut(remaining: string, markers: seq<string>, searchEnd: nat) returns (splitAt: Option<nat>)
    requires searchEnd <= |remaining|
    ensures splitAt == MarkerCut(remaining, markers, searchEnd)
  {
    splitAt := None;
    var m := 0;
    while m < |markers|
      invariant 0 <= m <= |markers|
      invariant MarkerCut(remaining, markers, searchEnd) == MarkerCut(remaining, markers[m..], searchEnd)
      decreases |markers| - m
    {
      assert markers[m..][1..] == markers[m + 1..];
      var idx := RFind(remaining, markers[m], searchEnd);
      if idx > 0 {
        return Some(idx);
      }
      m := m + 1;
    }
  }

  /** One unfolding of `SplitParts`, with the step's two halves named. */
  lemma SplitPartsUnfold(rem: string, markers: seq<string>, bound: nat, searchEnd: nat, hardCut: nat,
                         part: string, rest: string)
    requires 0 < hardCut <= searchEnd <= bound < |rem|
    requires var k := CutAt(rem, markers, searchEnd, hardCut);
      part == RStrip(rem[..k]) && rest == LStrip(rem[k..])
    ensures |rest| < |rem|
    ensures SplitParts(rem, markers, bound, searchEnd, hardCut)
            == [part] + SplitParts(rest, markers, bound, searchEnd, hardCut)
  {
  }

  lemma SplitPartsShort(rem: string, markers: seq<string>, bound: nat, searchEnd: nat, hardCut: nat)
    requires 0 < hardCut <= searchEnd <= bound && |rem| <= bound
    ensures SplitParts(rem, markers, bound, searchEnd, hardCut) == if rem == "" then [] else [rem]
  {
  }

  /** One turn of the loop: find the cut, strip both sides of it. */
  method CutOnce(remaining: string, markers: seq<string>, searchEnd: nat, hardCut: nat)
    returns (part: string, rest: string)
    requires 0 < hardCut <= searchEnd <= |remaining|
    ensures var k := CutAt(remaining, markers, searchEnd, hardCut);
      part == RStrip(remaining[..k]) && rest == LStrip(remaining[k..])
  {
    var splitAt := FindCut(remaining, markers, searchEnd);
    var cut := if splitAt.Some? then splitAt.value else hardCut;
    part := RStrip(remaining[..cut]);
    rest := LStrip(remaining[cut..]);
  }

  /** The cutting loop. */
  method SplitLoop(digest: string, markers: seq<string>, bound: nat, searchEnd: nat, hardCut: nat)
    returns (parts: seq<string>)
    requires 0 < hardCut <= searchEnd <= bound
    ensures parts == SplitParts(digest, markers, bound, searchEnd, hardCut)
  {
    parts := [];
    var remaining := digest;
    while |remaining| > bound
      invariant parts + SplitParts(remaining, markers, bound, searchEnd, hardCut)
                == SplitParts(digest, markers, bound, searchEnd, hardCut)
      decreases |remaining|
    {
      var part, rest := CutOnce(remaining, markers, searchEnd, hardCut);
      SplitPartsUnfold(remaining, markers, bound, searchEnd, hardCut, part, rest);
      AppendAssoc(parts, [part], SplitParts(rest, markers, bound, searchEnd, hardCut));
      parts := parts + [part];
      remaining := rest;
    }
    SplitPartsShort(remaining, markers, bound, searchEnd, hardCut);
    if remaining != "" {
      parts := parts + [remaining];
    } else {
      assert parts + [] == parts;
    }
  }

  /** The concatenation of the parts. */
  function Glue(parts: seq<string>): string {
    if parts == [] then "" else parts[0] + Glue(parts[1..])
  }

  /** Splitting bounds every part by the loop bound, and every part cut before
      the end by the search end. */
  lemma {:induction false} SplitPartsBounded(rem: string, markers: seq<string>, bound: nat, searchEnd: nat, hardCut: nat)
    requires 0 < hardCut <= searchEnd <= bound
    ensures PartsBounded(SplitParts(rem, markers, bound, searchEnd, hardCut), bound, searchEnd)
    decreases |rem|
  {
    var ps := SplitParts(rem, markers, bound, searchEnd, hardCut);
    if |rem| > bound {
      var step := SplitStep(rem, markers, searchEnd, hardCut);
      var tail := SplitParts(step.1, markers, bound, searchEnd, hardCut);
      SplitPartsBounded(step.1, markers, bound, searchEnd, hardCut);
      PartsBoundedCons(step.0, tail, bound, searchEnd);
    }
  }

  predicate PartsBounded(ps: seq<string>, bound: nat, searchEnd: nat) {
    forall i :: 0 <= i < |ps| ==> |ps[i]| <= bound && (i < |ps| - 1 ==> |ps[i]| <= searchEnd)
  }

  lemma PartsBoundedCons(head: string, tail: seq<string>, bound: nat, searchEnd: nat)
    requires |head| <= searchEnd <= bound && PartsBounded(tail, bound, searchEnd)
    ensures PartsBounded([head] + tail, bound, searchEnd)
  {
    var ps := [head] + tail;
    forall i | 0 <= i < |ps|
      ensures |ps[i]| <= bound && (i < |ps| - 1 ==> |ps[i]| <= searchEnd)
    {
      if i > 0 {
        assert ps[i] == tail[i - 1];
      }
    }
  }

  /** Cutting only strips whitespace at the cut: the non-whitespace characters of
      the parts, in order, are those of the input. */
  lemma {:induction false} SplitPartsKeepText(rem: string, markers: seq<string>, bound: nat, searchEnd: nat, hardCut: nat)
    requires 0 < hardCut <= searchEnd <= bound
    ensures NonSpace(Glue(SplitParts(rem, markers, bound, searchEnd, hardCut))) == NonSpace(rem)
    decreases |rem|
  {
    if |rem| <= bound {
      SplitPartsShort(rem, markers, bound, searchEnd, hardCut);
      if rem != "" {
        assert Glue([rem]) == rem + Glue([]);
        assert rem + "" == rem;
      }
    } else {
      var k := CutAt(rem, markers, searchEnd, hardCut);
      var part, rest := RStrip(rem[..k]), LStrip(rem[k..]);
      SplitPartsUnfold(rem, markers, bound, searchEnd, hardCut, part, rest);
      var later := SplitParts(rest, markers, bound, searchEnd, hardCut);
      SplitPartsKeepText(rest, markers, bound, searchEnd, hardCut);
      assert ([part] + later)[1..] == later;
      assert Glue([part] + later) == part + Glue(later);
      CutKeepsText(rem, k, Glue(later));
    }
  }

  /** Cutting at `k`, stripping both sides, and gluing the left side to text
      as rich as the right loses no non-space character. */
  lemma CutKeepsText(rem: string, k: nat, glued: string)
    requires k <= |rem| && NonSpace(glued) == NonSpace(LStrip(rem[k..]))
    ensures NonSpace(RStrip(rem[..k]) + glued) == NonSpace(rem)
  {
    NonSpaceConcat(RStrip(rem[..k]), glued);
    RStripKeepsNonSpace(rem[..k]);
    LStripKeepsNonSpace(rem[k..]);
    assert rem == rem[..k] + rem[k..];
    NonSpaceConcat(rem[..k], rem[k..]);
  }

  /** What `split_digest` promises: a short digest is one unchanged message;
      otherwise every part is at most the limit before its indicator, the parts
      keep the text, and several parts are numbered `i/total`. */
  lemma SplitDigestProperties(digest: string, maxLength: nat, sections: seq<map<string, Json>>)
    requires maxLength > 10
    ensures var out := SplitDigestSpec(digest, maxLength, sections);
      var raw := SplitParts(digest, Markers(sections), maxLength, maxLength, maxLength - 10);
      && (|digest| <= maxLength ==> out == [digest])
      && (|digest| > maxLength ==>
            && out == Indicate(raw)
            && (forall i :: 0 <= i < |raw| ==> |raw[i]| <= maxLength)
            && NonSpace(Glue(raw)) == NonSpace(digest)
            && (|raw| > 1 ==> forall i :: 0 <= i < |raw| ==> out[i] == raw[i] + Indicator(i + 1, |raw|)))
  {
    SplitPartsBounded(digest, Markers(sections), maxLength, maxLength, maxLength - 10);
    SplitPartsKeepText(digest, Markers(sections), maxLength, maxLength, maxLength - 10);
  }

  /** With a limit of ten and no marker to cut at, the hard cut falls at zero:
      the step yields an empty part and leaves the text as it was, so the source
      loop never ends. */
  lemma SplitStallsAtTen(rem: string, markers: seq<string>)
    requires |rem| > 10 && !IsSpace(rem[0])
    requires forall i :: 0 <= i < |markers| ==> RFind(rem, markers[i], 10) <= 0
    ensures MarkerCut(rem, markers, 10) == None
    ensures RStrip(rem[..10 - 10]) == "" && LStrip(rem[10 - 10..]) == rem
  {
    MarkerCutNone(rem, markers, 10);
    assert rem[0..] == rem;
  }

  /** The length of an indicated message. */
  lemma IndicatorLength(i: nat, total: nat)
    requires 1 <= i <= total <= 9
    ensures |Indicator(i, total)| == 9
  {
  }

  /** As written, a marker cut reserves no room for the indicator: this digest of
      14 characters, split at 11, gives a first message of 18 characters. */
  lemma SplitOverflowsLimit()
    ensures var out := SplitDigestSpec("abcdefghi\n\nxyz", 11, []);
      |out| == 2 && out[0] == "abcdefghi\n\n_(1/2)_" && |out[0]| > 11
  {
    var digest := "abcdefghi\n\nxyz";
    assert |digest| == 14;
    ExamplePieces();
    assert SplitDigestSpec(digest, 11, []) == Indicate(["abcdefghi", "xyz"]);
    ExampleIndicated();
    assert |"abcdefghi\n\n_(1/2)_"| == 18;
  }

  lemma ExampleIndicated()
    ensures Indicate(["abcdefghi", "xyz"])[0] == "abcdefghi\n\n_(1/2)_"
  {
    assert NatToString(1) == "1" && NatToString(2) == "2";
    assert Indicator(1, 2) == "\n\n_(1/2)_";
  }

  /** The example's only cut is the paragraph break at index 9: the header and
      bullet markers do not occur in it. */
  lemma ExampleCut()
    ensures CutAt("abcdefghi\n\nxyz", Markers([]), 11, 1) == 9
  {
    assert Markers([]) == ["\n\n## ", "\n\n*", "\n\n"];
    RFindAbsent("abcdefghi\n\nxyz", "\n\n## ", 11, 2);
    ExampleCutTail();
    assert ["\n\n## ", "\n\n*", "\n\n"][1..] == ["\n\n*", "\n\n"];
  }

  lemma ExampleCutTail()
    ensures MarkerCut("abcdefghi\n\nxyz", ["\n\n*", "\n\n"], 11) == Some(9)
  {
    RFindAbsent("abcdefghi\n\nxyz", "\n\n*", 11, 2);
    ExampleCutLast();
    assert ["\n\n*", "\n\n"][1..] == ["\n\n"];
  }

  lemma ExampleCutLast()
    ensures MarkerCut("abcdefghi\n\nxyz", ["\n\n"], 11) == Some(9)
  {
    assert "abcdefghi\n\nxyz"[9..11] == "\n\n";
  }

  lemma ExamplePieces()
    ensures SplitParts("abcdefghi\n\nxyz", Markers([]), 11, 11, 1) == ["abcdefghi", "xyz"]
  {
    ExampleCut();
    ExampleSides();
    SplitPartsUnfold("abcdefghi\n\nxyz", Markers([]), 11, 11, 1, "abcdefghi", "xyz");
    assert SplitParts("xyz", Markers([]), 11, 11, 1) == ["xyz"];
  }

  lemma ExampleSides()
    ensures RStrip("abcdefghi\n\nxyz"[..9]) == "abcdefghi"
    ensures LStrip("abcdefghi\n\nxyz"[9..]) == "xyz"
  {
    assert "abcdefghi\n\nxyz"[..9] == "abcdefghi";
    assert "abcdefghi\n\nxyz"[9..] == "\n\nxyz";
    ExampleLStrip();
  }

  lemma ExampleLStrip()
    ensures LStrip("\n\nxyz") == "xyz"
  {
    assert "\n\nxyz" == ['\n', '\n'] + "xyz";
    LStripTwoSpaces('\n', '\n', "xyz");
  }

  /** Two leading spaces before a non-space are stripped and nothing else. */
  lemma LStripTwoSpaces(a: char, b: char, s: string)
    requires IsSpace(a) && IsSpace(b) && s != [] && !IsSpace(s[0])
    ensures LStrip([a, b] + s) == s
  {
    assert ([a, b] + s)[1..] == [b] + s;
    assert ([b] + s)[1..] == s;
  }

  /** A marker holding a character the searched range lacks is not found. */
  lemma RFindAbsent(s: string, sub: string, end: nat, k: nat)
    requires end <= |s| && k < |sub|
    requires forall i :: 0 <= i < end ==> s[i] != sub[k]
    ensures RFind(s, sub, end) == -1
  {
    forall r | 0 <= r && r + |sub| <= end
      ensures !OccursAt(s, sub, r)
    {
      assert s[r..r + |sub|][k] == s[r + k];
    }
  }

  /** The split with room for the indicator: the loop runs down to the limit
      less the ten characters the hard cut already reserves, and markers are
      searched within the same reduced limit. */
  function SplitDigestReservedSpec(digest: string, maxLength: nat, sections: seq<map<string, Json>>): seq<string>
    requires maxLength > 10
  {
    if |digest| <= maxLength then [digest]
    else Indicate(SplitParts(digest, Markers(sections), maxLength - 10, maxLength - 10, maxLength - 10))
  }

  method SplitDigestReserved(digest: string, maxLength: nat, sections: seq<map<string, Json>>) returns (parts: seq<string>)
    requires maxLength > 10
    ensures parts == SplitDigestReservedSpec(digest, maxLength, sections)
  {
    if |digest| <= maxLength {
      return [digest];
    }
    var markers := Markers(sections);
    parts := SplitLoop(digest, markers, maxLength - 10, maxLength - 10, maxLength - 10);
    parts := Indicate(parts);
  }

  /** With the reserve, every message, indicator included, fits the limit as long
      as there are fewer than ten parts, and the text is kept. */
  lemma SplitReservedFits(digest: string, maxLength: nat, sections: seq<map<string, Json>>)
    requires maxLength > 10
    ensures var out := SplitDigestReservedSpec(digest, maxLength, sections);
      (|out| <= 9 ==> forall i :: 0 <= i < |out| ==> |out[i]| <= maxLength)
    ensures |digest| > maxLength ==>
      NonSpace(Glue(SplitParts(digest, Markers(sections), maxLength - 10, maxLength - 10, maxLength - 10)))
      == NonSpace(digest)
  {
    if |digest| > maxLength {
      var raw := SplitParts(digest, Markers(sections), maxLength - 10, maxLength - 10, maxLength - 10);
      SplitPartsBounded(digest, Markers(sections), maxLength - 10, maxLength - 10, maxLength - 10);
      SplitPartsKeepText(digest, Markers(sections), maxLength - 10, maxLength - 10, maxLength - 10);
      IndicatedFits(raw, maxLength);
    }
  }

  lemma IndicatedFits(raw: seq<string>, maxLength: nat)
    requires maxLength > 10 && PartsBounded(raw, maxLength - 10, maxLength - 10)
    ensures var out := Indicate(raw);
      |out| <= 9 ==> forall i :: 0 <= i < |out| ==> |out[i]| <= maxLength
  {
    var out := Indicate(raw);
    if 1 < |raw| <= 9 {
      forall i | 0 <= i < |raw|
        ensures |out[i]| <= maxLength
      {
        IndicatorLength(i + 1, |raw|);
      }
    }
  }
}
