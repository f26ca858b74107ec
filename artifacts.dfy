/** The record shapes a run saves: the camelCase post serialiser (the inverse of
    the parser), the artifact directory path, the pre-summary records and the
    meta record. Writing the files is not part of this model. */
module Artifacts {
  import opened Wrappers
  import opened Text
  import opened Json
  import opened Utils
  import opened Models
  import opened Seqs

  /** One media dictionary; `videoUrl` and `durationMs` only when truthy. */
  function MediaToJson(m: Media): (r: map<string, Json>)
    ensures "videoUrl" in r <==> m.videoUrl.Some? && m.videoUrl.value != ""
    ensures "durationMs" in r <==> m.durationMs.Some? && m.durationMs.value != 0
  {
    var core := map["type" := JStr(m.kind), "url" := JStr(m.url), "width" := JInt(m.width),
                    "height" := JInt(m.height), "previewUrl" := JStr(m.previewUrl)];
    var withVideo := if m.videoUrl.Some? && m.videoUrl.value != "" then core["videoUrl" := JStr(m.videoUrl.value)] else core;
    if m.durationMs.Some? && m.durationMs.value != 0 then withVideo["durationMs" := JInt(m.durationMs.value)] else withVideo
  }

  function MediaListToJson(ms: seq<Media>): (r: seq<Json>)
    ensures |r| == |ms| && forall i :: 0 <= i < |ms| ==> r[i] == JObj(MediaToJson(ms[i]))
  {
    seq(|ms|, i requires 0 <= i < |ms| => JObj(MediaToJson(ms[i])))
  }

  /** The keys every post record carries. */
  function CoreRecord(t: Tweet): map<string, Json> {
    map["id" := JStr(t.id), "text" := JStr(t.text), "createdAt" := JStr(t.createdAt),
        "conversationId" := JStr(t.conversationId),
        "author" := JObj(map["username" := JStr(t.author.username), "name" := JStr(t.author.name)]),
        "authorId" := JStr(t.authorId), "replyCount" := JInt(t.replyCount),
        "retweetCount" := JInt(t.retweetCount), "likeCount" := JInt(t.likeCount)]
  }

  /** The record of one post. The core keys are always present; `inReplyToStatusId`,
      `media` and `quotedTweet` appear only when the field is truthy. */
  function TweetToJson(t: Tweet): (r: Json)
    ensures r.JObj?
    ensures CoreRecord(t).Keys <= r.fields.Keys
    ensures "inReplyToStatusId" in r.fields <==> t.inReplyTo.Some? && t.inReplyTo.value != ""
    ensures "media" in r.fields <==> t.media.Some? && t.media.value != []
    ensures "quotedTweet" in r.fields <==> t.quoted.Some?
    decreases t
  {
    var d0 := CoreRecord(t);
    var d1 := if t.inReplyTo.Some? && t.inReplyTo.value != "" then d0["inReplyToStatusId" := JStr(t.inReplyTo.value)] else d0;
    var d2 := if t.media.Some? && t.media.value != [] then d1["media" := JArr(MediaListToJson(t.media.value))] else d1;
    JObj(if t.quoted.Some? then d2["quotedTweet" := TweetToJson(t.quoted.value)] else d2)
  }

  /** How deeply quoted posts nest. */
  function QuoteDepth(t: Tweet): (n: nat)
    ensures t.quoted.Some? ==> n > QuoteDepth(t.quoted.value)
  {
    if t.quoted.Some? then 1 + QuoteDepth(t.quoted.value) else 0
  }

  function MaxQuoteDepth(ts: seq<Tweet>): (n: nat)
    ensures forall i :: 0 <= i < |ts| ==> QuoteDepth(ts[i]) <= n
  {
    if ts == [] then 0
    else
      var rest := MaxQuoteDepth(ts[1..]);
      assert forall i :: 1 <= i < |ts| ==> ts[i] == ts[1..][i - 1];
      if QuoteDepth(ts[0]) > rest then QuoteDepth(ts[0]) else rest
  }

  /** `_tweets_to_json`: one record per post, same length and order; a quoted post
      is serialised by the same routine. */
  method TweetsToJson(ts: seq<Tweet>) returns (result: seq<Json>)
    ensures |result| == |ts|
    ensures forall i :: 0 <= i < |ts| ==> result[i] == TweetToJson(ts[i])
    decreases MaxQuoteDepth(ts)
  {
    result := [];
    var i := 0;
    while i < |ts|
      invariant 0 <= i <= |ts|
      invariant |result| == i
      invariant forall j :: 0 <= j < i ==> result[j] == TweetToJson(ts[j])
    {
      var t := ts[i];
      var d := CoreRecord(t);
      var withReply := d;
      if t.inReplyTo.Some? && t.inReplyTo.value != "" {
        withReply := d["inReplyToStatusId" := JStr(t.inReplyTo.value)];
      }
      var withMedia := withReply;
      if t.media.Some? && t.media.value != [] {
        withMedia := withReply["media" := JArr(MediaListToJson(t.media.value))];
      }
      var complete := withMedia;
      if t.quoted.Some? {
        assert QuoteDepth(t.quoted.value) < MaxQuoteDepth(ts);
        assert MaxQuoteDepth([t.quoted.value]) == QuoteDepth(t.quoted.value);
        var q := TweetsToJson([t.quoted.value]);
        complete := withMedia["quotedTweet" := q[0]];
      }
      assert JObj(complete) == TweetToJson(t);
      result := result + [JObj(complete)];
      i := i + 1;
    }
  }

  /** The posts whose optional fields are `None` or truthy: exactly those that the
      serialiser does not flatten. */
  predicate MediaCanonical(m: Media) {
    && (m.videoUrl.Some? ==> m.videoUrl.value != "")
    && (m.durationMs.Some? ==> m.durationMs.value != 0)
  }

  predicate Canonical(t: Tweet)
    decreases t
  {
    && (t.inReplyTo.Some? ==> t.inReplyTo.value != "")
    && (t.media.Some? ==> t.media.value != [] && forall i :: 0 <= i < |t.media.value| ==> MediaCanonical(t.media.value[i]))
    && (t.quoted.Some? ==> Canonical(t.quoted.value))
  }

  lemma MediaRoundTrip(m: Media)
    requires MediaCanonical(m)
    ensures ParseMediaEntry(MediaToJson(m)) == m
  {
    var f := MediaToJson(m);
    SafeStrOfStr(m.kind, "photo");
  }

  lemma SafeStrOfStr(s: string, default: string)
    ensures SafeStr(JStr(s), default) == s
  {
  }

  lemma MediaListRoundTrip(ms: seq<Media>)
    requires forall i :: 0 <= i < |ms| ==> MediaCanonical(ms[i])
    ensures ParseMediaList(MediaListToJson(ms)) == Ok(ms)
  {
    var js := MediaListToJson(ms);
    var r := ParseMediaList(js);
    assert forall i :: 0 <= i < |js| ==> js[i].JObj?;
    assert r.Ok? && |r.value| == |ms|;
    forall i | 0 <= i < |ms| ensures r.value[i] == ms[i] {
      MediaRoundTrip(ms[i]);
    }
    assert r.value == ms;
  }

  /** Parsing a serialised post gives the post back, for every post whose optional
      fields are `None` or truthy. */
  lemma {:induction false} TweetRoundTrip(t: Tweet)
    requires Canonical(t)
    ensures ParseSingleTweet(TweetToJson(t)) == Ok(t)
    decreases t
  {
    var d := TweetToJson(t);
    HeaderOfRecord(t);
    MediaOfRecord(t);
    if t.quoted.Some? {
      TweetRoundTrip(t.quoted.value);
    }
    QuotedOfRecord(t);
    BuildTweetOfRecord(t);
  }

  lemma HeaderOfRecord(t: Tweet)
    ensures HeaderValid(TweetToJson(t))
  {
    RecordText(t);
    RecordAuthor(t);
  }

  lemma MediaOfRecord(t: Tweet)
    requires t.media.Some? ==> t.media.value != [] && forall i :: 0 <= i < |t.media.value| ==> MediaCanonical(t.media.value[i])
    ensures MediaOf(TweetToJson(t).fields) == Ok(t.media)
  {
    RecordOptional(t);
    if t.media.Some? {
      MediaListRoundTrip(t.media.value);
    }
  }

  lemma QuotedOfRecord(t: Tweet)
    requires t.quoted.Some? ==> ParseSingleTweet(TweetToJson(t.quoted.value)) == Ok(t.quoted.value)
    ensures QuotedOf(TweetToJson(t).fields) == Ok(t.quoted)
  {
    RecordOptional(t);
    if t.quoted.Some? {
      RecordNonEmpty(t.quoted.value);
    }
  }

  lemma BuildTweetOfRecord(t: Tweet)
    requires t.inReplyTo.Some? ==> t.inReplyTo.value != ""
    ensures "id" in TweetToJson(t).fields && "author" in TweetToJson(t).fields
    ensures TweetToJson(t).fields["author"].JObj?
    ensures BuildTweet(TweetToJson(t).fields, t.media, t.quoted) == t
  {
    RecordText(t);
    RecordAuthor(t);
    RecordCounts(t);
    RecordOptional(t);
    var f := TweetToJson(t).fields;
    var a := f["author"].fields;
    assert GetOrNull(a, "username") == JStr(t.author.username);
    assert GetOrNull(a, "name") == JStr(t.author.name);
  }

  /** The record's keys hold the post's fields: the identifiers and text, */
  lemma RecordText(t: Tweet)
    ensures var f := TweetToJson(t).fields;
      && f["id"] == JStr(t.id) && f["text"] == JStr(t.text) && f["createdAt"] == JStr(t.createdAt)
      && f["conversationId"] == JStr(t.conversationId)
  {
  }

  /** the author, */
  lemma RecordAuthor(t: Tweet)
    ensures var f := TweetToJson(t).fields;
      && f["author"] == JObj(map["username" := JStr(t.author.username), "name" := JStr(t.author.name)])
      && f["authorId"] == JStr(t.authorId)
  {
  }

  /** the counts, */
  lemma RecordCounts(t: Tweet)
    ensures var f := TweetToJson(t).fields;
      && f["replyCount"] == JInt(t.replyCount)
      && f["retweetCount"] == JInt(t.retweetCount) && f["likeCount"] == JInt(t.likeCount)
  {
  }

  /** and the optional parts, when present. */
  lemma RecordOptional(t: Tweet)
    ensures var f := TweetToJson(t).fields;
      && ("inReplyToStatusId" in f ==> f["inReplyToStatusId"] == JStr(t.inReplyTo.value))
      && ("media" in f ==> f["media"] == JArr(MediaListToJson(t.media.value)))
      && ("quotedTweet" in f ==> f["quotedTweet"] == TweetToJson(t.quoted.value))
  {
  }

  /** A record is never an empty dictionary, so it is truthy. */
  lemma RecordNonEmpty(t: Tweet)
    ensures Truthy(TweetToJson(t))
  {
    assert "id" in TweetToJson(t).fields;
  }

  /** The batch round trip: `parse_tweets(_tweets_to_json(ts)) == ts`. */
  lemma BatchRoundTrip(ts: seq<Tweet>, records: seq<Json>)
    requires forall i :: 0 <= i < |ts| ==> Canonical(ts[i])
    requires |records| == |ts| && forall i :: 0 <= i < |ts| ==> records[i] == TweetToJson(ts[i])
    ensures ParseTweetsSpec(JArr(records)) == Ok(ts)
  {
    forall i | 0 <= i < |ts|
      ensures ParseSingleTweet(records[i]) == Ok(ts[i])
    {
      TweetRoundTrip(ts[i]);
    }
    ParsesEachAll(records, ts);
    SurvivorsOfParsed(records, ts);
  }

  /** Entry by entry, each parses to the post at the same place. */
  predicate ParsesEach(records: seq<Json>, ts: seq<Tweet>) {
    && |records| == |ts|
    && (records != [] ==>
          && ParsesEach(records[..|records| - 1], ts[..|ts| - 1])
          && ParseSingleTweet(records[|records| - 1]) == Ok(ts[|ts| - 1]))
  }

  lemma {:induction false} ParsesEachAll(records: seq<Json>, ts: seq<Tweet>)
    requires |records| == |ts| && forall i :: 0 <= i < |ts| ==> ParseSingleTweet(records[i]) == Ok(ts[i])
    ensures ParsesEach(records, ts)
  {
    if ts != [] {
      var n := |ts| - 1;
      forall i | 0 <= i < n
        ensures ParseSingleTweet(records[..n][i]) == Ok(ts[..n][i])
      {
        assert records[..n][i] == records[i] && ts[..n][i] == ts[i];
      }
      ParsesEachAll(records[..n], ts[..n]);
    }
  }

  /** Entries that each parse to their post survive as that list of posts. */
  lemma {:induction false} SurvivorsOfParsed(records: seq<Json>, ts: seq<Tweet>)
    requires ParsesEach(records, ts)
    ensures Survivors(records) == Ok(ts)
  {
    if ts != [] {
      var n := |ts| - 1;
      SurvivorsOfParsed(records[..n], ts[..n]);
      InitLast(ts);
    }
  }

  /** `_build_artifact_dir`: `data_dir/digests/YYYY/MM/week-WW/YYYY-MM-DD/list`, as
      path components. The calendar fields of the run's instant are inputs. */
  function ArtifactDir(dataDir: string, listName: string, year: nat, month: nat, day: nat, isoWeek: nat): (r: seq<string>)
    ensures |r| == 7 && r[0] == dataDir && r[1] == "digests" && r[6] == listName
    ensures r[2] == NatToString(year) && DigitsValue(r[2]) == year
    ensures AllDigits(r[3]) && DigitsValue(r[3]) == month && (month < 100 ==> |r[3]| == 2)
    ensures StartsWith(r[4], "week-") && AllDigits(r[4][5..]) && DigitsValue(r[4][5..]) == isoWeek
    ensures isoWeek < 100 ==> |r[4]| == 7
    ensures r[5] == r[2] + "-" + r[3] + "-" + ZeroPad(day, 2)
  {
    var y := NatToString(year);
    var m := ZeroPad(month, 2);
    var w := ZeroPad(isoWeek, 2);
    DigitsRoundTrip(year);
    ZeroPadValue(month, 2);
    AtMostTwoDigits(month);
    ZeroPadValue(isoWeek, 2);
    AtMostTwoDigits(isoWeek);
    assert ("week-" + w)[5..] == w;
    [dataDir, "digests", y, m, "week-" + w, y + "-" + m + "-" + ZeroPad(day, 2), listName]
  }

  lemma AtMostTwoDigits(n: nat)
    ensures n < 100 ==> |NatToString(n)| <= 2
  {
    if n < 100 {
      assert Pow10(2) == 100;
      NatToStringLengthBound(n, 2);
    }
  }

  /** A zero-padded number still reads as that number. */
  lemma ZeroPadValue(n: nat, width: nat)
    ensures DigitsValue(ZeroPad(n, width)) == n
  {
    var s := NatToString(n);
    DigitsRoundTrip(n);
    if |s| < width {
      assert ZeroPad(n, width) == Repeat('0', width - |s|) + s;
      LeadingZeros(width - |s|, s);
    } else {
      assert ZeroPad(n, width) == s;
    }
  }

  lemma {:induction false} LeadingZeros(k: nat, s: string)
    requires AllDigits(s)
    ensures AllDigits(Repeat('0', k) + s) && DigitsValue(Repeat('0', k) + s) == DigitsValue(s)
    decreases |s|
  {
    var z := Repeat('0', k);
    if s == [] {
      assert z + s == z;
      ZerosValue(k);
    } else {
      var init := s[..|s| - 1];
      LeadingZeros(k, init);
      assert (z + s)[..|z + s| - 1] == z + init;
    }
  }

  lemma {:induction false} ZerosValue(k: nat)
    ensures DigitsValue(Repeat('0', k)) == 0
  {
    if k > 0 {
      ZerosValue(k - 1);
      assert Repeat('0', k)[..k - 1] == Repeat('0', k - 1);
    }
  }

  /** The `pre-summaries.json` records: one `{tweet_id, summary}` per entry, in the
      order of the summaries. */
  function PresummaryRecords(summaries: seq<(string, string)>): (r: seq<Json>)
    ensures |r| == |summaries|
    ensures forall i :: 0 <= i < |r| ==>
      r[i] == JObj(map["tweet_id" := JStr(summaries[i].0), "summary" := JStr(summaries[i].1)])
  {
    seq(|summaries|, i requires 0 <= i < |summaries| =>
      JObj(map["tweet_id" := JStr(summaries[i].0), "summary" := JStr(summaries[i].1)]))
  }

  /** The text of `prompt.md`: the system prompt under its heading, a rule,
      then the payload under its own heading. */
  function PromptArtifact(systemPrompt: string, payload: string): (r: string)
    ensures StartsWith(r, "# System Prompt\n\n" + systemPrompt)
    ensures EndsWith(r, "\n\n---\n\n# Payload\n\n" + payload)
    ensures |r| == |systemPrompt| + |payload| + 35
  {
    var head := "# System Prompt\n\n" + systemPrompt;
    var tail := "\n\n---\n\n# Payload\n\n" + payload;
    assert (head + tail)[..|head|] == head;
    assert (head + tail)[|head|..] == tail;
    head + tail
  }

  /** The number of posts with non-empty media. */
  function CountWithMedia(ts: seq<Tweet>): (n: nat)
    ensures n <= |ts|
  {
    if ts == [] then 0
    else CountWithMedia(ts[..|ts| - 1]) + (if ts[|ts| - 1].media.Some? && ts[|ts| - 1].media.value != [] then 1 else 0)
  }

  lemma {:induction false} CountWithMediaConcat(a: seq<Tweet>, b: seq<Tweet>)
    ensures CountWithMedia(a + b) == CountWithMedia(a) + CountWithMedia(b)
    decreases |b|
  {
    if b == [] {
      assert a + b == a;
    } else {
      assert (a + b)[..|a + b| - 1] == a + b[..|b| - 1];
      CountWithMediaConcat(a, b[..|b| - 1]);
    }
  }

  /** The counters and timings of `meta.json`. */
  datatype Meta = Meta(
    timestamp: string, listName: string, success: bool,
    fetched: nat, preSummarized: int, withImages: nat, imagesIncluded: int,
    fetchMs: int, preSummaryMs: int, digestMs: int, deliveryMs: int, totalMs: int)

  /** The meta record: the total is the sum of the four phases, `fetched` the
      number of posts and `with_images` those among them with media. */
  function BuildMeta(timestamp: string, listName: string, success: bool, tweets: seq<Tweet>,
                     preSummarized: int, images: int,
                     fetchMs: int, presummaryMs: int, digestMs: int, deliveryMs: int): (m: Meta)
    ensures m.totalMs == fetchMs + presummaryMs + digestMs + deliveryMs
    ensures m.fetched == |tweets| && m.withImages <= m.fetched
    ensures m.withImages == CountWithMedia(tweets)
    ensures (forall i :: 0 <= i < |tweets| ==> tweets[i].media.None?) ==> m.withImages == 0
  {
    NoMediaCount(tweets);
    Meta(timestamp, listName, success, |tweets|, preSummarized, CountWithMedia(tweets), images,
         fetchMs, presummaryMs, digestMs, deliveryMs, fetchMs + presummaryMs + digestMs + deliveryMs)
  }

  lemma {:induction false} NoMediaCount(ts: seq<Tweet>)
    ensures (forall i :: 0 <= i < |ts| ==> ts[i].media.None?) ==> CountWithMedia(ts) == 0
  {
    if ts != [] {
      NoMediaCount(ts[..|ts| - 1]);
    }
  }
}
