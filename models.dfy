/** Posts, their authors and media, the tolerant parser that turns the fetcher's
    decoded JSON into posts, and the small measures defined on a post. */
module Models {
  import opened Wrappers
  import opened Text
  import opened Json
  import opened Utils
  import opened Errors

  datatype Media = Media(
    kind: string,              // "photo" or "video"
    url: string,
    width: int,
    height: int,
    previewUrl: string,
    videoUrl: Option<string>,
    durationMs: Option<int>)

  datatype Author = Author(username: string, name: string)

  datatype Tweet = Tweet(
    id: string,
    text: string,
    createdAt: string,
    conversationId: string,
    author: Author,
    authorId: string,
    replyCount: int,
    retweetCount: int,
    likeCount: int,
    media: Option<seq<Media>>,
    quoted: Option<Tweet>,
    inReplyTo: Option<string>)

  /** Why one entry did not become a post: a `KeyError`, `TypeError` or `ValueError`
      (the batch loop catches these and skips the entry), or an `AttributeError`
      (which it does not catch). */
  datatype EntryFault = Malformed | AttributeError

  /** The first three checks on an entry: `id`, `text` and `author` are present and
      not null, and `author` is a dictionary with a `username` key. */
  predicate HeaderValid(d: Json) {
    && d.JObj?
    && (forall f :: f in ["id", "text", "author"] ==> f in d.fields && d.fields[f] != JNull)
    && d.fields["author"].JObj?
    && "username" in d.fields["author"].fields
  }

  /** One media dictionary. */
  function ParseMediaEntry(m: map<string, Json>): (r: Media)
    ensures r.kind == SafeStr(GetOrNull(m, "type"), "photo")
    ensures "previewUrl" !in m && "url" in m ==> r.previewUrl == r.url
    ensures r.videoUrl.Some? <==> Truthy(GetOrNull(m, "videoUrl"))
    ensures r.durationMs.Some? <==> Truthy(GetOrNull(m, "durationMs"))
  {
    Media(
      SafeStr(GetOrNull(m, "type"), "photo"),
      SafeStr(GetOrNull(m, "url"), ""),
      SafeInt(GetOrNull(m, "width"), 0),
      SafeInt(GetOrNull(m, "height"), 0),
      SafeStr(if "previewUrl" in m then m["previewUrl"] else if "url" in m then m["url"] else JStr(""), ""),
      if Truthy(GetOrNull(m, "videoUrl")) then Some(SafeStr(m["videoUrl"], "")) else None,
      if Truthy(GetOrNull(m, "durationMs")) then Some(SafeInt(m["durationMs"], 0)) else None)
  }

  /** The media loop over a list: every element must be a dictionary, since the
      loop calls `.get` on it. */
  function ParseMediaList(items: seq<Json>): (r: Result<seq<Media>, EntryFault>)
    ensures r.Ok? <==> forall i :: 0 <= i < |items| ==> items[i].JObj?
    ensures r.Ok? ==> |r.value| == |items|
    ensures r.Ok? ==> forall i :: 0 <= i < |items| ==> r.value[i] == ParseMediaEntry(items[i].fields)
    ensures r.Err? ==> r.error == AttributeError
  {
    if items == [] then Ok([])
    else
      var last := items[|items| - 1];
      match ParseMediaList(items[..|items| - 1])
      case Err(e) => Err(e)
      case Ok(ms) =>
        if last.JObj? then Ok(ms + [ParseMediaEntry(last.fields)]) else Err(AttributeError)
  }

  /** The `media` value of an entry. A false value means no media; a list is parsed
      element by element; iterating a non-empty string or dictionary yields
      strings, on which `.get` raises `AttributeError`; a true number is not
      iterable (`TypeError`). */
  function ParseMediaField(v: Json): (r: Result<Option<seq<Media>>, EntryFault>)
    ensures !Truthy(v) ==> r == Ok(None)
    ensures r.Ok? && r.value.Some? ==> v.JArr? && |r.value.value| == |v.items| > 0
  {
    if !Truthy(v) then Ok(None)
    else match v
      case JArr(items) =>
        (match ParseMediaList(items)
         case Ok(ms) => Ok(Some(ms))
         case Err(e) => Err(e))
      case JStr(_) => Err(AttributeError)
      case JObj(_) => Err(AttributeError)
      case _ => Err(Malformed)
  }

  /** `_parse_single_tweet`: the checks in source order (required fields, author,
      media, the quoted post), then the fields with their defaults. */
  function ParseSingleTweet(d: Json): (r: Result<Tweet, EntryFault>)
    ensures !HeaderValid(d) ==> r == Err(Malformed)
    ensures r.Ok? ==> HeaderValid(d)
    decreases d, 1
  {
    if !HeaderValid(d) then Err(Malformed)
    else
      var media := MediaOf(d.fields);
      if media.Err? then Err(media.error)
      else
        var quoted := QuotedOf(d.fields);
        if quoted.Err? then Err(quoted.error)
        else Ok(BuildTweet(d.fields, media.value, quoted.value))
  }

  /** The `media` step: absent or false means none. */
  function MediaOf(f: map<string, Json>): Result<Option<seq<Media>>, EntryFault> {
    if "media" in f then ParseMediaField(f["media"]) else Ok(None)
  }

  /** The `quotedTweet` step: a true value is parsed by the same routine and its
      faults propagate. */
  function QuotedOf(f: map<string, Json>): Result<Option<Tweet>, EntryFault>
    decreases JObj(f), 0
  {
    if "quotedTweet" in f && Truthy(f["quotedTweet"]) then
      match ParseSingleTweet(f["quotedTweet"])
      case Ok(q) => Ok(Some(q))
      case Err(e) => Err(e)
    else Ok(None)
  }

  /** The post built from a checked entry, with each field's default. */
  function BuildTweet(f: map<string, Json>, media: Option<seq<Media>>, quoted: Option<Tweet>): Tweet
    requires "id" in f && "author" in f && f["author"].JObj?
  {
    var a := f["author"].fields;
    Tweet(
      SafeStr(f["id"], ""),
      SafeStr(GetOrNull(f, "text"), ""),
      SafeStr(GetOrNull(f, "createdAt"), ""),
      SafeStr(if "conversationId" in f then f["conversationId"] else f["id"], ""),
      Author(SafeStr(GetOrNull(a, "username"), "unknown"), SafeStr(GetOrNull(a, "name"), "Unknown User")),
      SafeStr(GetOrNull(f, "authorId"), "0"),
      SafeInt(GetOrNull(f, "replyCount"), 0),
      SafeInt(GetOrNull(f, "retweetCount"), 0),
      SafeInt(GetOrNull(f, "likeCount"), 0),
      media,
      quoted,
      if Truthy(GetOrNull(f, "inReplyToStatusId")) then Some(SafeStr(f["inReplyToStatusId"], "")) else None)
  }

  /** The field rules of a parsed post. */
  lemma ParsedFields(d: Json)
    requires ParseSingleTweet(d).Ok?
    ensures var t := ParseSingleTweet(d).value;
      && ("conversationId" !in d.fields ==> t.conversationId == t.id)
      && (d.fields["id"].JStr? && "conversationId" in d.fields && d.fields["conversationId"] == JNull ==>
            t.conversationId == "")
      && (t.inReplyTo.Some? <==> Truthy(GetOrNull(d.fields, "inReplyToStatusId")))
      && ("replyCount" !in d.fields ==> t.replyCount == 0)
      && (t.media.Some? ==> |t.media.value| > 0)
      && (t.quoted.Some? <==> "quotedTweet" in d.fields && Truthy(d.fields["quotedTweet"]))
  {
  }

  /** An entry becomes a post exactly when its header is valid, its media parse and
      its quoted post, if any, becomes a post. */
  lemma ParseSingleTweetOkIff(d: Json)
    ensures ParseSingleTweet(d).Ok? <==>
      && HeaderValid(d)
      && ("media" in d.fields ==> ParseMediaField(d.fields["media"]).Ok?)
      && ("quotedTweet" in d.fields && Truthy(d.fields["quotedTweet"]) ==>
            ParseSingleTweet(d.fields["quotedTweet"]).Ok?)
  {
  }

  const ExpectedArray := NewError(Bird, BirdJsonParseError, Some("Expected JSON array of tweets"))

  /** `parse_tweets` on decoded JSON, as written: entries are parsed in order and a
      caught fault skips the entry, but an `AttributeError` aborts the whole call. */
  function ParseTweetsSpec(data: Json): (r: Result<seq<Tweet>, Failure>)
    ensures !data.JArr? ==> r == Err(Raised(ExpectedArray))
  {
    if data.JArr? then Survivors(data.items) else Err(Raised(ExpectedArray))
  }

  function Survivors(items: seq<Json>): (r: Result<seq<Tweet>, Failure>)
    ensures r.Ok? ==> |r.value| <= |items|
    ensures r.Err? ==> r.error == Uncaught("AttributeError")
  {
    if items == [] then Ok([])
    else
      match Survivors(items[..|items| - 1])
      case Err(e) => Err(e)
      case Ok(ts) =>
        match ParseSingleTweet(items[|items| - 1])
        case Ok(t) => Ok(ts + [t])
        case Err(Malformed) => Ok(ts)
        case Err(AttributeError) => Err(Uncaught("AttributeError"))
  }

  /** Once a prefix of the batch has aborted, the whole batch has. */
  lemma {:induction false} SurvivorsErrPersists(items: seq<Json>, k: nat)
    requires k <= |items| && Survivors(items[..k]).Err?
    ensures Survivors(items).Err?
    decreases |items| - k
  {
    if k < |items| {
      assert items[..k + 1][..k] == items[..k];
      SurvivorsErrPersists(items, k + 1);
    } else {
      assert items[..k] == items;
    }
  }

  /** The BirdError for a text argument that does not decode; `why` stands for the
      decoder's own message. */
  function InvalidJson(why: string): (e: XDigestError)
    ensures e.kind == Bird && e.code == BirdJsonParseError
    ensures e.message == "Invalid JSON: " + why
  {
    NewError(Bird, BirdJsonParseError, Some("Invalid JSON: " + why))
  }

  /** `parse_tweets` on either form of its argument: a string (here a `JStr`) is the raw
      output of the fetcher and is decoded by `loads` first, whose `Err` carries the
      decoder's message; anything else is already decoded. */
  function ParseTweetsArg(arg: Json, loads: string -> Result<Json, string>): (r: Result<seq<Tweet>, Failure>)
    ensures r.Err? ==> r.error == Uncaught("AttributeError")
                       || (r.error.Raised? && r.error.error.kind == Bird
                           && r.error.error.code == BirdJsonParseError)
    ensures arg.JStr? && loads(arg.s).Err? ==> r == Err(Raised(InvalidJson(loads(arg.s).error)))
  {
    if arg.JStr? then
      match loads(arg.s)
      case Err(why) => Err(Raised(InvalidJson(why)))
      case Ok(data) => ParseTweetsSpec(data)
    else ParseTweetsSpec(arg)
  }

  /** A text argument gives what its decoded value gives when passed directly (a text
      decoding to another string is not decoded a second time). */
  lemma TextArgumentDecoded(s: string, loads: string -> Result<Json, string>, data: Json)
    requires loads(s) == Ok(data) && !data.JStr?
    ensures ParseTweetsArg(JStr(s), loads) == ParseTweetsArg(data, loads)
    ensures data.JArr? ==> ParseTweetsArg(JStr(s), loads) == Survivors(data.items)
  {
  }

  /** The text `[]` gives an empty batch, and a text decoding to a string is not an array. */
  lemma EmptyArrayText(loads: string -> Result<Json, string>)
    requires loads("[]") == Ok(JArr([]))
    requires loads("\"[]\"") == Ok(JStr("[]"))
    ensures ParseTweetsArg(JStr("[]"), loads) == Ok([])
    ensures ParseTweetsArg(JStr("\"[]\""), loads) == Err(Raised(ExpectedArray))
  {
  }

  /** `parse_tweets`: the decoding step, then the batch loop. */
  method ParseTweets(arg: Json, loads: string -> Result<Json, string>) returns (r: Result<seq<Tweet>, Failure>)
    ensures r == ParseTweetsArg(arg, loads)
  {
    var data := arg;
    if arg.JStr? {
      var decoded := loads(arg.s);
      if decoded.Err? {
        return Err(Raised(InvalidJson(decoded.error)));
      }
      data := decoded.value;
    }
    if !data.JArr? {
      return Err(Raised(ExpectedArray));
    }
    var items := data.items;
    var tweets: seq<Tweet> := [];
    var i := 0;
    while i < |items|
      invariant 0 <= i <= |items|
      invariant Survivors(items[..i]) == Ok(tweets)
    {
      assert items[..i + 1][..i] == items[..i];
      var parsed := ParseSingleTweet(items[i]);
      match parsed {
        case Ok(t) =>
          tweets := tweets + [t];
        case Err(Malformed) =>
        case Err(AttributeError) =>
          SurvivorsErrPersists(items, i + 1);
          assert items[..|items|] == items;
          return Err(Uncaught("AttributeError"));
      }
      i := i + 1;
    }
    assert items[..i] == items;
    return Ok(tweets);
  }

  /** The batch as the skip-and-continue handler intends it: every faulty entry,
      whatever exception it raises, is skipped. */
  function KeptTweets(items: seq<Json>): (r: seq<Tweet>)
    ensures |r| <= |items|
  {
    if items == [] then []
    else
      var last := ParseSingleTweet(items[|items| - 1]);
      KeptTweets(items[..|items| - 1]) + (if last.Ok? then [last.value] else [])
  }

  lemma {:induction false} KeptTweetsConcat(a: seq<Json>, b: seq<Json>)
    ensures KeptTweets(a + b) == KeptTweets(a) + KeptTweets(b)
    decreases |b|
  {
    if b == [] {
      assert a + b == a;
    } else {
      assert (a + b)[..|a + b| - 1] == a + b[..|b| - 1];
      KeptTweetsConcat(a, b[..|b| - 1]);
    }
  }

  /** Malformed entries never abort the batch nor disturb the other entries:
      removing one leaves the result unchanged. */
  lemma KeptTweetsSkipsFaulty(a: seq<Json>, x: Json, b: seq<Json>)
    requires ParseSingleTweet(x).Err?
    ensures KeptTweets(a + [x] + b) == KeptTweets(a + b)
  {
    KeptTweetsConcat(a + [x], b);
    KeptTweetsConcat(a, [x]);
    KeptTweetsConcat(a, b);
    KeptSingle(x);
  }

  /** Entries that parse are all kept, in order. */
  lemma KeptTweetsKeepsParsed(a: seq<Json>, x: Json, b: seq<Json>)
    requires ParseSingleTweet(x).Ok?
    ensures KeptTweets(a + [x] + b) == KeptTweets(a) + [ParseSingleTweet(x).value] + KeptTweets(b)
  {
    KeptTweetsConcat(a + [x], b);
    KeptTweetsConcat(a, [x]);
    KeptSingle(x);
  }

  lemma KeptSingle(x: Json)
    ensures KeptTweets([x]) == if ParseSingleTweet(x).Ok? then [ParseSingleTweet(x).value] else []
  {
    assert [x][..0] == [];
  }

  /** Where no entry raises `AttributeError` the source's loop and the intended
      one agree. */
  lemma {:induction false} SurvivorsWithoutAttributeError(items: seq<Json>)
    requires forall i :: 0 <= i < |items| ==> ParseSingleTweet(items[i]) != Err(AttributeError)
    ensures Survivors(items) == Ok(KeptTweets(items))
  {
    if items != [] {
      var init := items[..|items| - 1];
      assert forall i :: 0 <= i < |init| ==> init[i] == items[i];
      SurvivorsWithoutAttributeError(init);
      var last := ParseSingleTweet(items[|items| - 1]);
      assert last != Err(AttributeError);
      if last.Ok? {
        assert Survivors(items) == Ok(KeptTweets(init) + [last.value]);
      } else {
        assert last.error.Malformed?;
        assert KeptTweets(items) == KeptTweets(init) + [];
        assert KeptTweets(init) + [] == KeptTweets(init);
        assert Survivors(init) == Ok(KeptTweets(init));
        assert Survivors(items) == Ok(KeptTweets(init));
      }
    }
  }

  /** One well-formed entry. */
  const GoodEntry := JObj(map["id" := JStr("1"), "text" := JStr("hi"),
                              "author" := JObj(map["username" := JStr("a")])])

  /** An entry whose media list holds a number instead of a dictionary. */
  const BadMediaEntry := JObj(map["id" := JStr("2"), "text" := JStr("x"),
                                  "author" := JObj(map["username" := JStr("b")]),
                                  "media" := JArr([JInt(1)])])

  /** As written, that one entry makes the whole batch fail, though the loop's own
      handler is meant to skip malformed entries; the intended loop keeps the good
      entry. */
  lemma NonDictMediaAbortsBatch()
    ensures ParseTweetsSpec(JArr([GoodEntry, BadMediaEntry])) == Err(Uncaught("AttributeError"))
    ensures |KeptTweets([GoodEntry, BadMediaEntry])| == 1
  {
    GoodEntryParses();
    BadMediaRaises();
    GoodThenRaising(GoodEntry, BadMediaEntry);
  }

  lemma GoodEntryParses()
    ensures ParseSingleTweet(GoodEntry).Ok?
  {
    assert HeaderValid(GoodEntry);
  }

  lemma BadMediaRaises()
    ensures ParseSingleTweet(BadMediaEntry) == Err(AttributeError)
  {
    assert HeaderValid(BadMediaEntry);
    assert !ParseMediaList([JInt(1)]).Ok?;
  }

  /** A parsable entry followed by a raising one: the batch fails, while the
      intended loop keeps the first. */
  lemma GoodThenRaising(good: Json, bad: Json)
    requires ParseSingleTweet(good).Ok? && ParseSingleTweet(bad) == Err(AttributeError)
    ensures ParseTweetsSpec(JArr([good, bad])) == Err(Uncaught("AttributeError"))
    ensures |KeptTweets([good, bad])| == 1
  {
    assert [good, bad][..1] == [good];
    assert [good][..0] == [];
  }

  /** `format_tweet_text`: the quoted post is appended only when asked for and present. */
  function FormatTweetText(t: Tweet, includeQuote: bool): (r: string)
    ensures !includeQuote || t.quoted.None? ==> r == t.text
    ensures StartsWith(r, t.text)
  {
    if includeQuote && t.quoted.Some? then
      t.text + "\n\nQuoted @" + t.quoted.value.author.username + ": " + t.quoted.value.text
    else t.text
  }

  /** `calculate_content_length`: the text plus the quoted text. */
  function ContentLength(t: Tweet): (n: nat)
    ensures n >= |t.text|
    ensures t.quoted.None? ==> n == |t.text|
  {
    |t.text| + (if t.quoted.Some? then |t.quoted.value.text| else 0)
  }

  /** The formatted text carries exactly the counted content plus the fixed
      quote header. */
  lemma FormattedLength(t: Tweet)
    ensures |FormatTweetText(t, true)| ==
      ContentLength(t) + (if t.quoted.Some? then 12 + |t.quoted.value.author.username| else 0)
  {
  }

  /** `get_engagement_score`: a retweet weighs twice a like or a reply. */
  function EngagementScore(t: Tweet): (s: int)
    ensures t.likeCount >= 0 && t.retweetCount >= 0 && t.replyCount >= 0 ==> s >= 0
    ensures s >= t.likeCount + t.retweetCount + t.replyCount <==> t.retweetCount >= 0
    ensures s == t.likeCount + t.retweetCount + t.replyCount <==> t.retweetCount == 0
  {
    t.likeCount + 2 * t.retweetCount + t.replyCount
  }

  /** One more retweet raises the score by two; one more like or reply by one. */
  lemma EngagementWeights(t: Tweet)
    ensures EngagementScore(t.(retweetCount := t.retweetCount + 1)) == EngagementScore(t) + 2
    ensures EngagementScore(t.(likeCount := t.likeCount + 1)) == EngagementScore(t) + 1
    ensures EngagementScore(t.(replyCount := t.replyCount + 1)) == EngagementScore(t) + 1
  {
  }
}
