/** Image selection for the multimodal digest: every photo and video of a post
    becomes a candidate carrying the post's engagement, each post keeps at most
    a few, and the pool is sorted by engagement and cut to the global budget. */
module Images {
  import opened Wrappers
  import opened Models
  import opened Sorting
  import opened Artifacts

  const TokensPerImage := 1900
  const MaxImageTokens := 30000
  const MaxImages := MaxImageTokens / TokensPerImage
  const MaxImagesPerTweet := 3

  /** `calculate_image_tokens`. */
  function CalculateImageTokens(numImages: int): (r: int)
    ensures numImages >= 0 ==> r >= 0
    ensures r == numImages * TokensPerImage
  {
    numImages * TokensPerImage
  }

  /** The global cap is the largest number of images that fits the token budget. */
  lemma MaxImagesFitsBudget()
    ensures MaxImages == 15
    ensures CalculateImageTokens(MaxImages) <= MaxImageTokens < CalculateImageTokens(MaxImages + 1)
  {
  }

  datatype PrioritizedImage = PrioritizedImage(
    tweetId: string,
    url: string,
    kind: string,
    engagement: int,
    isVideoPreview: bool)

  predicate IsVisual(m: Media) {
    m.kind == "photo" || m.kind == "video"
  }

  /** A photo contributes its own address, a video its preview image. */
  function CandidateOf(id: string, m: Media, engagement: int): (c: PrioritizedImage)
    requires IsVisual(m)
    ensures c.tweetId == id && c.engagement == engagement && c.kind == m.kind
    ensures c.url == (if m.kind == "photo" then m.url else m.previewUrl)
    ensures c.isVideoPreview <==> m.kind == "video"
  {
    if m.kind == "photo" then PrioritizedImage(id, m.url, m.kind, engagement, false)
    else PrioritizedImage(id, m.previewUrl, m.kind, engagement, true)
  }

  /** The photos and videos of a media list, in order. */
  function VisualMedia(ms: seq<Media>): (r: seq<Media>)
    ensures |r| <= |ms| && forall i :: 0 <= i < |r| ==> IsVisual(r[i])
  {
    if ms == [] then []
    else VisualMedia(ms[..|ms| - 1]) + (if IsVisual(ms[|ms| - 1]) then [ms[|ms| - 1]] else [])
  }

  /** The candidates of one post, as its inner loop collects them. */
  function Candidates(id: string, ms: seq<Media>, engagement: int): (r: seq<PrioritizedImage>)
    ensures |r| == |VisualMedia(ms)|
    ensures forall i :: 0 <= i < |r| ==> r[i] == CandidateOf(id, VisualMedia(ms)[i], engagement)
  {
    if ms == [] then []
    else
      var m := ms[|ms| - 1];
      Candidates(id, ms[..|ms| - 1], engagement) + (if IsVisual(m) then [CandidateOf(id, m, engagement)] else [])
  }

  /** The sort key of `sort(key=engagement, reverse=True)`: a stable ascending
      sort on the negated score keeps equal scores in input order. */
  function NegEngagement(x: PrioritizedImage): int {
    -x.engagement
  }

  /** Python's `s[:n]`, a negative `n` counting from the end. */
  function Take<T>(s: seq<T>, n: int): (r: seq<T>)
    ensures |r| <= |s| && r == s[..|r|]
    ensures n >= 0 ==> |r| == if n <= |s| then n else |s|
  {
    if n >= 0 then (if n <= |s| then s[..n] else s)
    else if |s| + n >= 0 then s[..|s| + n]
    else []
  }

  lemma TakeSorted<T>(s: seq<T>, n: int, key: T -> int)
    requires SortedBy(s, key)
    ensures SortedBy(Take(s, n), key)
  {
  }

  predicate HasMedia(t: Tweet) {
    t.media.Some? && t.media.value != []
  }

  /** What one post adds to the pool: its candidates, sorted, cut to the
      per-post cap. */
  function PerPost(t: Tweet, maxPerTweet: int): seq<PrioritizedImage> {
    if !HasMedia(t) then []
    else Take(SortBy(Candidates(t.id, t.media.value, EngagementScore(t)), NegEngagement), maxPerTweet)
  }

  /** All candidates of a post share its score, so the per-post sort changes
      nothing and the post keeps its first photos and videos in order. */
  lemma PerPostKeepsFirst(t: Tweet, maxPerTweet: int)
    requires HasMedia(t)
    ensures PerPost(t, maxPerTweet) == Take(Candidates(t.id, t.media.value, EngagementScore(t)), maxPerTweet)
    ensures maxPerTweet >= 0 ==> |PerPost(t, maxPerTweet)| <= maxPerTweet
  {
    SortBySorted(Candidates(t.id, t.media.value, EngagementScore(t)), NegEngagement);
  }

  /** The pool the outer loop builds. */
  function Pool(ts: seq<Tweet>, maxPerTweet: int): seq<PrioritizedImage> {
    if ts == [] then [] else Pool(ts[..|ts| - 1], maxPerTweet) + PerPost(ts[|ts| - 1], maxPerTweet)
  }

  /** The images `prioritize_images` selects, before the projection to pairs. */
  function Selected(ts: seq<Tweet>, maxTotal: int, maxPerTweet: int): seq<PrioritizedImage> {
    Take(SortBy(Pool(ts, maxPerTweet), NegEngagement), maxTotal)
  }

  function Pairs(s: seq<PrioritizedImage>): (r: seq<(string, string)>)
    ensures |r| == |s| && forall i :: 0 <= i < |s| ==> r[i] == (s[i].tweetId, s[i].url)
  {
    seq(|s|, i requires 0 <= i < |s| => (s[i].tweetId, s[i].url))
  }

  /** `prioritize_images`: the outer loop over posts, the inner loop over their
      media, the two sorts and the two cuts. */
  method PrioritizeImages(ts: seq<Tweet>, maxTotal: int, maxPerTweet: int) returns (r: seq<(string, string)>)
    ensures r == Pairs(Selected(ts, maxTotal, maxPerTweet))
  {
    var pool: seq<PrioritizedImage> := [];
    var i := 0;
    while i < |ts|
      invariant 0 <= i <= |ts|
      invariant pool == Pool(ts[..i], maxPerTweet)
    {
      assert ts[..i + 1][..i] == ts[..i];
      var t := ts[i];
      if !HasMedia(t) {
        i := i + 1;
        continue;
      }
      var engagement := EngagementScore(t);
      var ms := t.media.value;
      var images: seq<PrioritizedImage> := [];
      var j := 0;
      while j < |ms|
        invariant 0 <= j <= |ms|
        invariant images == Candidates(t.id, ms[..j], engagement)
      {
        assert ms[..j + 1][..j] == ms[..j];
        var m := ms[j];
        if m.kind == "photo" {
          images := images + [PrioritizedImage(t.id, m.url, m.kind, engagement, false)];
        } else if m.kind == "video" {
          images := images + [PrioritizedImage(t.id, m.previewUrl, m.kind, engagement, true)];
        }
        j := j + 1;
      }
      assert ms[..j] == ms;
      images := SortBy(images, NegEngagement);
      pool := pool + Take(images, maxPerTweet);
      i := i + 1;
    }
    assert ts[..i] == ts;
    var selected := Take(SortBy(pool, NegEngagement), maxTotal);
    r := Pairs(selected);
  }

  /** `x` is a photo or video of one of the posts, carrying that post's id and
      score. */
  predicate FromPost(x: PrioritizedImage, ts: seq<Tweet>) {
    exists i, j ::
      (&& 0 <= i < |ts| && HasMedia(ts[i]) && 0 <= j < |VisualMedia(ts[i].media.value)|
       && x == CandidateOf(ts[i].id, VisualMedia(ts[i].media.value)[j], EngagementScore(ts[i])))
  }

  lemma FromPostOfPrefix(x: PrioritizedImage, ts: seq<Tweet>, n: nat)
    requires n <= |ts| && FromPost(x, ts[..n])
    ensures FromPost(x, ts)
  {
    var i, j :| 0 <= i < n && HasMedia(ts[..n][i]) && 0 <= j < |VisualMedia(ts[..n][i].media.value)|
      && x == CandidateOf(ts[..n][i].id, VisualMedia(ts[..n][i].media.value)[j], EngagementScore(ts[..n][i]));
    assert ts[..n][i] == ts[i];
  }

  lemma FromLastPost(x: PrioritizedImage, ts: seq<Tweet>, maxPerTweet: int)
    requires ts != [] && x in PerPost(ts[|ts| - 1], maxPerTweet)
    ensures FromPost(x, ts)
  {
    var t := ts[|ts| - 1];
    PerPostKeepsFirst(t, maxPerTweet);
    var cs := Candidates(t.id, t.media.value, EngagementScore(t));
    var k :| 0 <= k < |PerPost(t, maxPerTweet)| && PerPost(t, maxPerTweet)[k] == x;
    assert x == cs[k];
    assert x == CandidateOf(ts[|ts| - 1].id, VisualMedia(ts[|ts| - 1].media.value)[k], EngagementScore(ts[|ts| - 1]));
  }

  /** Every pooled image is a photo or video of some input post, carrying that
      post's id and score. */
  lemma {:induction false} PoolFromPosts(ts: seq<Tweet>, maxPerTweet: int)
    ensures forall x :: x in Pool(ts, maxPerTweet) ==> FromPost(x, ts)
  {
    if ts != [] {
      var init := ts[..|ts| - 1];
      PoolFromPosts(init, maxPerTweet);
      forall x | x in Pool(ts, maxPerTweet)
        ensures FromPost(x, ts)
      {
        if x in Pool(init, maxPerTweet) {
          FromPostOfPrefix(x, ts, |ts| - 1);
        } else {
          FromLastPost(x, ts, maxPerTweet);
        }
      }
    }
  }

  lemma TakeIn<T>(s: seq<T>, n: int)
    ensures multiset(Take(s, n)) <= multiset(s)
    ensures forall x :: x in Take(s, n) ==> x in s
  {
    var r := Take(s, n);
    assert s == r + s[|r|..];
    assert multiset(s) == multiset(r) + multiset(s[|r|..]);
  }

  /** What `prioritize_images` promises: no more than the global cap, highest
      engagement first, and only photos (by address) and videos (by preview) of
      the input posts. */
  lemma SelectionProperties(ts: seq<Tweet>, maxTotal: int, maxPerTweet: int)
    ensures var sel := Selected(ts, maxTotal, maxPerTweet);
      && (maxTotal >= 0 ==> |sel| <= maxTotal)
      && (forall i, j :: 0 <= i < j < |sel| ==> sel[i].engagement >= sel[j].engagement)
      && multiset(sel) <= multiset(Pool(ts, maxPerTweet))
      && (forall x :: x in sel ==> FromPost(x, ts))
  {
    var pool := Pool(ts, maxPerTweet);
    var sorted := SortBy(pool, NegEngagement);
    TakeSorted(sorted, maxTotal, NegEngagement);
    TakeIn(sorted, maxTotal);
    PoolFromPosts(ts, maxPerTweet);
    forall x | x in sorted
      ensures x in pool
    {
      assert x in multiset(sorted);
    }
  }

  /** Since no post adds more than the per-post cap to the pool, the pool holds
      at most the cap times the number of posts. */
  lemma {:induction false} PoolPerPostCap(ts: seq<Tweet>, maxPerTweet: int)
    requires maxPerTweet >= 0
    ensures |Pool(ts, maxPerTweet)| <= maxPerTweet * |ts|
  {
    if ts != [] {
      PoolPerPostCap(ts[..|ts| - 1], maxPerTweet);
      if HasMedia(ts[|ts| - 1]) {
        PerPostKeepsFirst(ts[|ts| - 1], maxPerTweet);
      }
      assert maxPerTweet * |ts| == maxPerTweet * (|ts| - 1) + maxPerTweet;
    }
  }

  /** Ties keep their order: among images of equal score the selection is the
      pool's order. */
  lemma SelectionStable(ts: seq<Tweet>, maxPerTweet: int, k: int)
    ensures WithKey(SortBy(Pool(ts, maxPerTweet), NegEngagement), NegEngagement, k)
            == WithKey(Pool(ts, maxPerTweet), NegEngagement, k)
  {
    SortByStable(Pool(ts, maxPerTweet), NegEngagement, k);
  }

  datatype ImageStats = ImageStats(
    totalImages: nat,
    totalVideos: nat,
    tweetsWithMedia: nat,
    maxPossibleImages: int,
    estimatedTokensIfAll: int)

  /** The media of a list whose type is `kind`. */
  function KindCount(ms: seq<Media>, kind: string): (n: nat)
    ensures n <= |ms|
  {
    if ms == [] then 0
    else KindCount(ms[..|ms| - 1], kind) + (if ms[|ms| - 1].kind == kind then 1 else 0)
  }

  /** The media of type `kind` over the posts with media. */
  function BatchKindCount(ts: seq<Tweet>, kind: string): nat {
    if ts == [] then 0
    else
      var t := ts[|ts| - 1];
      BatchKindCount(ts[..|ts| - 1], kind) + (if HasMedia(t) then KindCount(t.media.value, kind) else 0)
  }

  /** `get_image_stats`: the counting loops. */
  method GetImageStats(ts: seq<Tweet>) returns (s: ImageStats)
    ensures s.totalImages == BatchKindCount(ts, "photo")
    ensures s.totalVideos == BatchKindCount(ts, "video")
    ensures s.tweetsWithMedia == CountWithMedia(ts)
    ensures s.maxPossibleImages == MaxImages
    ensures s.estimatedTokensIfAll == TokensPerImage * s.totalImages
  {
    var images, videos, withMedia := 0, 0, 0;
    var i := 0;
    while i < |ts|
      invariant 0 <= i <= |ts|
      invariant images == BatchKindCount(ts[..i], "photo")
      invariant videos == BatchKindCount(ts[..i], "video")
      invariant withMedia == CountWithMedia(ts[..i])
    {
      assert ts[..i + 1][..i] == ts[..i];
      var t := ts[i];
      if HasMedia(t) {
        withMedia := withMedia + 1;
        var ms := t.media.value;
        var j := 0;
        var addImages, addVideos := 0, 0;
        while j < |ms|
          invariant 0 <= j <= |ms|
          invariant addImages == KindCount(ms[..j], "photo")
          invariant addVideos == KindCount(ms[..j], "video")
        {
          assert ms[..j + 1][..j] == ms[..j];
          if ms[j].kind == "photo" {
            addImages := addImages + 1;
          } else if ms[j].kind == "video" {
            addVideos := addVideos + 1;
          }
          j := j + 1;
        }
        assert ms[..j] == ms;
        images, videos := images + addImages, videos + addVideos;
      }
      i := i + 1;
    }
    assert ts[..i] == ts;
    s := ImageStats(images, videos, withMedia, MaxImages, CalculateImageTokens(images));
  }

  lemma {:induction false} VisualCount(ms: seq<Media>)
    ensures |VisualMedia(ms)| == KindCount(ms, "photo") + KindCount(ms, "video")
  {
    if ms != [] {
      VisualCount(ms[..|ms| - 1]);
    }
  }

  /** The pool never holds more images than the photos and videos the
      statistics count, whatever the per-post cap. */
  lemma {:induction false} PoolWithinStats(ts: seq<Tweet>, maxPerTweet: int)
    ensures |Pool(ts, maxPerTweet)| <= BatchKindCount(ts, "photo") + BatchKindCount(ts, "video")
  {
    if ts != [] {
      var t := ts[|ts| - 1];
      PoolWithinStats(ts[..|ts| - 1], maxPerTweet);
      if HasMedia(t) {
        VisualCount(t.media.value);
        PerPostKeepsFirst(t, maxPerTweet);
      }
    }
  }
}
