/** Post classification, thread reconstruction by conversation, thread
    completeness, quote de-duplication, bucket partitioning and thread
    statistics. */
module Classify {
  import opened Wrappers
  import opened Text
  import opened Models
  import opened Sorting
  import opened Seqs

  datatype TweetType = Standalone | Thread | Quote | Reply | Retweet

  /** `classify_tweet`: retweet first, then quote, then reply, else standalone;
      a thread is only ever recognised from context. */
  function ClassifyTweet(t: Tweet): (r: TweetType)
    ensures r != Thread
    ensures StartsWith(t.text, "RT @") ==> r == Retweet
    ensures r == Quote <==> !StartsWith(t.text, "RT @") && t.quoted.Some?
    ensures r == Reply <==> !StartsWith(t.text, "RT @") && t.quoted.None? && t.inReplyTo.Some?
    ensures r == Standalone <==> !StartsWith(t.text, "RT @") && t.quoted.None? && t.inReplyTo.None?
  {
    if StartsWith(t.text, "RT @") then Retweet
    else if t.quoted.Some? then Quote
    else if t.inReplyTo.Some? then Reply
    else Standalone
  }

  /** A dictionary from conversation id to posts, in key insertion order. */
  type Groups = seq<(string, seq<Tweet>)>

  function Keys(g: Groups): (r: seq<string>)
    ensures |r| == |g| && forall j :: 0 <= j < |g| ==> r[j] == g[j].0
  {
    seq(|g|, j requires 0 <= j < |g| => g[j].0)
  }

  function Values(g: Groups): (r: seq<seq<Tweet>>)
    ensures |r| == |g| && forall j :: 0 <= j < |g| ==> r[j] == g[j].1
  {
    seq(|g|, j requires 0 <= j < |g| => g[j].1)
  }

  predicate DistinctKeys(g: Groups) {
    forall i, j :: 0 <= i < j < |g| ==> g[i].0 != g[j].0
  }

  /** The concatenation of a list of lists. */
  function Concat(vs: seq<seq<Tweet>>): seq<Tweet> {
    if vs == [] then [] else vs[0] + Concat(vs[1..])
  }

  lemma {:induction false} ConcatAppend(vs: seq<seq<Tweet>>, w: seq<Tweet>)
    ensures Concat(vs + [w]) == Concat(vs) + w
  {
    if vs == [] {
      assert [] + [w] == [w];
    } else {
      assert (vs + [w])[1..] == vs[1..] + [w];
      ConcatAppend(vs[1..], w);
    }
  }

  lemma {:induction false} ConcatSplit(vs: seq<seq<Tweet>>, j: nat)
    requires j < |vs|
    ensures Concat(vs) == Concat(vs[..j]) + vs[j] + Concat(vs[j + 1..])
  {
    if j > 0 {
      ConcatSplit(vs[1..], j - 1);
      assert vs[1..][..j - 1] == vs[1..j];
      assert vs[1..][j..] == vs[j + 1..];
      assert vs[..j] == [vs[0]] + vs[1..j];
      assert vs[..j][1..] == vs[1..j];
    } else {
      assert vs[1..] == vs[j + 1..];
    }
  }

  /** Permuting each list permutes the concatenation. */
  lemma {:induction false} ConcatPermuted(vs: seq<seq<Tweet>>, ws: seq<seq<Tweet>>)
    requires |vs| == |ws| && forall j :: 0 <= j < |vs| ==> multiset(vs[j]) == multiset(ws[j])
    ensures multiset(Concat(vs)) == multiset(Concat(ws))
  {
    if vs != [] {
      ConcatPermuted(vs[1..], ws[1..]);
    }
  }

  function IndexOfKey(g: Groups, k: string): (j: int)
    ensures -1 <= j < |g|
    ensures j >= 0 ==> g[j].0 == k
    ensures j < 0 ==> k !in Keys(g)
  {
    if g == [] then -1
    else if g[0].0 == k then 0
    else
      var r := IndexOfKey(g[1..], k);
      assert Keys(g[1..]) == Keys(g)[1..];
      if r < 0 then -1 else r + 1
  }

  /** One step of the grouping loop: a new key opens a group at the end, a known
      key appends to its group. */
  function AddToGroup(g: Groups, t: Tweet): Groups {
    var j := IndexOfKey(g, t.conversationId);
    if j < 0 then g + [(t.conversationId, [t])] else g[j := (g[j].0, g[j].1 + [t])]
  }

  /** The dictionary the grouping loop builds. */
  function GroupSpec(ts: seq<Tweet>): Groups {
    if ts == [] then [] else AddToGroup(GroupSpec(ts[..|ts| - 1]), ts[|ts| - 1])
  }

  /** The posts of conversation `c`, in input order. */
  function Members(ts: seq<Tweet>, c: string): seq<Tweet> {
    if ts == [] then []
    else Members(ts[..|ts| - 1], c) + (if ts[|ts| - 1].conversationId == c then [ts[|ts| - 1]] else [])
  }

  /** The conversation ids of the posts, each once, in order of first appearance. */
  function FirstAppearances(ts: seq<Tweet>): seq<string> {
    if ts == [] then []
    else
      var prev := FirstAppearances(ts[..|ts| - 1]);
      if ts[|ts| - 1].conversationId in prev then prev else prev + [ts[|ts| - 1].conversationId]
  }

  lemma {:induction false} MembersNone(ts: seq<Tweet>, c: string)
    requires forall i :: 0 <= i < |ts| ==> ts[i].conversationId != c
    ensures Members(ts, c) == []
  {
    if ts != [] {
      MembersNone(ts[..|ts| - 1], c);
    }
  }

  lemma {:induction false} FirstAppearancesOf(ts: seq<Tweet>)
    ensures forall i, j :: 0 <= i < j < |FirstAppearances(ts)| ==> FirstAppearances(ts)[i] != FirstAppearances(ts)[j]
    ensures forall c :: c in FirstAppearances(ts) <==> exists i :: 0 <= i < |ts| && ts[i].conversationId == c
  {
    if ts != [] {
      var init := ts[..|ts| - 1];
      FirstAppearancesOf(init);
      forall c | c in FirstAppearances(ts)
        ensures exists i :: 0 <= i < |ts| && ts[i].conversationId == c
      {
        if c in FirstAppearances(init) {
          var i :| 0 <= i < |init| && init[i].conversationId == c;
          assert ts[i] == init[i];
        } else {
          assert ts[|ts| - 1].conversationId == c;
        }
      }
      forall c, i | 0 <= i < |ts| && ts[i].conversationId == c
        ensures c in FirstAppearances(ts)
      {
        if i < |init| {
          assert init[i] == ts[i];
        }
      }
    }
  }

  /** The keys of the grouping are the conversation ids in order of first appearance. */
  lemma {:induction false} GroupSpecKeys(ts: seq<Tweet>)
    ensures Keys(GroupSpec(ts)) == FirstAppearances(ts)
  {
    if ts != [] {
      var init, t := ts[..|ts| - 1], ts[|ts| - 1];
      var g0 := GroupSpec(init);
      GroupSpecKeys(init);
      var j := IndexOfKey(g0, t.conversationId);
      if j < 0 {
        assert Keys(GroupSpec(ts)) == Keys(g0) + [t.conversationId];
      } else {
        assert Keys(g0)[j] == t.conversationId;
        assert Keys(GroupSpec(ts)) == Keys(g0);
      }
    }
  }

  /** Each group holds exactly the posts of its conversation, in input order. */
  lemma {:induction false} GroupSpecMembers(ts: seq<Tweet>)
    ensures forall j :: 0 <= j < |GroupSpec(ts)| ==>
      GroupSpec(ts)[j].1 == Members(ts, GroupSpec(ts)[j].0) && GroupSpec(ts)[j].1 != []
  {
    if ts != [] {
      var init, t := ts[..|ts| - 1], ts[|ts| - 1];
      var g0 := GroupSpec(init);
      GroupSpecMembers(init);
      GroupSpecKeys(init);
      FirstAppearancesOf(init);
      var c := t.conversationId;
      var j := IndexOfKey(g0, c);
      var g := GroupSpec(ts);
      if j < 0 {
        MembersNone(init, c);
        assert g == g0 + [(c, [t])];
        forall k | 0 <= k < |g0|
          ensures g[k].1 == Members(ts, g[k].0)
        {
          assert g[k] == g0[k];
          assert Keys(g0)[k] == g0[k].0;
        }
      } else {
        forall k | 0 <= k < |g| && k != j
          ensures g[k].1 == Members(ts, g[k].0)
        {
          assert g[k] == g0[k];
          assert Keys(g0)[k] != Keys(g0)[j];
        }
      }
    }
  }

  /** The grouping is a partition by conversation: keys are distinct and are the
      conversation ids in order of first appearance, and each group holds exactly
      the posts of its conversation, in input order. */
  lemma GroupSpecIsPartition(ts: seq<Tweet>)
    ensures var g := GroupSpec(ts);
      && DistinctKeys(g)
      && Keys(g) == FirstAppearances(ts)
      && (forall j :: 0 <= j < |g| ==> g[j].1 == Members(ts, g[j].0) && g[j].1 != [])
      && (forall c :: c in Keys(g) <==> exists i :: 0 <= i < |ts| && ts[i].conversationId == c)
  {
    var g := GroupSpec(ts);
    GroupSpecKeys(ts);
    GroupSpecMembers(ts);
    FirstAppearancesOf(ts);
    forall i, j | 0 <= i < j < |g|
      ensures g[i].0 != g[j].0
    {
      assert Keys(g)[i] != Keys(g)[j];
    }
  }

  /** Every post is in exactly one group: the groups' concatenation is a
      permutation of the input. */
  lemma {:induction false} GroupSpecKeepsAll(ts: seq<Tweet>)
    ensures multiset(Concat(Values(GroupSpec(ts)))) == multiset(ts)
  {
    if ts != [] {
      var init, t := ts[..|ts| - 1], ts[|ts| - 1];
      var g0 := GroupSpec(init);
      GroupSpecKeepsAll(init);
      assert ts == init + [t];
      var j := IndexOfKey(g0, t.conversationId);
      var g := GroupSpec(ts);
      if j < 0 {
        assert Values(g) == Values(g0) + [[t]];
        ConcatAppend(Values(g0), [t]);
      } else {
        var v0, v := Values(g0), Values(g);
        assert v == v0[j := v0[j] + [t]];
        ConcatSplit(v0, j);
        ConcatSplit(v, j);
        assert v[..j] == v0[..j];
        assert v[j + 1..] == v0[j + 1..];
      }
    }
  }

  /** `reconstruct_threads` as a value: the grouping, with each group sorted by
      the date key. `key` stands for `parse_twitter_date` applied to `created_at`;
      that function never fails, so every post has a key. */
  function ThreadsSpec(ts: seq<Tweet>, key: Tweet -> int): (r: Groups)
    ensures |r| == |GroupSpec(ts)|
    ensures forall j :: 0 <= j < |r| ==> r[j] == (GroupSpec(ts)[j].0, SortBy(GroupSpec(ts)[j].1, key))
  {
    var g := GroupSpec(ts);
    seq(|g|, j requires 0 <= j < |g| => (g[j].0, SortBy(g[j].1, key)))
  }

  /** `reconstruct_threads`: the grouping loop, then the loop that sorts each group. */
  method ReconstructThreads(ts: seq<Tweet>, key: Tweet -> int) returns (threads: Groups)
    ensures threads == ThreadsSpec(ts, key)
  {
    threads := [];
    var i := 0;
    while i < |ts|
      invariant 0 <= i <= |ts|
      invariant threads == GroupSpec(ts[..i])
    {
      assert ts[..i + 1][..i] == ts[..i];
      var c := ts[i].conversationId;
      var j := IndexOfKey(threads, c);
      ghost var prev := threads;
      if j < 0 {
        threads := threads + [(c, [])];
        j := |threads| - 1;
      }
      threads := threads[j := (threads[j].0, threads[j].1 + [ts[i]])];
      assert [] + [ts[i]] == [ts[i]];
      assert threads == AddToGroup(prev, ts[i]);
      i := i + 1;
    }
    assert ts[..i] == ts;
    ghost var grouped := threads;
    var k := 0;
    while k < |threads|
      invariant 0 <= k <= |threads| == |grouped|
      invariant forall j :: 0 <= j < k ==> threads[j] == (grouped[j].0, SortBy(grouped[j].1, key))
      invariant forall j :: k <= j < |threads| ==> threads[j] == grouped[j]
    {
      threads := threads[k := (threads[k].0, SortBy(threads[k].1, key))];
      k := k + 1;
    }
  }

  /** The partition property of the reconstructed threads, sorted: keys distinct,
      each thread a permutation of its conversation's posts sorted by date with
      ties in input order, and all threads together a permutation of the input. */
  lemma ThreadsArePartition(ts: seq<Tweet>, key: Tweet -> int)
    ensures var r := ThreadsSpec(ts, key);
      && DistinctKeys(r)
      && Keys(r) == FirstAppearances(ts)
      && (forall j :: 0 <= j < |r| ==>
            && multiset(r[j].1) == multiset(Members(ts, r[j].0))
            && r[j].1 != []
            && SortedBy(r[j].1, key)
            && (forall v :: WithKey(r[j].1, key, v) == WithKey(Members(ts, r[j].0), key, v)))
      && multiset(Concat(Values(r))) == multiset(ts)
  {
    ThreadsKeys(ts, key);
    ThreadsMembers(ts, key);
    ThreadsStable(ts, key);
    ThreadsCoverAll(ts, key);
  }

  lemma ThreadsKeys(ts: seq<Tweet>, key: Tweet -> int)
    ensures var r := ThreadsSpec(ts, key);
      DistinctKeys(r) && Keys(r) == FirstAppearances(ts)
  {
    GroupSpecIsPartition(ts);
    assert Keys(ThreadsSpec(ts, key)) == Keys(GroupSpec(ts));
  }

  lemma ThreadsMembers(ts: seq<Tweet>, key: Tweet -> int)
    ensures var r := ThreadsSpec(ts, key);
      forall j :: 0 <= j < |r| ==>
        && multiset(r[j].1) == multiset(Members(ts, r[j].0))
        && r[j].1 != []
        && SortedBy(r[j].1, key)
  {
    GroupSpecIsPartition(ts);
  }

  lemma ThreadsStable(ts: seq<Tweet>, key: Tweet -> int)
    ensures var r := ThreadsSpec(ts, key);
      forall j, v :: 0 <= j < |r| ==> WithKey(r[j].1, key, v) == WithKey(Members(ts, r[j].0), key, v)
  {
    var g := GroupSpec(ts);
    var r := ThreadsSpec(ts, key);
    GroupSpecIsPartition(ts);
    forall j, v | 0 <= j < |r|
      ensures WithKey(r[j].1, key, v) == WithKey(Members(ts, r[j].0), key, v)
    {
      SortByStable(g[j].1, key, v);
    }
  }

  lemma ThreadsCoverAll(ts: seq<Tweet>, key: Tweet -> int)
    ensures multiset(Concat(Values(ThreadsSpec(ts, key)))) == multiset(ts)
  {
    GroupSpecKeepsAll(ts);
    ConcatPermuted(Values(ThreadsSpec(ts, key)), Values(GroupSpec(ts)));
  }

  /** Every member of a conversation's group carries that conversation id. */
  lemma {:induction false} MembersShareConversation(ts: seq<Tweet>, c: string)
    ensures forall i :: 0 <= i < |Members(ts, c)| ==> Members(ts, c)[i].conversationId == c
  {
    if ts != [] {
      MembersShareConversation(ts[..|ts| - 1], c);
    }
  }

  datatype Completeness = Complete | PartialWithRoot | PartialNoRoot

  predicate HasRoot(thread: seq<Tweet>) {
    exists i :: 0 <= i < |thread| && thread[i].id == thread[i].conversationId
  }

  predicate RepliesTo(t: Tweet) {
    t.inReplyTo.Some? && t.inReplyTo.value != ""
  }

  function Ids(ts: seq<Tweet>): set<string> {
    set i | 0 <= i < |ts| :: ts[i].id
  }

  /** Some member replies to a post that is not in the thread. */
  predicate HasGap(thread: seq<Tweet>) {
    exists i :: 0 <= i < |thread| && RepliesTo(thread[i]) && thread[i].inReplyTo.value !in Ids(thread)
  }

  /** The class of a thread: one post is complete; a longer thread without its
      root is partial without root; one with its root is partial exactly when
      some member replies outside it. */
  function CompletenessOf(thread: seq<Tweet>): Completeness {
    if |thread| <= 1 then Complete
    else if !HasRoot(thread) then PartialNoRoot
    else if HasGap(thread) then PartialWithRoot
    else Complete
  }

  /** `classify_thread_completeness`, with its loop collecting the missing parents. */
  method ClassifyThreadCompleteness(thread: seq<Tweet>) returns (c: Completeness)
    ensures c == CompletenessOf(thread)
    ensures |thread| <= 1 ==> c == Complete
    ensures |thread| > 1 && !HasRoot(thread) ==> c == PartialNoRoot
    ensures |thread| > 1 && HasRoot(thread) ==> (c == PartialWithRoot <==> HasGap(thread))
    ensures |thread| > 1 && HasRoot(thread) ==> c != PartialNoRoot
  {
    if |thread| <= 1 {
      return Complete;
    }
    var hasRoot := exists i :: 0 <= i < |thread| && thread[i].id == thread[i].conversationId;
    if !hasRoot {
      return PartialNoRoot;
    }
    var ids := set i | 0 <= i < |thread| :: thread[i].id;
    var gaps: seq<string> := [];
    var k := 0;
    while k < |thread|
      invariant 0 <= k <= |thread|
      invariant (gaps != []) <==> exists i :: 0 <= i < k && RepliesTo(thread[i]) && thread[i].inReplyTo.value !in ids
    {
      if RepliesTo(thread[k]) && thread[k].inReplyTo.value !in ids {
        gaps := gaps + [thread[k].inReplyTo.value];
      }
      k := k + 1;
    }
    c := if gaps != [] then PartialWithRoot else Complete;
  }

  /** The ids quoted by some post of the batch that are themselves in the batch. */
  function QuotedInBatch(ts: seq<Tweet>): set<string> {
    set i | 0 <= i < |ts| && ts[i].quoted.Some? && ts[i].quoted.value.id in Ids(ts) :: ts[i].quoted.value.id
  }

  /** The posts whose id is not in `drop`, in order. */
  function WithoutIds(ts: seq<Tweet>, drop: set<string>): (r: seq<Tweet>)
    ensures |r| <= |ts|
    ensures forall t :: t in r <==> t in ts && t.id !in drop
  {
    if ts == [] then []
    else (if ts[0].id in drop then [] else [ts[0]]) + WithoutIds(ts[1..], drop)
  }

  lemma {:induction false} WithoutNoIds(ts: seq<Tweet>)
    ensures WithoutIds(ts, {}) == ts
  {
    if ts != [] {
      WithoutNoIds(ts[1..]);
    }
  }

  /** `dedupe_quotes`: the loop collecting quoted in-batch ids, then the filter. */
  method DedupeQuotes(ts: seq<Tweet>) returns (r: seq<Tweet>)
    ensures r == WithoutIds(ts, QuotedInBatch(ts))
    ensures forall t :: t in r <==> t in ts && t.id !in QuotedInBatch(ts)
    ensures QuotedInBatch(ts) == {} ==> r == ts
  {
    var idsInBatch := set i | 0 <= i < |ts| :: ts[i].id;
    assert idsInBatch == Ids(ts);
    var quotedIds: set<string> := {};
    var k := 0;
    while k < |ts|
      invariant 0 <= k <= |ts|
      invariant quotedIds == set i | 0 <= i < k && ts[i].quoted.Some? && ts[i].quoted.value.id in idsInBatch :: ts[i].quoted.value.id
    {
      if ts[k].quoted.Some? && ts[k].quoted.value.id in idsInBatch {
        quotedIds := quotedIds + {ts[k].quoted.value.id};
      }
      k := k + 1;
    }
    assert quotedIds == QuotedInBatch(ts);
    r := WithoutIds(ts, quotedIds);
    if QuotedInBatch(ts) == {} {
      WithoutNoIds(ts);
    }
  }

  /** The buckets of `categorize_tweets`. */
  datatype Categories = Categories(
    standalone: seq<Tweet>,
    threads: seq<seq<Tweet>>,
    quotes: seq<Tweet>,
    replies: seq<Tweet>,
    retweets: seq<Tweet>)

  /** The single posts of the one-element groups, in group order. */
  function Singles(vs: seq<seq<Tweet>>): seq<Tweet> {
    if vs == [] then [] else (if |vs[0]| == 1 then [vs[0][0]] else []) + Singles(vs[1..])
  }

  /** The groups with more than one post, in group order. */
  function Multis(vs: seq<seq<Tweet>>): (r: seq<seq<Tweet>>)
    ensures forall j :: 0 <= j < |r| ==> |r[j]| > 1
  {
    if vs == [] then [] else (if |vs[0]| > 1 then [vs[0]] else []) + Multis(vs[1..])
  }

  lemma ConcatCons(w: seq<Tweet>, vs: seq<seq<Tweet>>)
    ensures Concat([w] + vs) == w + Concat(vs)
  {
    assert ([w] + vs)[1..] == vs;
  }

  /** Splitting non-empty groups into singles and multis loses no post. */
  lemma {:induction false} SinglesAndMultis(vs: seq<seq<Tweet>>)
    requires forall j :: 0 <= j < |vs| ==> vs[j] != []
    ensures multiset(Singles(vs)) + multiset(Concat(Multis(vs))) == multiset(Concat(vs))
  {
    if vs != [] {
      var w, rest := vs[0], vs[1..];
      SinglesAndMultis(rest);
      assert Concat(vs) == w + Concat(rest);
      if |w| == 1 {
        assert Singles(vs) == [w[0]] + Singles(rest);
        assert Multis(vs) == Multis(rest);
        SingletonSeq(w);
      } else {
        assert Singles(vs) == Singles(rest);
        assert Multis(vs) == [w] + Multis(rest);
        ConcatCons(w, Multis(rest));
      }
    }
  }

  /** The posts of `s` whose class is `ty`, in order. */
  function OfType(s: seq<Tweet>, ty: TweetType): (r: seq<Tweet>)
    ensures forall i :: 0 <= i < |r| ==> ClassifyTweet(r[i]) == ty
  {
    if s == [] then []
    else OfType(s[..|s| - 1], ty) + (if ClassifyTweet(s[|s| - 1]) == ty then [s[|s| - 1]] else [])
  }

  lemma OfTypeStep(s: seq<Tweet>, i: nat, ty: TweetType)
    requires i < |s|
    ensures OfType(s[..i + 1], ty) == OfType(s[..i], ty) + (if ClassifyTweet(s[i]) == ty then [s[i]] else [])
  {
    assert s[..i + 1][..i] == s[..i];
  }

  lemma OfTypeSnoc(init: seq<Tweet>, t: Tweet, ty: TweetType)
    ensures OfType(init + [t], ty) == OfType(init, ty) + (if ClassifyTweet(t) == ty then [t] else [])
  {
    assert (init + [t])[..|init|] == init;
  }

  /** Every post falls in exactly one of the four single-post buckets. */
  lemma {:induction false} OfTypePartition(s: seq<Tweet>)
    ensures multiset(OfType(s, Standalone)) + multiset(OfType(s, Quote)) + multiset(OfType(s, Reply))
            + multiset(OfType(s, Retweet)) == multiset(s)
  {
    if s != [] {
      var init, t := s[..|s| - 1], s[|s| - 1];
      OfTypePartition(init);
      BucketsSnoc(OfType(init, Standalone), OfType(init, Quote), OfType(init, Reply), OfType(init, Retweet),
        OfType(s, Standalone), OfType(s, Quote), OfType(s, Reply), OfType(s, Retweet),
        init, s, t, ClassifyTweet(t));
    }
  }

  lemma BucketsSnoc(a: seq<Tweet>, q: seq<Tweet>, p: seq<Tweet>, w: seq<Tweet>,
                    a': seq<Tweet>, q': seq<Tweet>, p': seq<Tweet>, w': seq<Tweet>,
                    init: seq<Tweet>, s: seq<Tweet>, t: Tweet, ty: TweetType)
    requires ty != Thread && s != [] && init == s[..|s| - 1] && t == s[|s| - 1]
    requires multiset(a) + multiset(q) + multiset(p) + multiset(w) == multiset(init)
    requires a' == a + (if ty == Standalone then [t] else [])
    requires q' == q + (if ty == Quote then [t] else [])
    requires p' == p + (if ty == Reply then [t] else [])
    requires w' == w + (if ty == Retweet then [t] else [])
    ensures multiset(a') + multiset(q') + multiset(p') + multiset(w') == multiset(s)
  {
    InitLast(s);
    assert multiset(s) == multiset(init) + multiset{t};
  }

  /** `categorize_tweets`: reconstruct, split into singles and multis, then the loop
      that files each single by its class. The flattened thread list the source also
      builds is never returned and is not modelled. */
  method CategorizeTweets(ts: seq<Tweet>, key: Tweet -> int) returns (c: Categories)
    ensures c.threads == Multis(Values(ThreadsSpec(ts, key)))
    ensures var singles := Singles(Values(ThreadsSpec(ts, key)));
      && c.quotes == OfType(singles, Quote)
      && c.replies == OfType(singles, Reply)
      && c.retweets == OfType(singles, Retweet)
      && c.standalone == OfType(singles, Standalone)
    ensures forall j :: 0 <= j < |c.threads| ==> |c.threads[j]| >= 2
    ensures multiset(c.standalone) + multiset(c.quotes) + multiset(c.replies) + multiset(c.retweets)
            + multiset(Concat(c.threads)) == multiset(ts)
  {
    var threads := ReconstructThreads(ts, key);
    var vs := Values(threads);
    var singles := Singles(vs);
    var standalone, quotes, replies, retweets := [], [], [], [];
    var i := 0;
    while i < |singles|
      invariant 0 <= i <= |singles|
      invariant quotes == OfType(singles[..i], Quote)
      invariant replies == OfType(singles[..i], Reply)
      invariant retweets == OfType(singles[..i], Retweet)
      invariant standalone == OfType(singles[..i], Standalone)
    {
      OfTypeStep(singles, i, Quote);
      OfTypeStep(singles, i, Reply);
      OfTypeStep(singles, i, Retweet);
      OfTypeStep(singles, i, Standalone);
      var t := singles[i];
      var ty := ClassifyTweet(t);
      if ty == Quote {
        quotes := quotes + [t];
      } else if ty == Reply {
        replies := replies + [t];
      } else if ty == Retweet {
        retweets := retweets + [t];
      } else {
        standalone := standalone + [t];
      }
      i := i + 1;
    }
    assert singles[..i] == singles;
    c := Categories(standalone, Multis(vs), quotes, replies, retweets);
    PartitionOfCategories(ts, key);
  }

  lemma PartitionOfCategories(ts: seq<Tweet>, key: Tweet -> int)
    ensures var vs := Values(ThreadsSpec(ts, key));
      var singles := Singles(vs);
      multiset(OfType(singles, Standalone)) + multiset(OfType(singles, Quote)) + multiset(OfType(singles, Reply))
      + multiset(OfType(singles, Retweet)) + multiset(Concat(Multis(vs))) == multiset(ts)
  {
    var vs := Values(ThreadsSpec(ts, key));
    ThreadsArePartition(ts, key);
    OfTypePartition(Singles(vs));
    SinglesAndMultis(vs);
  }

  datatype ThreadStats = ThreadStats(
    totalThreads: nat,
    singleTweets: nat,
    multiTweetThreads: int,
    totalTweets: nat,
    completeThreads: nat,
    partialWithRoot: nat,
    partialNoRoot: nat)

  function CountSingles(vs: seq<seq<Tweet>>): (n: nat)
    ensures n <= |vs|
  {
    if vs == [] then 0 else (if |vs[0]| == 1 then 1 else 0) + CountSingles(vs[1..])
  }

  /** The number of threads of class `k`. */
  function CountOf(vs: seq<seq<Tweet>>, k: Completeness): (n: nat)
    ensures n <= |vs|
  {
    if vs == [] then 0
    else CountOf(vs[..|vs| - 1], k) + (if CompletenessOf(vs[|vs| - 1]) == k then 1 else 0)
  }

  /** The three classes divide the threads, and every single post is complete. */
  lemma {:induction false} CountOfPartition(vs: seq<seq<Tweet>>)
    ensures CountOf(vs, Complete) + CountOf(vs, PartialWithRoot) + CountOf(vs, PartialNoRoot) == |vs|
    ensures CountOf(vs, Complete) >= CountSingles(vs)
  {
    if vs != [] {
      var init, last := vs[..|vs| - 1], vs[|vs| - 1];
      CountOfPartition(init);
      CountSinglesSnoc(init, last);
      assert init + [last] == vs;
    }
  }

  /** `get_thread_stats`: the counters and the completeness loop. */
  method GetThreadStats(threads: Groups) returns (st: ThreadStats)
    ensures st.totalThreads == |threads|
    ensures st.totalTweets == |Concat(Values(threads))|
    ensures st.singleTweets == CountSingles(Values(threads))
    ensures st.singleTweets + st.multiTweetThreads == st.totalThreads
    ensures st.completeThreads == CountOf(Values(threads), Complete)
    ensures st.partialWithRoot == CountOf(Values(threads), PartialWithRoot)
    ensures st.partialNoRoot == CountOf(Values(threads), PartialNoRoot)
    ensures st.completeThreads + st.partialWithRoot + st.partialNoRoot == st.totalThreads
    ensures st.completeThreads >= st.singleTweets
  {
    var vs := Values(threads);
    var singles := CountSingles(vs);
    var complete, withRoot, noRoot := 0, 0, 0;
    var i := 0;
    while i < |vs|
      invariant 0 <= i <= |vs|
      invariant complete == CountOf(vs[..i], Complete)
      invariant withRoot == CountOf(vs[..i], PartialWithRoot)
      invariant noRoot == CountOf(vs[..i], PartialNoRoot)
    {
      assert vs[..i + 1][..i] == vs[..i];
      var completeness := ClassifyThreadCompleteness(vs[i]);
      if completeness == Complete {
        complete := complete + 1;
      } else if completeness == PartialWithRoot {
        withRoot := withRoot + 1;
      } else {
        noRoot := noRoot + 1;
      }
      i := i + 1;
    }
    assert vs[..i] == vs;
    CountOfPartition(vs);
    st := ThreadStats(|threads|, singles, |threads| - singles, |Concat(vs)|, complete, withRoot, noRoot);
  }

  lemma {:induction false} CountSinglesSnoc(vs: seq<seq<Tweet>>, w: seq<Tweet>)
    ensures CountSingles(vs + [w]) == CountSingles(vs) + (if |w| == 1 then 1 else 0)
  {
    if vs == [] {
      assert [] + [w] == [w];
    } else {
      assert (vs + [w])[1..] == vs[1..] + [w];
      CountSinglesSnoc(vs[1..], w);
    }
  }

  /** On reconstructed threads the post count is the input's length. */
  lemma StatsOfReconstructed(ts: seq<Tweet>, key: Tweet -> int)
    ensures |Concat(Values(ThreadsSpec(ts, key)))| == |ts|
  {
    ThreadsArePartition(ts, key);
    assert |multiset(Concat(Values(ThreadsSpec(ts, key))))| == |multiset(ts)|;
  }
}
