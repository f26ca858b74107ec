# x-digest core, modelled in Dafny

x-digest turns the posts of Twitter/X lists into a periodic digest. It reads
the raw posts emitted by the `bird` command-line tool and parses them into
tweets. It then:

- groups replies into conversation threads and classifies how complete each thread is;
- drops posts that another post in the batch quotes;
- optionally asks a language model to pre-summarise long posts and threads;
- picks the images worth showing within a token budget;
- builds the digest prompt and payload, and asks the model for the digest, falling back to a plain
  "sparse" digest when there are few posts or the model fails;
- splits the result into messages no longer than the delivery channel's limit, and sends them with
  retries and exponential backoff through WhatsApp (via a gateway) or Telegram.

Around this sit the configuration loader (version check, required fields,
value ranges, deep merge with defaults) and the run-status record (when a
list last ran, the window to fetch). They also include the watch-mode interval parser
(`1h30m`), the artifact layout kept for debugging, and the error taxonomy.

The project has one Dafny module per source file, plus a few shared modules:

- `Wrappers`: `Option`, `Result`;
- `Json`: JSON values with Python truthiness and `.get`;
- `Text`: the Python string methods the code uses, as functions with their own lemmas;
- `Seqs`: sequence lemmas;
- `Sorting`: Python's stable `sorted` with a key, specified by an insertion sort with its
  permutation and stability lemmas.

Python's exceptions are modelled explicitly. A raised `XDigestError` is
`Raised(e)`. A built-in exception that the code lets escape is
`Uncaught("TypeError")`, `Uncaught("AttributeError")`, and so on.

The outside world comes in as parameters:

- The language model is a function from a request to a reply or a failure.
- A delivery channel is a function from the calls made so far and the new call to its answer.
- HTTP is a function from a request to a response or a transport exception.
- The clock is a value.
- Date parsing and formatting are functions.
- Decoding the text `bird` prints (`json.loads`) is a function from a string to a value or
  the decoder's error message.

The source spells its emoji and dashes as double-encoded UTF-8: the folder emoji
of config.py:227, for instance, appears as the four characters `ðŸ“‹`. The model
writes each such literal as the character it was meant to be.

Code that updates a structure step by step is written as `method`s with loops. This covers
thread reconstruction, categorisation, merging, repair of the status record,
splitting, sending and payload building. Each method is proved equal to a specification
function, and the lemmas state the properties of that function. The two mock
providers the source uses as test doubles are classes whose fields the
methods update.

## Model

| member | source | states |
|---|---|---|
| Classify.ClassifyTweet | src/x_digest/classify.py:32-61 | retweet if and only if the text starts with "RT @"; otherwise quote if and only if it quotes a post; otherwise reply if and only if it answers another post; otherwise standalone; never a thread |
| Classify.ReconstructThreads | src/x_digest/classify.py:64-98 | the threads are the conversation groups of `ThreadsSpec`, each sorted by the time key |
| Classify.ThreadsSpec | src/x_digest/classify.py:77-96 | the keys are the distinct conversation ids, and each group is sorted by the key and is a permutation of its conversation's members |
| Classify.ThreadsArePartition | src/x_digest/classify.py:64-98 | keys distinct and in first-appearance order; each group holds exactly its conversation's posts, sorted, with ties kept in input order; all groups together are a permutation of the input |
| Classify.GroupSpecIsPartition | src/x_digest/classify.py:77-84 | grouping by conversation id puts every post in the group of its own conversation and nowhere else |
| Classify.GroupSpecKeepsAll | src/x_digest/classify.py:77-84 | the groups together hold exactly the input posts, as a multiset |
| Classify.MembersShareConversation | src/x_digest/classify.py:77-84 | every member of a group has that group's conversation id |
| Classify.ClassifyThreadCompleteness | src/x_digest/classify.py:101-142 | the class is `CompletenessOf`: one post or none is complete; without the root post it is partial_no_root; with the root it is partial_with_root exactly when a reply answers a post outside the thread, else complete |
| Classify.DedupeQuotes | src/x_digest/classify.py:145-167 | the result is the input without exactly the posts whose ids a post of the batch quotes (a post quoting itself included), in order; when nothing is quoted the input is returned unchanged |
| Classify.CategorizeTweets | src/x_digest/classify.py:170-222 | threads are the groups of two or more posts; the retweet, quote, reply and standalone buckets are the single posts of that type; the buckets and threads together are a permutation of the input |
| Classify.PartitionOfCategories | src/x_digest/classify.py:189-209 | the five categories together hold every input post exactly once |
| Classify.SinglesAndMultis | src/x_digest/classify.py:189-190 | singles and multi-post groups together account for every group |
| Classify.OfTypePartition | src/x_digest/classify.py:198-209 | the four type buckets of the singles are a permutation of the singles |
| Classify.GetThreadStats | src/x_digest/classify.py:225-259 | each completeness counter is the number of threads of that class; singles + multis = threads, the three classes add up to the threads, complete ≥ singles, and the tweet total is the sum of the group sizes |
| Classify.CountOfPartition | src/x_digest/classify.py:225-259 | the three completeness classes divide the threads, and every single-post thread is complete |
| Classify.StatsOfReconstructed | src/x_digest/classify.py:225-259 | on reconstructed threads the tweet total equals the number of input posts |
| Models.ParseMediaEntry | src/x_digest/models.py:129-142 | type defaults to "photo", a missing preview url falls back to the url, video url and duration are set exactly when the record has them truthy |
| Models.ParseMediaList | src/x_digest/models.py:129-142 | succeeds if and only if every entry is a dictionary; a non-dictionary entry raises AttributeError |
| Models.ParseMediaField | src/x_digest/models.py:129-142 | a falsy media value gives no media; a media list gets one item per entry |
| Models.ParseSingleTweet | src/x_digest/models.py:109-165 | a record is accepted only if it is a dictionary with non-null id, text and author and an author username; otherwise it is rejected as malformed |
| Models.ParsedFields | src/x_digest/models.py:144-165 | a missing conversation id defaults to the post id; a reply target, media and quote are present when the record has them set; a missing count is 0 |
| Models.ParseSingleTweetOkIff | src/x_digest/models.py:109-165 | parsing succeeds if and only if the header is valid, the media field parses where present and the quoted post parses where set |
| Models.ParseTweets | src/x_digest/models.py:66-106 | equals `ParseTweetsArg`: a string argument is first decoded by the `loads` parameter, a decoding failure being the BirdError "Invalid JSON: " with the decoder's message; a non-array value is the BirdError ExpectedArray; otherwise records that raise KeyError, TypeError or ValueError are skipped, and any other exception escapes |
| Models.ParseTweetsArg | src/x_digest/models.py:79-94 | every failure is either an escaping AttributeError or a BirdError with the JSON parse code; a string that does not decode gives "Invalid JSON: " and the decoder's message |
| Models.TextArgumentDecoded | src/x_digest/models.py:79-88 | a text argument that decodes to a non-string value gives exactly what that value gives when passed already decoded |
| Models.EmptyArrayText | src/x_digest/models.py:79-94 | the text `[]` gives an empty batch, and a text decoding to a string gives ExpectedArray |
| Models.KeptTweetsSkipsFaulty | src/x_digest/models.py:96-104 | a record that fails to parse contributes nothing to the kept posts |
| Models.KeptTweetsKeepsParsed | src/x_digest/models.py:96-104 | every record that parses contributes its post, in input order |
| Models.SurvivorsWithoutAttributeError | src/x_digest/models.py:96-104 | when no record raises AttributeError, the batch result is exactly the kept posts |
| Models.NonDictMediaAbortsBatch | src/x_digest/models.py:101 | one well-formed record followed by a record with a non-dictionary media entry makes the whole batch fail with AttributeError |
| Models.FormatTweetText | src/x_digest/models.py:168-186 | starts with the post text, and is the text alone when quotes are off or nothing is quoted |
| Models.ContentLength | src/x_digest/models.py:189-200 | at least the text length, and exactly it when nothing is quoted |
| Models.FormattedLength | src/x_digest/models.py:168-200 | quoting adds exactly twelve characters plus the length of the quoted author's username to the content length; without a quote the two are equal |
| Models.EngagementWeights | src/x_digest/models.py:203-209 | one more retweet raises the score by two, one more like or reply by one |
| Models.EngagementScore | src/x_digest/models.py:203-209 | non-negative counts give a non-negative score; the score is at least the plain sum of the counts exactly when retweets are non-negative, and equals it exactly when there are none |
| Utils.ParseTwitterDate | src/x_digest/utils.py:12-49 | text containing +0000 is read in Twitter's format with the offset removed; text ending in Z is read as ISO in UTC; anything else as ISO; a parser failure gives the epoch |
| Utils.ParseFailureIsEpoch | src/x_digest/utils.py:44-49 | when no parser accepts the date the result is the epoch instant |
| Utils.FormatElapsed | src/x_digest/utils.py:75-87 | negative is "recently", under a minute "now", then whole minutes under an hour, whole hours under a day, otherwise whole days, each the largest count not exceeding the elapsed time |
| Utils.FormatRelativeTime | src/x_digest/utils.py:52-90 | instants in the first year after the epoch (UTC) and ones more than a second in the future are "recently"; less than a minute ago, or less than a second ahead, is "now"; otherwise the elapsed ladder |
| Utils.TruncateText | src/x_digest/utils.py:93-114 | text within the limit is returned unchanged; longer text becomes exactly the limit long: a prefix of the text followed by the suffix, or only the start of the suffix when the suffix alone is too long |
| Utils.SafeInt | src/x_digest/utils.py:117-131 | integers are kept, booleans become 0/1, numeric strings are parsed and other strings give the default, as do None, lists and dictionaries |
| Utils.SafeStr | src/x_digest/utils.py:134-148 | strings are kept, None is the default, other values are rendered as Python would (`True`, `False`, digits) |
| Utils.SafeIntOfRenderedInt | src/x_digest/utils.py:117-148 | rendering an integer with `SafeStr` and reading it with `SafeInt` gives it back |
| Errors.Value | src/x_digest/errors.py:15-72 | every error code has a non-empty value |
| Errors.Description | src/x_digest/errors.py:76-132 | every error code has a non-empty description |
| Errors.NewError | src/x_digest/errors.py:138-141 | a missing or empty message is replaced by the code's description; any other message is kept verbatim |
| Errors.Str | src/x_digest/errors.py:143-144 | the text is the code's value in brackets, a space, then the message |
| Artifacts.MediaToJson | src/x_digest/artifacts.py:49-89 | the video url and duration keys appear if and only if they are set and non-empty |
| Artifacts.TweetToJson | src/x_digest/artifacts.py:49-89 | the core keys are always present; the reply target, media and quoted post appear if and only if they are set and non-empty |
| Artifacts.TweetsToJson | src/x_digest/artifacts.py:49-89 | one record per post, each the post's record, in order |
| Artifacts.MediaRoundTrip | src/x_digest/artifacts.py:49-89 | a media item in canonical form parses back from its record unchanged |
| Artifacts.MediaListRoundTrip | src/x_digest/artifacts.py:49-89 | a media list record parses back to the same list |
| Artifacts.TweetRoundTrip | src/x_digest/artifacts.py:49-89 | a post in canonical form, written as a record, parses back to itself |
| Artifacts.BatchRoundTrip | src/x_digest/artifacts.py:49-89 | a batch of canonical posts written as records parses back to the same batch |
| Artifacts.ArtifactDir | src/x_digest/artifacts.py:26-46 | seven components: data dir, "digests", the year's digits, the month as digits of its value (two of them below 100), "week-" followed by the ISO week in at least two digits, the date as year-month-zero-padded day, and the list name |
| Artifacts.ZeroPadValue | src/x_digest/artifacts.py:26-46 | zero-padding a number keeps its digit value |
| Artifacts.PresummaryRecords | src/x_digest/artifacts.py:149-153 | one record per summarised post, holding exactly its tweet id and summary, in order |
| Artifacts.PromptArtifact | src/x_digest/artifacts.py:160-162 | the prompt file starts with the system prompt under its heading, ends with the payload under its own heading, and holds nothing else but the fixed separators |
| Artifacts.BuildMeta | src/x_digest/artifacts.py:172-194 | total time is the sum of the four stage timings; the fetched count is the number of posts; the posts-with-images count is the number of posts with media, at most the fetched count |
| Artifacts.NoMediaCount | src/x_digest/artifacts.py:172-194 | a batch without media counts zero posts with images |
| Configuration.DeepMergeLoop | src/x_digest/config.py:201-211 | the loop computes `DeepMerge` |
| Configuration.DeepMergeRules | src/x_digest/config.py:201-211 | the keys are the union; a key only in the base keeps the base value; two dictionaries merge recursively; otherwise the override wins |
| Configuration.DeepMergeIdempotent | src/x_digest/config.py:201-211 | merging the same override twice changes nothing more |
| Configuration.DeepMergeSelf | src/x_digest/config.py:201-211 | merging a configuration with itself gives it back |
| Configuration.MergeDefaults | src/x_digest/config.py:187-198 | the result is the defaults deep-merged with the loaded configuration |
| Configuration.ValidateRequiredFields | src/x_digest/config.py:115-147 | equals `RequiredFieldsSpec`: a missing version, then a missing lists field, is ConfigMissingRequiredField; lists that are not a dictionary are ConfigInvalidValue; then every list entry is checked |
| Configuration.ListsCheck | src/x_digest/config.py:115-147 | passes if and only if every list entry is a dictionary with an id |
| Configuration.ValidateConfigValues | src/x_digest/config.py:150-184 | equals `ValuesSpec` |
| Configuration.ValuesAcceptedIff | src/x_digest/config.py:150-184 | accepted if and only if 0 < max input tokens ≤ 1,000,000, max output tokens > 0, the four thresholds > 0 and retry attempts > 0; any rejection carries ConfigInvalidValue |
| Configuration.LoadConfig | src/x_digest/config.py:54-98 | equals `LoadConfigSpec` |
| Configuration.VersionCheckedFirst | src/x_digest/config.py:82-87 | a version other than the expected one fails with ConfigVersionMismatch before any other check |
| Configuration.RequiredFieldsDecide | src/x_digest/config.py:88-98 | with the right version, missing lists and non-dictionary lists are the reported failures, and otherwise the check passes exactly when every entry is a dictionary with an id |
| Configuration.LoadedCarriesDefaults | src/x_digest/config.py:187-198 | a loaded configuration holds every default the file leaves out, keeps every file value that does not merge, fills missing keys of the defaults section, and passes the value checks |
| Configuration.LoadedIsMerge | src/x_digest/config.py:54-98 | a loaded configuration is the defaults merged with the file's contents |
| Configuration.GetListConfig | src/x_digest/config.py:214-231 | a list name missing from the lists is a ConfigInvalidValue error naming the list |
| Configuration.NonDictEntryFails | src/x_digest/config.py:221-227 | an entry that is not a dictionary fails: AttributeError at `.copy()` unless it is a list; a list copies, then fails with KeyError when `defaults` is missing and with AttributeError at `.setdefault` otherwise |
| Configuration.ListEntryWithoutDefaults | src/x_digest/config.py:221-222 | a list entry `[]` without `defaults` gives KeyError, a string entry gives AttributeError |
| Configuration.ListConfigFills | src/x_digest/config.py:214-231 | a found list gets its display name (title-cased name), emoji, enabled flag and timezone filled in only where missing |
| Configuration.SetDefault | src/x_digest/config.py:214-231 | a present key is kept unchanged and a missing one is added with the value |
| Status.StoredInstant | src/x_digest/status.py:129-197 | no lists section or no entry for the list reads as no timestamp |
| Status.ShouldRun | src/x_digest/status.py:129-158 | no lists section means run; a false answer means the last run parsed with a UTC offset and lies within the window; a last run without an offset raises TypeError |
| Status.ShouldRunDecides | src/x_digest/status.py:129-158 | no last run means run; an unparsable one means run; one without a UTC offset raises TypeError; otherwise run if and only if more than the window has passed |
| Status.GetTimeWindow | src/x_digest/status.py:161-197 | the window ends now and starts either 24 hours ago or at the stored last success as parsed; it fails exactly when reading the entry fails |
| Status.TimeWindowStart | src/x_digest/status.py:161-197 | starts at the last success when one is stored and parseable, and 24 hours ago otherwise |
| Status.Initial | src/x_digest/status.py:86-96 | unreadable or undecodable content starts from the default status |
| Status.WriteFields | src/x_digest/status.py:107-108 | the entry with every update written over it |
| Status.UpdateInMemory | src/x_digest/status.py:98-111 | equals `UpdateSpec` on the initial status |
| Status.UpdatePreserves | src/x_digest/status.py:98-111 | last_updated is now, other top-level keys and other lists are unchanged, the list's entry gains exactly the updates |
| Status.FreshStartOnBadContent | src/x_digest/status.py:86-111 | from bad content the result is the default status with one default entry carrying the updates |
| Status.UpdateSucceedsOnWellFormed | src/x_digest/status.py:98-111 | a well-formed status always updates without error |
| Status.FillEntry | src/x_digest/status.py:286-294 | the entry with each missing default key added |
| Status.RepairEntry | src/x_digest/status.py:286-294 | a dictionary entry gets its missing default keys; anything else becomes the default entry |
| Status.ValidateStatusStructure | src/x_digest/status.py:265-296 | equals `ValidateSpec` |
| Status.ValidatedShape | src/x_digest/status.py:265-296 | the repaired status has cookie_status, last_updated and a lists dictionary; the same list names; each entry holds every default key and keeps its own values |
| Status.ValidatedNonDict | src/x_digest/status.py:265-270 | a status that is not a dictionary becomes the default status |
| Status.ValidateIdempotent | src/x_digest/status.py:265-296 | repairing a repaired status changes nothing |
| Watch.MatchInterval | src/x_digest/watch.py:150-154 | a match is a well-formed sequence of number-unit groups that spells the input exactly |
| Watch.MatchSpelled | src/x_digest/watch.py:150-154 | every well-formed spelling is matched, as itself |
| Watch.MatchUnique | src/x_digest/watch.py:150-154 | a spelling has only one reading |
| Watch.ParseIntervalMeaning | src/x_digest/watch.py:134-169 | after stripping and lower-casing, a text spelled by well-formed groups gives the sum of each group times its unit, an error when that sum is zero, and a text no groups spell is an invalid-format error |
| Watch.ParseInterval | src/x_digest/watch.py:134-169 | equals `ParseIntervalSpec` |
| Watch.NormalizedSpelling | src/x_digest/watch.py:150 | lower-casing a spelling of digits and unit letters leaves it unchanged |
| Watch.FormattedGroups | src/x_digest/watch.py:113-126 | the formatted interval is the spelling of its hour and minute groups |
| Watch.TotalOfFormatted | src/x_digest/watch.py:113-169 | the groups of a formatted interval add up to the seconds below a minute, and otherwise to the seconds rounded down to the minute |
| Watch.FormatThenParse | src/x_digest/watch.py:113-169 | parsing the formatted interval gives back the seconds below a minute, and otherwise the seconds rounded down to a whole minute |
| Watch.RoundTripIff | src/x_digest/watch.py:113-169 | format then parse gives the seconds back if and only if they are under a minute or a whole number of minutes |
| Watch.ZeroDoesNotRoundTrip | src/x_digest/watch.py:113-169 | zero seconds format to a string parse rejects |
| Watch.FormatInterval | src/x_digest/watch.py:113-126 | the text ends in s exactly under a minute, holds an h exactly from an hour on, and from an hour on ends in m exactly when the minutes are not zero |
| Images.CalculateImageTokens | src/x_digest/images.py:200-202 | 1900 tokens per image |
| Images.MaxImagesFitsBudget | src/x_digest/images.py:22-25 | MAX_IMAGES is 15: fifteen images fit the 30,000 token budget and sixteen do not |
| Images.CandidateOf | src/x_digest/images.py:65-82 | a photo offers its url, a video its preview url, marked as a video preview, with the post's id and score |
| Images.PerPostKeepsFirst | src/x_digest/images.py:85-86 | a post keeps its best images, at most three, in priority order |
| Images.PrioritizeImages | src/x_digest/images.py:38-93 | the result is the (post id, url) pairs of `Selected` |
| Images.SelectionProperties | src/x_digest/images.py:38-93 | at most max_total images, sorted by descending priority, drawn without repetition from the pool, each from a post of the batch |
| Images.PoolPerPostCap | src/x_digest/images.py:85-86 | the pool holds at most the per-post cap times the number of posts |
| Images.SelectionStable | src/x_digest/images.py:89-93 | images of equal priority keep their pool order |
| Images.GetImageStats | src/x_digest/images.py:205-231 | the photo and video counts of the batch, the posts with media, the cap of 15, and the tokens all photos would cost |
| Images.VisualCount | src/x_digest/images.py:65-82 | the candidate media of a post are exactly its photos and videos |
| Images.PoolWithinStats | src/x_digest/images.py:38-93 | the pool never holds more images than the photos and videos the statistics count |
| Presummary.Section | src/x_digest/presummary.py:216-227 | no configuration gives the default section; a missing section is empty; a section that is not a dictionary is an error |
| Presummary.Threshold | src/x_digest/presummary.py:41-68 | a missing threshold is its default, an integer is itself, a boolean is 0/1, other values raise TypeError |
| Presummary.ThresholdsOf | src/x_digest/presummary.py:43-67 | reading all four thresholds at once succeeds exactly when each is absent, an integer or a boolean, and gives the values each read yields; otherwise TypeError |
| Presummary.ShouldSingle | src/x_digest/presummary.py:52-70 | whenever every threshold is numeric, a post needs a summary exactly when it is over the limits; a post over the post limit needs one whatever the other thresholds hold; any failure is TypeError |
| Presummary.ShouldThread | src/x_digest/presummary.py:41-50 | the thread minimum is read first: a failure to read it fails, a list that long needs a summary, a shorter one-element list is judged as its post and any other list needs none; with numeric thresholds it agrees with the limits |
| Presummary.ShouldSingleFails | src/x_digest/presummary.py:52-70 | judging a post fails exactly when a non-numeric threshold is reached: the post limit, then the quote limit for a quoting post within the post limit, then the combined limit |
| Presummary.QuoteLimitOnlyForQuotes | src/x_digest/presummary.py:59-63 | the quote limit is never read for a post without a quote |
| Presummary.ThresholdsReadLazily | src/x_digest/presummary.py:41-57 | a post over the post limit needs a summary whatever the quote and combined thresholds hold, alone or as a one-element list |
| Presummary.DefaultsWhenMissing | src/x_digest/presummary.py:216-227 | missing thresholds are 500, 300, 600 and 2, and the default section is enabled |
| Presummary.ExceedsPostWithoutQuote | src/x_digest/presummary.py:53-70 | without a quote, and with the combined limit at least the post limit, a post is over the limits exactly when its text is longer than the post limit |
| Presummary.ExceedsListMonotone | src/x_digest/presummary.py:19-70 | raising every threshold never makes more posts or threads exceed the limits |
| Presummary.ExceedsListSmall | src/x_digest/presummary.py:41-50 | a list below the thread minimum exceeds the limits only as its single post; an empty one never does |
| Presummary.PromptShows | src/x_digest/presummary.py:73-113 | the prompt starts with the preamble and the content type, shows the author, the length description and the content, and ends with the instructions |
| Presummary.ThreadPromptCountsPosts | src/x_digest/presummary.py:85-92 | when no post text contains a newline, a thread's length description counts its characters and its posts (a newline inside a text can form an extra separator and over-count) |
| Presummary.SingleContent | src/x_digest/presummary.py:173-192 | the content starts with the post text; the type is quote_chain with a quote and long_tweet otherwise |
| Presummary.SummaryOf | src/x_digest/presummary.py:173-213 | a non-empty reply is stripped into the summary, an empty one is none, an LLMError is none, any other failure escapes |
| Presummary.SummarizeSingleTweet | src/x_digest/presummary.py:173-192 | sends the single-post prompt and reads the reply as `SummaryOf` |
| Presummary.SummarizeThread | src/x_digest/presummary.py:195-213 | an empty thread raises IndexError; otherwise sends the thread prompt and reads the reply |
| Presummary.UnitOutcome | src/x_digest/presummary.py:149-168 | a unit whose judgement fails fails with it; otherwise it sends one prompt exactly when it needs a summary, and has no summary when it does not |
| Presummary.SummarizeUnit | src/x_digest/presummary.py:149-168 | agrees with `UnitOutcome` |
| Presummary.PresummaryTweets | src/x_digest/presummary.py:116-170 | agrees with `PresummaryTweetsSpec` |
| Presummary.SummarizeUnits | src/x_digest/presummary.py:149-168 | agrees with `PresummarySpec` |
| Presummary.PresummaryCoversUnits | src/x_digest/presummary.py:149-168 | the results list every unit's posts in order, and one prompt goes out per unit needing a summary |
| Presummary.PresummaryListsUnits | src/x_digest/presummary.py:149-168 | the results list every unit's posts in unit order |
| Presummary.PresummaryCountsPrompts | src/x_digest/presummary.py:149-168 | one prompt goes out per unit needing a summary |
| Presummary.ThreadsSeparated | src/x_digest/presummary.py:145-148 | reconstructed threads never share a conversation |
| Presummary.SummaryPerConversation | src/x_digest/presummary.py:149-168 | posts of one conversation share one summary |
| Presummary.PresummaryTweetsShape | src/x_digest/presummary.py:116-170 | the results are a permutation of the input posts, with one summary per conversation |
| Presummary.DisabledSendsNothing | src/x_digest/presummary.py:139-142 | when disabled, no prompt is sent and every post is returned unsummarised in order |
| Presummary.EmptyBatchReadsNoThreshold | src/x_digest/presummary.py:116-170 | an empty batch succeeds with no pairs and no prompts even when a threshold holds a value of the wrong kind |
| Presummary.ModelErrorIsNoSummary | src/x_digest/presummary.py:173-192 | an LLMError from the model leaves the post without a summary, having sent its prompt |
| Digest.Setting | src/x_digest/digest.py:22-76 | a missing key gives the default and a string value is itself |
| Digest.FormatEmptyDigest | src/x_digest/digest.py:244-254 | starts with the title line and ends with the quiet-period line |
| Digest.ExcerptShape | src/x_digest/digest.py:257-279 | text of at most 100 characters is kept; longer text becomes its first 100 characters and "...", 103 in all |
| Digest.FormatSparseDigest | src/x_digest/digest.py:257-279 | the lines of `SparseLines` joined by newlines |
| Digest.SparseDigestShape | src/x_digest/digest.py:257-279 | the sparse digest has 4 + 3n lines: the title, the post-count line, then for each post a bullet line with author and excerpt and a likes line with the link |
| Digest.BuildDigestPayload | src/x_digest/digest.py:79-145 | the lines of `PayloadLines` joined by newlines |
| Digest.PayloadDescribesPost | src/x_digest/digest.py:114-143 | every post appears with its heading, its link, its summary or its text, and an image line when it has selected images |
| Digest.SectionsPrompt | src/x_digest/digest.py:174-241 | agrees with `SectionsPromptSpec` |
| Digest.SectionsPromptNamesEverySection | src/x_digest/digest.py:184-191 | every configured section's heading appears in the prompt |
| Digest.DefaultsPrompt | src/x_digest/digest.py:161-164 | a defaults dictionary is searched for its own prompt; None, a boolean or a number in its place raises TypeError |
| Digest.ConfiguredSections | src/x_digest/digest.py:166-169 | sections are used if and only if they are a non-empty list, and then there is one per item |
| Digest.AsSections | src/x_digest/digest.py:184-191 | succeeds if and only if every section is a dictionary, one per item; otherwise AttributeError |
| Digest.BuildSystemPrompt | src/x_digest/digest.py:148-171 | agrees with `SystemPromptSpec` |
| Digest.SystemPromptPriority | src/x_digest/digest.py:148-171 | the list prompt wins, then the defaults prompt; without either, configured sections give the sections prompt, or their error, and no sections give the built-in prompt |
| Digest.FetchedImages | src/x_digest/digest.py:61-69 | at most one part per selected image, and exactly one each when no fetch fails |
| Digest.FetchImages | src/x_digest/digest.py:61-69 | the fetched images in order, skipping failed fetches |
| Digest.GenerateDigest | src/x_digest/digest.py:22-76 | no posts give the empty template, fewer than five the sparse one, no model call; otherwise one request with payload, system prompt and images; its reply stripped, or the sparse digest on an LLMError, other failures propagate |
| Digest.Markers | src/x_digest/digest.py:309-322 | every marker has at least two characters, and the last three are the generic heading, bold and blank-line markers |
| Digest.MarkerCut | src/x_digest/digest.py:327-342 | a cut found lies after the start and within the limit; when none is found no marker occurs within the limit after the start |
| Digest.CutAt | src/x_digest/digest.py:327-342 | the cut lies after the start and within the search limit |
| Digest.SplitStep | src/x_digest/digest.py:327-342 | the piece is the text before the cut, right-stripped, and at most the search limit long; the rest is the text after it, left-stripped, and strictly shorter than the input |
| Digest.Indicate | src/x_digest/digest.py:348-350 | with more than one part, each part gains its "(i/n)" indicator |
| Digest.SplitDigest | src/x_digest/digest.py:282-352 | agrees with `SplitDigestSpec` |
| Digest.SplitDigestProperties | src/x_digest/digest.py:282-352 | every raw part is at most the limit, the non-space text is kept in order, and indicators are added when several parts result |
| Digest.SplitStallsAtTen | src/x_digest/digest.py:327-342 | with a limit of ten and no marker, the hard cut falls at position zero: the piece is empty and the remaining text is unchanged |
| Digest.IndicatorLength | src/x_digest/digest.py:348-350 | for at most nine parts every indicator is nine characters long |
| Digest.SplitOverflowsLimit | src/x_digest/digest.py:327-350 | "abcdefghi\n\nxyz" with a limit of 11 splits into two messages whose first has 18 characters |
| Digest.SplitDigestReserved | src/x_digest/digest.py:282-352 | agrees with `SplitDigestReservedSpec`, the split that reserves ten characters for the indicator |
| Digest.SplitReservedFits | src/x_digest/digest.py:282-352 | with the reserve, each message of at most nine fits the limit, and the text is kept |
| DeliveryBase.MockReply | src/x_digest/delivery/base.py:88-110 | fails on a listed message first, then while the call count is below the fail count, then by the success flag, with the configured error |
| DeliveryBase.MockProviderAnswers | src/x_digest/delivery/base.py:78-110 | the channel view of the mock answers as the mock does after those calls |
| DeliveryBase.MockDeliveryProvider.constructor | src/x_digest/delivery/base.py:58-76 | stores the settings and starts with no calls |
| DeliveryBase.MockDeliveryProvider.Send | src/x_digest/delivery/base.py:78-110 | records the call, bumps the count, keeps the settings, and answers `MockReply` |
| DeliveryBase.MockDeliveryProvider.Reset | src/x_digest/delivery/base.py:116-119 | forgets calls and count, keeps the settings |
| DeliveryBase.GetProvider | src/x_digest/delivery/base.py:122-162 | the corrected choice: a missing provider is ConfigMissingRequiredField; whatsapp builds the provider from the section's gateway_url and recipient, failing only when the section is not a dictionary; only the name telegram gives the Telegram provider; any other name is ConfigInvalidValue |
| DeliveryBase.OtherProvider | src/x_digest/delivery/base.py:136-162 | a missing provider is ConfigMissingRequiredField; a success is the Telegram provider with the section's bot_token and chat_id; any other name is ConfigInvalidValue |
| DeliveryBase.GetProviderAsWritten | src/x_digest/delivery/base.py:122-162 | as written, the whatsapp branch always fails with an uncaught exception; every other name behaves as in the corrected choice |
| DeliveryBase.WhatsAppBranchRaises | src/x_digest/delivery/base.py:140-148 | as written, a whatsapp configuration with a dictionary section, the unit test's included, raises TypeError |
| DeliveryBase.GetProviderCorrected | src/x_digest/delivery/base.py:122-162 | the corrected choice builds the unit test's WhatsApp provider and agrees with the code as written for every other provider name |
| DeliveryBase.PartAttemptsShape | src/x_digest/delivery/base.py:165-201 | every call repeats the part; backoffs are 1, 2, 4, …; success is the first answer that is not an error; a failed part used every attempt |
| DeliveryBase.SendPart | src/x_digest/delivery/base.py:180-199 | agrees with `PartAttempts` |
| DeliveryBase.SendDigest | src/x_digest/delivery/base.py:165-201 | the calls and backoffs of `DigestAttempts`; delivered if and only if no part failed |
| DeliveryBase.FailedOf | src/x_digest/delivery/base.py:199-201 | lists exactly the parts that did not get through |
| DeliveryBase.DeliveredIff | src/x_digest/delivery/base.py:199-201 | delivered if and only if every part was sent |
| DeliveryBase.PartCallCounts | src/x_digest/delivery/base.py:180-199 | a failed part made max_retries calls, a sent one between 1 and max_retries |
| DeliveryBase.PartCount | src/x_digest/delivery/base.py:180-199 | the same bounds for a single part |
| DeliveryBase.EveryPartAttempted | src/x_digest/delivery/base.py:180-199 | every part is attempted at least once, even after an earlier part failed |
| DeliveryBase.SingleAttemptEach | src/x_digest/delivery/base.py:180-199 | with one attempt allowed, each part is sent once with no backoff |
| DeliveryBase.TransientFailureRetried | src/x_digest/delivery/base.py:180-199 | a mock failing twice succeeds on the third call after backoffs of 1 and 2 seconds |
| DeliveryBase.DigestAttemptsEach | src/x_digest/delivery/base.py:180-199 | each part is attempted after all the calls of the parts before it |
| LlmBase.MockReply | src/x_digest/llm/base.py:79-92 | fails with the configured error exactly when one is set, and otherwise answers with the configured response |
| LlmBase.WordCount | src/x_digest/llm/base.py:94-96 | at most the number of characters, and zero for text of whitespace only |
| LlmBase.MockLLMProvider.constructor | src/x_digest/llm/base.py:67-77 | stores the response and the error, and starts with no calls |
| LlmBase.MockLLMProvider.Generate | src/x_digest/llm/base.py:79-92 | records the call and the response it logs (empty when failing), keeps the settings, and answers `MockReply` |
| LlmBase.MockLLMProvider.CountTokens | src/x_digest/llm/base.py:94-96 | thirteen tenths of the word count, rounded down, never fewer than the words |
| LlmBase.MockLLMProvider.Reset | src/x_digest/llm/base.py:98-100 | forgets the calls and keeps the settings |
| LlmBase.MockLLMProvider.SetResponse | src/x_digest/llm/base.py:102-105 | sets the response, clears the error and keeps the calls |
| LlmBase.MockLLMProvider.SetError | src/x_digest/llm/base.py:107-109 | sets the error and keeps the response and the calls |
| Gemini.Base64Shape | src/x_digest/llm/gemini.py:106-112 | the encoding of n bytes has 4·⌈n/3⌉ characters, all from the base64 alphabet |
| Gemini.EncodedImage | src/x_digest/llm/gemini.py:106-112 | succeeds exactly for raw bytes, giving an image/jpeg inline part holding their base64 |
| Gemini.BuildPayload | src/x_digest/llm/gemini.py:91-126 | agrees with `PayloadSpec` |
| Gemini.EncodedImagesIff | src/x_digest/llm/gemini.py:106-112 | the images encode if and only if all are raw bytes |
| Gemini.PayloadShape | src/x_digest/llm/gemini.py:91-126 | the optional system content, then one user content with the prompt and one inline part per image; output limit 4000 |
| Gemini.InlineImageRaises | src/x_digest/llm/gemini.py:106-112 | an already encoded image makes the payload raise TypeError |
| Gemini.CorrectedPayload | src/x_digest/llm/gemini.py:91-126 | the same layout, with an already encoded image passed through with its own mime type and data |
| Gemini.CorrectedAgrees | src/x_digest/llm/gemini.py:91-126 | wherever the original succeeds, the corrected payload is the same |
| Gemini.Reported | src/x_digest/llm/gemini.py:128-158 | every parse failure is an LLM error: LLM_EMPTY_RESPONSE when there is nothing to read, LLM_INVALID_RESPONSE for a malformed answer |
| Gemini.ParseResponse | src/x_digest/llm/gemini.py:128-158 | agrees with `ParseSpec` |
| Gemini.ParseWellFormed | src/x_digest/llm/gemini.py:128-158 | a well-formed answer gives its texts concatenated in order and stripped, and LLM_EMPTY_RESPONSE when no part has text |
| Gemini.NoCandidates | src/x_digest/llm/gemini.py:128-158 | a missing or empty candidate list is LLM_EMPTY_RESPONSE with "No candidates in response" |
| Gemini.NoParts | src/x_digest/llm/gemini.py:128-158 | a first candidate without content is LLM_EMPTY_RESPONSE with "No parts in response" |
| Gemini.CountTokens | src/x_digest/llm/gemini.py:82-89 | a quarter of the characters, rounded down |
| Gemini.CountTokensMonotone | src/x_digest/llm/gemini.py:82-89 | a longer text never counts fewer tokens |
| Telegram.SendMessageUrl | src/x_digest/delivery/telegram.py:29 | the API base, then the bot token, then /sendMessage |
| Telegram.TargetIsRecipient | src/x_digest/delivery/telegram.py:46 | the chat is the recipient given |
| Telegram.ConvertFormatting | src/x_digest/delivery/telegram.py:100-119 | leaves the message unchanged |
| Telegram.MapTelegramError | src/x_digest/delivery/telegram.py:121-140 | 401 is auth failed, 429 rate limited; 403 is bot blocked when the description says blocked and auth failed otherwise; 400 is chat not found or send failed by the description; any other code is send failed; a description that is not a string raises in the 403 and 400 branches |
| Telegram.MessageId | src/x_digest/delivery/telegram.py:73-85 | found if and only if the result holds a message id, and is that value |
| Telegram.ReadResponse | src/x_digest/delivery/telegram.py:73-94 | succeeds if and only if the body is a dictionary with a truthy ok and a message id, and then gives that id as text; every failure is a delivery error, a timeout among them a network error |
| Telegram.BareRefusal | src/x_digest/delivery/telegram.py:121-140 | a refusal with no error code and no description is a send failure with the text "Unknown error" |
| Telegram.BlockedReported | src/x_digest/delivery/telegram.py:121-140 | a 403 refusal whose description says blocked is reported as a blocked bot, with its description |
| Telegram.Send | src/x_digest/delivery/telegram.py:31-94 | a message over 4096 characters fails as too long and sends nothing; otherwise one request to the sendMessage url, read by `ReadResponse` |
| WhatsApp.TargetRecipient | src/x_digest/delivery/whatsapp.py:44-50 | the given recipient when it is non-empty, otherwise the configured default |
| WhatsApp.MapGatewayError | src/x_digest/delivery/whatsapp.py:118-133 | compared in upper case: recipient not found, then rate limited, then auth failure or session, then gateway unavailable, then message too long, the first found decides; otherwise send failed |
| WhatsApp.MapGatewayErrorIgnoresCase | src/x_digest/delivery/whatsapp.py:118-133 | the mapping does not depend on letter case |
| WhatsApp.ReadResponse | src/x_digest/delivery/whatsapp.py:78-101 | succeeds exactly on a 200 response whose body is a dictionary with a truthy `success`, giving its `messageId` or "unknown" when missing; 401, 429 and 503 map to auth failed, rate limited and gateway unavailable, other non-200 statuses to send failed with the status |
| WhatsApp.GatewayRefusal | src/x_digest/delivery/whatsapp.py:89-101 | a 200 answer without success reports the gateway error mapped, with its text |
| WhatsApp.Send | src/x_digest/delivery/whatsapp.py:29-112 | no recipient fails as invalid recipient; a message over 4000 characters fails as too long; in both cases nothing is sent; otherwise one request to the gateway, read by `ReadResponse` |
| WhatsApp.LimitIsAllowed | src/x_digest/delivery/whatsapp.py:114-116 | a message of exactly 4000 characters is sent |

## Left out

- Network and HTTP: requests to the gateway, Telegram and Gemini are a
  `post` parameter returning a response or a transport exception, and image
  downloads are a `fetch` parameter. `fetch_and_encode` and
  `describe_overflow_images` in images.py are not part of this model.
- `GeminiProvider.generate` and its constructor: the mapping of HTTP status
  codes to LLM errors and its re-wrapping are not modelled; payload building,
  response parsing and token counting are.
- The temperature in the Gemini payload, a floating-point value, is left out.
- LlmBase.MockLLMProvider.CountTokens: the source multiplies by the float 1.3
  and truncates; the model uses 13·words/10, which agrees except where
  floating-point rounding differs.
- File I/O and locking: reading and writing the status file, `write_meta`
  and its path, the artifact writes of `save_artifacts`, and the config file
  search. Their pure parts, the content and the values, are modelled.
- Watch mode's loop, signal handling and sleeping; the clock is a parameter.
- Calendar arithmetic: `strptime`, `fromisoformat`, `isocalendar` and
  `strftime` are parameters.
- Case mapping and `\d` cover ASCII only.
- JSON numbers are integers only: a fractional number is outside the model.
  This covers a media `width`, `height` or `durationMs` from `bird`, which
  `safe_int` would truncate; a fractional configuration threshold; and
  numbers in Gemini or Telegram response bodies.
- Utils.WithinFirstYearUtc: the code reads `year == 1970` in the parsed
  timestamp's own offset; the model reads it in UTC, since instants carry no
  offset.
- Dictionary iteration order is taken as insertion order, given as an
  explicit key order where it matters.
- Utils.SafeStr: containers and floats are not rendered; only strings,
  None, booleans and integers are. The same holds for Utils.Render, which
  builds the values inside messages: the version mismatch in Configuration,
  the unknown provider in DeliveryBase, the list names and prompts in Digest,
  and the Telegram messages. Where Python prints a list or dictionary's repr,
  the model prints "None".
- Status times are whole seconds; the instants of Utils are microseconds.
- The timestamps the delivery mock records are left out.
- Digest.SplitDigest requires a limit above ten: at ten the loop makes no
  progress (`SplitStallsAtTen`), and below ten Python's negative slice
  indices are not modelled.
- DeliveryBase.GetProvider: this is the corrected choice. As written, the
  WhatsApp branch always raises (`GetProviderAsWritten`; see Findings). The
  constructors only store their arguments, so a choice records the values
  passed to them.
- DeliveryBase.SendDigest: only DeliveryError is caught from a channel;
  other exceptions are not modelled.
- Errors.Value: that each value spells its code's name holds by the table's
  construction and is not stated as a lemma.
- The backoff comment in `send_digest` speaks of 2, 4 and 8 seconds while
  the code sleeps 1, 2 and 4; the model follows the code.
- The package `__init__` files, the command-line interface, fetching
  through `bird`, and logging are not part of this model.

## Findings

| source | as written | input that shows it | evidently intended | confidence | as-written member | corrected member |
|---|---|---|---|---|---|---|
| src/x_digest/digest.py:327-350 | parts are cut to at most `max_length`, then the "(i/n)" indicator is appended | "abcdefghi\n\nxyz" with a limit of 11: the first message has 18 characters | every message, indicator included, fits the limit | not executed | Digest.SplitOverflowsLimit | Digest.SplitReservedFits |
| src/x_digest/models.py:101 | only KeyError, TypeError and ValueError are skipped, but a media entry that is not a dictionary raises AttributeError in `.get` | a batch of one good record and one whose media list holds a string | the faulty record is skipped and the good one kept | not executed | Models.NonDictMediaAbortsBatch | Models.SurvivorsWithoutAttributeError |
| src/x_digest/llm/gemini.py:106-112 | every image is base64-encoded as bytes, but `generate_digest` passes already encoded dictionaries, and the TypeError escapes | any digest request with one fetched image | encoded images are passed through as inline data | not executed | Gemini.InlineImageRaises | Gemini.CorrectedAgrees |
| src/x_digest/delivery/base.py:140-148 | the WhatsApp branch passes `cli_path`, `node_path`, `recipient` and `timeout` to `WhatsAppProvider`, whose constructor (delivery/whatsapp.py:18) takes only `gateway_url` and `recipient` | the unit test's configuration `{"provider": "whatsapp", "whatsapp": {"gateway_url": "http://localhost:3420", "recipient": "+1234567890"}}` raises TypeError | the section's `gateway_url` and `recipient` are passed to the constructor | not executed | DeliveryBase.WhatsAppBranchRaises | DeliveryBase.GetProviderCorrected |
