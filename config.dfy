/** Configuration loading on the decoded file: the version check, the required
    fields, the recursive merge with the built-in defaults, the value checks,
    and the per-list view with its optional fields filled in. */
module Configuration {
  import opened Wrappers
  import opened Text
  import opened Json
  import opened Errors
  import opened Utils

  const ExpectedConfigVersion := 1

  const DefaultPresummary: map<string, Json> := map[
    "enabled" := JBool(true),
    "long_tweet_chars" := JInt(500),
    "long_quote_chars" := JInt(300),
    "long_combined_chars" := JInt(600),
    "thread_min_tweets" := JInt(2),
    "max_summary_tokens" := JInt(300)]

  const DefaultTokenLimits: map<string, Json> := map[
    "max_input_tokens" := JInt(100000),
    "max_output_tokens" := JInt(4000),
    "warn_at_percent" := JInt(80)]

  const DefaultDefaults: map<string, Json> := map[
    "llm" := JObj(map["provider" := JStr("gemini"), "model" := JStr("gemini-2.0-flash")]),
    "timezone" := JStr("America/New_York"),
    "token_limits" := JObj(DefaultTokenLimits),
    "pre_summarization" := JObj(DefaultPresummary)]

  const DefaultRetry: map<string, Json> := map[
    "max_attempts" := JInt(3),
    "initial_delay_seconds" := JInt(2),
    "backoff_multiplier" := JInt(2),
    "max_delay_seconds" := JInt(30)]

  /** `DEFAULT_CONFIG`. */
  const DefaultConfig: map<string, Json> := map[
    "defaults" := JObj(DefaultDefaults),
    "retry" := JObj(DefaultRetry),
    "idempotency_window_minutes" := JInt(30)]

  function ConfigFailure(code: ErrorCode, message: string): Failure {
    Raised(NewError(Config, code, Some(message)))
  }

  // ---------------------------------------------------------------------------
  // Merging

  /** The merged value of one key of the update. */
  function MergeValue(base: map<string, Json>, key: string, value: Json): Json
    decreases value, 2
  {
    if key in base && base[key].JObj? && value.JObj? then JObj(DeepMerge(base[key].fields, value.fields))
    else value
  }

  /** `_deep_merge` as a value: keys of the update replace or merge into the
      base's, the base's other keys stay. */
  function DeepMerge(base: map<string, Json>, update: map<string, Json>): map<string, Json>
    decreases JObj(update), 1
  {
    map k | k in base.Keys + update.Keys :: if k in update then MergeValue(base, k, update[k]) else base[k]
  }

  /** The merge after the loop has handled the update's keys in `done`. */
  function MergedSoFar(base: map<string, Json>, update: map<string, Json>, done: set<string>): map<string, Json>
    requires done <= update.Keys
  {
    map k | k in base.Keys + done :: if k in done then MergeValue(base, k, update[k]) else base[k]
  }

  lemma MergedSoFarStep(base: map<string, Json>, update: map<string, Json>, done: set<string>, key: string)
    requires done <= update.Keys && key in update && key !in done
    ensures MergedSoFar(base, update, done + {key})
            == MergedSoFar(base, update, done)[key := MergeValue(base, key, update[key])]
    ensures key in MergedSoFar(base, update, done) <==> key in base
    ensures key in base ==> MergedSoFar(base, update, done)[key] == base[key]
  {
  }

  lemma MergedSoFarEnds(base: map<string, Json>, update: map<string, Json>)
    ensures MergedSoFar(base, update, {}) == base
    ensures MergedSoFar(base, update, update.Keys) == DeepMerge(base, update)
  {
  }

  /** `_deep_merge`: copy the base, then for each key of the update merge two
      dictionaries recursively and otherwise let the update win. */
  method DeepMergeLoop(base: map<string, Json>, update: map<string, Json>) returns (result: map<string, Json>)
    ensures result == DeepMerge(base, update)
    decreases JObj(update), 1
  {
    result := base;
    var todo := update.Keys;
    MergedSoFarEnds(base, update);
    while todo != {}
      invariant todo <= update.Keys
      invariant result == MergedSoFar(base, update, update.Keys - todo)
    {
      var key :| key in todo;
      result := MergeKey(base, update, update.Keys - todo, key, result);
      assert update.Keys - todo + {key} == update.Keys - (todo - {key});
      todo := todo - {key};
    }
  }

  /** One pass of the loop in `_deep_merge`: the entry for `key`. */
  method MergeKey(ghost base: map<string, Json>, update: map<string, Json>, ghost done: set<string>,
                  key: string, result: map<string, Json>) returns (next: map<string, Json>)
    requires done <= update.Keys && key in update && key !in done
    requires result == MergedSoFar(base, update, done)
    ensures next == MergedSoFar(base, update, done + {key})
    decreases JObj(update), 0
  {
    var value := update[key];
    MergedSoFarStep(base, update, done, key);
    if key in result && result[key].JObj? && value.JObj? {
      assert JObj(value.fields) == value;
      var merged := DeepMergeLoop(result[key].fields, value.fields);
      next := result[key := JObj(merged)];
    } else {
      next := result[key := value];
    }
  }

  /** What merging keeps: the keys of both sides; a base key the update lacks
      keeps its value; an update key wins unless both values are dictionaries,
      which merge. */
  lemma DeepMergeRules(base: map<string, Json>, update: map<string, Json>)
    ensures var r := DeepMerge(base, update);
      && r.Keys == base.Keys + update.Keys
      && (forall k :: k in base && k !in update ==> r[k] == base[k])
      && (forall k :: k in update && !(k in base && base[k].JObj? && update[k].JObj?) ==> r[k] == update[k])
      && (forall k :: k in update && k in base && base[k].JObj? && update[k].JObj? ==>
            r[k] == JObj(DeepMerge(base[k].fields, update[k].fields)))
  {
  }

  /** Merging an empty update changes nothing. */
  lemma DeepMergeEmpty(base: map<string, Json>)
    ensures DeepMerge(base, map[]) == base
  {
  }

  /** Merging a map into itself changes nothing. */
  lemma {:induction false} DeepMergeSelf(m: map<string, Json>)
    ensures DeepMerge(m, m) == m
    decreases JObj(m)
  {
    forall k | k in m
      ensures MergeValue(m, k, m[k]) == m[k]
    {
      if m[k].JObj? {
        DeepMergeSelf(m[k].fields);
      }
    }
  }

  /** Merging the same update twice is merging it once. */
  lemma {:induction false} DeepMergeIdempotent(base: map<string, Json>, update: map<string, Json>)
    ensures DeepMerge(DeepMerge(base, update), update) == DeepMerge(base, update)
    decreases JObj(update)
  {
    var once := DeepMerge(base, update);
    forall k | k in update
      ensures MergeValue(once, k, update[k]) == once[k]
    {
      if update[k].JObj? {
        if k in base && base[k].JObj? {
          DeepMergeIdempotent(base[k].fields, update[k].fields);
        } else {
          DeepMergeSelf(update[k].fields);
        }
      }
    }
  }

  /** `_merge_defaults`: the same key loop as `_deep_merge`, run on a copy of
      `DEFAULT_CONFIG`. */
  method MergeDefaults(raw: map<string, Json>) returns (config: map<string, Json>)
    ensures config == DeepMerge(DefaultConfig, raw)
  {
    config := DeepMergeLoop(DefaultConfig, raw);
  }

  // ---------------------------------------------------------------------------
  // Checks

  /** The value compared with `<= 0`: an integer, or a boolean as 0 or 1;
      comparing anything else with an integer is a `TypeError`. */
  function Number(v: Json): (r: Result<int, Failure>)
    ensures v.JInt? ==> r == Ok(v.i)
    ensures r.Ok? <==> v.JInt? || v.JBool?
  {
    match v
    case JInt(i) => Ok(i)
    case JBool(b) => Ok(if b then 1 else 0)
    case _ => Err(Uncaught("TypeError"))
  }

  /** The number at `v[key]`. */
  function NumberAt(v: Json, key: string): Result<int, Failure> {
    match Index(v, key)
    case Err(e) => Err(e)
    case Ok(x) => Number(x)
  }

  const RequiredFields := ["version", "lists"]

  /** The list entries named in `names`, checked in that order. */
  function ListsCheck(lists: map<string, Json>, names: seq<string>): (r: Result<(), Failure>)
    ensures r.Ok? <==> forall i :: 0 <= i < |names| && names[i] in lists ==>
                         lists[names[i]].JObj? && "id" in lists[names[i]].fields
  {
    if names == [] then Ok(())
    else
      var name := names[0];
      var rest := ListsCheck(lists, names[1..]);
      assert forall i :: 1 <= i < |names| ==> names[i] == names[1..][i - 1];
      if name !in lists then rest
      else if !lists[name].JObj? then Err(ConfigFailure(ConfigInvalidValue, "List '" + name + "' must be an object"))
      else if "id" !in lists[name].fields then
        Err(ConfigFailure(ConfigMissingRequiredField, "List '" + name + "' missing required field 'id'"))
      else rest
  }

  /** `_validate_required_fields`; `listOrder` is the order of the keys of
      `lists` in the file. */
  function RequiredFieldsSpec(config: map<string, Json>, listOrder: seq<string>): Result<(), Failure> {
    if "version" !in config then Err(ConfigFailure(ConfigMissingRequiredField, "Required field 'version' missing"))
    else if "lists" !in config then Err(ConfigFailure(ConfigMissingRequiredField, "Required field 'lists' missing"))
    else if !config["lists"].JObj? then Err(ConfigFailure(ConfigInvalidValue, "Field 'lists' must be an object"))
    else ListsCheck(config["lists"].fields, listOrder)
  }

  method ValidateRequiredFields(config: map<string, Json>, listOrder: seq<string>) returns (r: Result<(), Failure>)
    ensures r == RequiredFieldsSpec(config, listOrder)
  {
    for i := 0 to |RequiredFields|
      invariant forall j :: 0 <= j < i ==> RequiredFields[j] in config
    {
      var field := RequiredFields[i];
      assert field == if i == 0 then "version" else "lists";
      if field !in config {
        assert i == 1 ==> "version" in config by {
          assert RequiredFields[0] == "version";
        }
        assert "Required field '" + field + "' missing"
            == if i == 0 then "Required field 'version' missing" else "Required field 'lists' missing";
        return Err(ConfigFailure(ConfigMissingRequiredField, "Required field '" + field + "' missing"));
      }
    }
    assert RequiredFields[0] in config && RequiredFields[1] in config;
    if !config["lists"].JObj? {
      return Err(ConfigFailure(ConfigInvalidValue, "Field 'lists' must be an object"));
    }
    var lists := config["lists"].fields;
    var n := 0;
    while n < |listOrder|
      invariant 0 <= n <= |listOrder|
      invariant ListsCheck(lists, listOrder) == ListsCheck(lists, listOrder[n..])
    {
      assert listOrder[n..][1..] == listOrder[n + 1..];
      var name := listOrder[n];
      if name in lists {
        if !lists[name].JObj? {
          return Err(ConfigFailure(ConfigInvalidValue, "List '" + name + "' must be an object"));
        }
        if "id" !in lists[name].fields {
          return Err(ConfigFailure(ConfigMissingRequiredField, "List '" + name + "' missing required field 'id'"));
        }
      }
      n := n + 1;
    }
    return Ok(());
  }

  const ThresholdFields := ["long_tweet_chars", "long_quote_chars", "long_combined_chars", "thread_min_tweets"]

  /** The threshold checks from position `i` on. */
  function ThresholdsCheck(presummary: Json, i: nat): Result<(), Failure>
    requires i <= |ThresholdFields|
    decreases |ThresholdFields| - i
  {
    if i == |ThresholdFields| then Ok(())
    else
      match NumberAt(presummary, ThresholdFields[i])
      case Err(e) => Err(e)
      case Ok(n) =>
        if n <= 0 then Err(ConfigFailure(ConfigInvalidValue, "pre_summarization." + ThresholdFields[i] + " must be positive"))
        else ThresholdsCheck(presummary, i + 1)
  }

  /** The token limits: both positive (the output limit is compared only when the
      input limit passes), and the input limit at most a million. */
  function TokenLimitsCheck(limits: Json): Result<(), Failure> {
    match Index(limits, "max_input_tokens")
    case Err(e) => Err(e)
    case Ok(maxIn) =>
      match Index(limits, "max_output_tokens")
      case Err(e) => Err(e)
      case Ok(maxOut) =>
        match Number(maxIn)
        case Err(e) => Err(e)
        case Ok(i) =>
          if i <= 0 then Err(ConfigFailure(ConfigInvalidValue, "Token limits must be positive integers"))
          else match Number(maxOut)
            case Err(e) => Err(e)
            case Ok(o) =>
              if o <= 0 then Err(ConfigFailure(ConfigInvalidValue, "Token limits must be positive integers"))
              else if i > 1000000 then Err(ConfigFailure(ConfigInvalidValue, "max_input_tokens cannot exceed 1,000,000"))
              else Ok(())
  }

  /** `_validate_config_values` as a value. */
  function ValuesSpec(config: map<string, Json>): Result<(), Failure> {
    match Index(JObj(config), "defaults")
    case Err(e) => Err(e)
    case Ok(defaults) =>
      match Index(defaults, "token_limits")
      case Err(e) => Err(e)
      case Ok(limits) =>
        match TokenLimitsCheck(limits)
        case Err(e) => Err(e)
        case Ok(_) =>
          match Index(defaults, "pre_summarization")
          case Err(e) => Err(e)
          case Ok(presummary) =>
            match ThresholdsCheck(presummary, 0)
            case Err(e) => Err(e)
            case Ok(_) =>
              match Index(JObj(config), "retry")
              case Err(e) => Err(e)
              case Ok(retry) =>
                match NumberAt(retry, "max_attempts")
                case Err(e) => Err(e)
                case Ok(n) =>
                  if n <= 0 then Err(ConfigFailure(ConfigInvalidValue, "retry.max_attempts must be positive"))
                  else Ok(())
  }

  /** `_validate_config_values`: token limits, then the four thresholds in order,
      then the retry count. */
  method ValidateConfigValues(config: map<string, Json>) returns (r: Result<(), Failure>)
    ensures r == ValuesSpec(config)
  {
    var defaults := Index(JObj(config), "defaults");
    if defaults.Err? { return Err(defaults.error); }
    var limits := Index(defaults.value, "token_limits");
    if limits.Err? { return Err(limits.error); }
    var tokens := TokenLimitsCheck(limits.value);
    if tokens.Err? { return Err(tokens.error); }
    var presummary := Index(defaults.value, "pre_summarization");
    if presummary.Err? { return Err(presummary.error); }
    for i := 0 to |ThresholdFields|
      invariant ThresholdsCheck(presummary.value, 0) == ThresholdsCheck(presummary.value, i)
    {
      var n := NumberAt(presummary.value, ThresholdFields[i]);
      if n.Err? { return Err(n.error); }
      if n.value <= 0 {
        return Err(ConfigFailure(ConfigInvalidValue, "pre_summarization." + ThresholdFields[i] + " must be positive"));
      }
    }
    var retry := Index(JObj(config), "retry");
    if retry.Err? { return Err(retry.error); }
    var attempts := NumberAt(retry.value, "max_attempts");
    if attempts.Err? { return Err(attempts.error); }
    if attempts.value <= 0 {
      return Err(ConfigFailure(ConfigInvalidValue, "retry.max_attempts must be positive"));
    }
    return Ok(());
  }

  /** The integer at a two-level path, when every step is a dictionary holding
      an integer. */
  predicate IntAt(config: map<string, Json>, section: string, key: string, n: int) {
    section in config && config[section].JObj? && key in config[section].fields
    && config[section].fields[key] == JInt(n)
  }

  predicate ThresholdAt(config: map<string, Json>, key: string, n: int) {
    "defaults" in config && config["defaults"].JObj?
    && "pre_summarization" in config["defaults"].fields
    && config["defaults"].fields["pre_summarization"].JObj?
    && key in config["defaults"].fields["pre_summarization"].fields
    && config["defaults"].fields["pre_summarization"].fields[key] == JInt(n)
  }

  predicate TokenLimitAt(config: map<string, Json>, key: string, n: int) {
    "defaults" in config && config["defaults"].JObj?
    && "token_limits" in config["defaults"].fields
    && config["defaults"].fields["token_limits"].JObj?
    && key in config["defaults"].fields["token_limits"].fields
    && config["defaults"].fields["token_limits"].fields[key] == JInt(n)
  }

  /** On well-typed values, the checks pass exactly when both token limits are
      positive, the input limit is at most a million, the four thresholds are
      positive and so is the retry count; a failing check is `CONFIG_INVALID_VALUE`. */
  lemma ValuesAcceptedIff(config: map<string, Json>, maxIn: int, maxOut: int, t1: int, t2: int, t3: int, t4: int, attempts: int)
    requires TokenLimitAt(config, "max_input_tokens", maxIn) && TokenLimitAt(config, "max_output_tokens", maxOut)
    requires ThresholdAt(config, "long_tweet_chars", t1) && ThresholdAt(config, "long_quote_chars", t2)
    requires ThresholdAt(config, "long_combined_chars", t3) && ThresholdAt(config, "thread_min_tweets", t4)
    requires IntAt(config, "retry", "max_attempts", attempts)
    ensures ValuesSpec(config).Ok? <==>
      0 < maxIn <= 1000000 && 0 < maxOut && 0 < t1 && 0 < t2 && 0 < t3 && 0 < t4 && 0 < attempts
    ensures ValuesSpec(config).Err? ==>
      ValuesSpec(config).error.Raised? && ValuesSpec(config).error.error.code == ConfigInvalidValue
  {
    var ps := config["defaults"].fields["pre_summarization"];
    assert ThresholdsCheck(ps, 4) == Ok(());
    assert ThresholdsCheck(ps, 3).Ok? <==> 0 < t4;
    assert ThresholdsCheck(ps, 2).Ok? <==> 0 < t3 && 0 < t4;
    assert ThresholdsCheck(ps, 1).Ok? <==> 0 < t2 && 0 < t3 && 0 < t4;
    assert ThresholdsCheck(ps, 0).Ok? <==> 0 < t1 && 0 < t2 && 0 < t3 && 0 < t4;
    assert ThresholdsCheck(ps, 0).Err? ==> ThresholdsCheck(ps, 0).error.error.code == ConfigInvalidValue;
  }

  // ---------------------------------------------------------------------------
  // Loading

  /** The keys of `lists`, in the order the file gives them. */
  predicate ListOrderOf(raw: Json, listOrder: seq<string>) {
    raw.JObj? && "lists" in raw.fields && raw.fields["lists"].JObj? ==>
      (forall k :: k in raw.fields["lists"].fields ==> k in listOrder)
      && (forall i :: 0 <= i < |listOrder| ==> listOrder[i] in raw.fields["lists"].fields)
  }

  /** The version test `!= 1`: `True` equals 1 in Python. */
  predicate VersionMatches(v: Json) {
    v == JInt(ExpectedConfigVersion) || v == JBool(true)
  }

  /** `load_config` after `json.load`. */
  function LoadConfigSpec(raw: Json, listOrder: seq<string>): Result<map<string, Json>, Failure> {
    if !raw.JObj? then Err(Uncaught("AttributeError"))
    else
      var version := GetOrNull(raw.fields, "version");
      if !VersionMatches(version) then
        Err(ConfigFailure(ConfigVersionMismatch, "Expected version 1, got " + Render(version)))
      else match RequiredFieldsSpec(raw.fields, listOrder)
        case Err(e) => Err(e)
        case Ok(_) =>
          var config := DeepMerge(DefaultConfig, raw.fields);
          match ValuesSpec(config)
          case Err(e) => Err(e)
          case Ok(_) => Ok(config)
  }

  /** `load_config` on the decoded file: version, required fields, merge with
      the defaults, value checks. Reading and decoding the file are not part of it. */
  method LoadConfig(raw: Json, listOrder: seq<string>) returns (r: Result<map<string, Json>, Failure>)
    requires ListOrderOf(raw, listOrder)
    ensures r == LoadConfigSpec(raw, listOrder)
  {
    if !raw.JObj? {
      return Err(Uncaught("AttributeError"));
    }
    var version := GetOrNull(raw.fields, "version");
    if !VersionMatches(version) {
      return Err(ConfigFailure(ConfigVersionMismatch, "Expected version 1, got " + Render(version)));
    }
    var required := ValidateRequiredFields(raw.fields, listOrder);
    if required.Err? {
      return Err(required.error);
    }
    var config := MergeDefaults(raw.fields);
    var values := ValidateConfigValues(config);
    if values.Err? {
      return Err(values.error);
    }
    return Ok(config);
  }

  /** The version is checked first: a file without `version` is a version
      mismatch, whatever else it lacks. */
  lemma VersionCheckedFirst(raw: map<string, Json>, listOrder: seq<string>)
    requires !VersionMatches(GetOrNull(raw, "version"))
    ensures var r := LoadConfigSpec(JObj(raw), listOrder);
      r.Err? && r.error.Raised? && r.error.error.code == ConfigVersionMismatch
  {
  }

  /** Required fields: without `lists`, or with `lists` not a dictionary, or
      with an entry that is not a dictionary with an `id`, loading fails with
      the corresponding code; a file passing those checks reaches the merge. */
  lemma RequiredFieldsDecide(raw: map<string, Json>, listOrder: seq<string>)
    requires VersionMatches(GetOrNull(raw, "version"))
    requires ListOrderOf(JObj(raw), listOrder)
    ensures "lists" !in raw ==>
      (LoadConfigSpec(JObj(raw), listOrder)
       == Err(ConfigFailure(ConfigMissingRequiredField, "Required field 'lists' missing")))
    ensures "lists" in raw && !raw["lists"].JObj? ==>
      (LoadConfigSpec(JObj(raw), listOrder)
       == Err(ConfigFailure(ConfigInvalidValue, "Field 'lists' must be an object")))
    ensures "lists" in raw && raw["lists"].JObj? ==>
      (RequiredFieldsSpec(raw, listOrder).Ok? <==>
       forall k :: k in raw["lists"].fields ==> raw["lists"].fields[k].JObj? && "id" in raw["lists"].fields[k].fields)
  {
    if "lists" in raw && raw["lists"].JObj? {
      var lists := raw["lists"].fields;
      assert ListsCheck(lists, listOrder).Ok? <==> forall i :: 0 <= i < |listOrder| && listOrder[i] in lists ==>
                         lists[listOrder[i]].JObj? && "id" in lists[listOrder[i]].fields;
      forall k | k in lists
        ensures exists i :: 0 <= i < |listOrder| && listOrder[i] == k
      {
        assert k in listOrder;
      }
    }
  }

  /** A loaded configuration carries the default for every top-level key the
      file omits, and within `defaults` for every key of the defaults' own
      `defaults` the file's `defaults` dictionary omits; it passes the value
      checks. */
  lemma LoadedCarriesDefaults(raw: map<string, Json>, listOrder: seq<string>)
    requires LoadConfigSpec(JObj(raw), listOrder).Ok?
    ensures var c := LoadConfigSpec(JObj(raw), listOrder).value;
      && (forall k :: k in DefaultConfig && k !in raw ==> k in c && c[k] == DefaultConfig[k])
      && (forall k :: k in raw && !(k in DefaultConfig && DefaultConfig[k].JObj? && raw[k].JObj?) ==> c[k] == raw[k])
      && ("defaults" in raw && raw["defaults"].JObj? ==>
            forall k :: k in DefaultDefaults && k !in raw["defaults"].fields ==>
              c["defaults"].JObj? && k in c["defaults"].fields && c["defaults"].fields[k] == DefaultDefaults[k])
      && ValuesSpec(c).Ok?
  {
    var c := LoadConfigSpec(JObj(raw), listOrder).value;
    LoadedIsMerge(raw, listOrder);
    DeepMergeRules(DefaultConfig, raw);
    if "defaults" in raw && raw["defaults"].JObj? {
      assert c["defaults"] == JObj(DeepMerge(DefaultDefaults, raw["defaults"].fields));
      DeepMergeRules(DefaultDefaults, raw["defaults"].fields);
    }
  }

  lemma LoadedIsMerge(raw: map<string, Json>, listOrder: seq<string>)
    requires LoadConfigSpec(JObj(raw), listOrder).Ok?
    ensures LoadConfigSpec(JObj(raw), listOrder).value == DeepMerge(DefaultConfig, raw)
    ensures ValuesSpec(DeepMerge(DefaultConfig, raw)).Ok?
  {
  }

  // ---------------------------------------------------------------------------
  // Per-list view

  /** `d.setdefault(key, value)` on a dictionary. */
  function SetDefault(d: map<string, Json>, key: string, value: Json): (r: map<string, Json>)
    ensures key in d ==> r == d
    ensures key !in d ==> r == d[key := value]
  {
    if key in d then d else d[key := value]
  }

  /** `get_list_config`. */
  function GetListConfig(config: map<string, Json>, listName: string): (r: Result<map<string, Json>, Failure>)
    ensures "lists" in config && config["lists"].JObj? && listName !in config["lists"].fields ==>
      r == Err(ConfigFailure(ConfigInvalidValue, "List '" + listName + "' not found in configuration"))
  {
    match Index(JObj(config), "lists")
    case Err(e) => Err(e)
    case Ok(lists) =>
      match PyIn(lists, listName)
      case Err(e) => Err(e)
      case Ok(false) => Err(ConfigFailure(ConfigInvalidValue, "List '" + listName + "' not found in configuration"))
      case Ok(true) =>
        match Index(lists, listName)
        case Err(e) => Err(e)
        case Ok(entry) =>
          // only a dictionary or a list has `.copy()`; only a dictionary has `.setdefault`
          if !(entry.JObj? || entry.JArr?) then Err(Uncaught("AttributeError"))
          else match Index(JObj(config), "defaults")
            case Err(e) => Err(e)
            case Ok(defaults) =>
              if !entry.JObj? then Err(Uncaught("AttributeError"))
              else match Index(defaults, "timezone")
              case Err(e) => Err(e)
              case Ok(timezone) =>
                var d := SetDefault(entry.fields, "display_name", JStr(Title(listName)));
                var d := SetDefault(d, "emoji", JStr("\U{1F4CB}"));
                var d := SetDefault(d, "enabled", JBool(true));
                Ok(SetDefault(d, "timezone", timezone))
  }

  /** A known list whose entry is not a dictionary fails: at `.copy()` unless it is a
      list, and a list copies, then fails at the `defaults` lookup or at `.setdefault`. */
  lemma NonDictEntryFails(config: map<string, Json>, listName: string)
    requires "lists" in config && config["lists"].JObj? && listName in config["lists"].fields
    requires !config["lists"].fields[listName].JObj?
    ensures var entry := config["lists"].fields[listName];
      var r := GetListConfig(config, listName);
      && (!entry.JArr? ==> r == Err(Uncaught("AttributeError")))
      && (entry.JArr? && "defaults" !in config ==> r == Err(Uncaught("KeyError")))
      && (entry.JArr? && "defaults" in config ==> r == Err(Uncaught("AttributeError")))
  {
  }

  /** A list-valued entry without a `defaults` section is a KeyError, not an
      AttributeError, since a list has `.copy()`. */
  lemma ListEntryWithoutDefaults()
    ensures GetListConfig(map["lists" := JObj(map["a" := JArr([])])], "a") == Err(Uncaught("KeyError"))
    ensures GetListConfig(map["lists" := JObj(map["a" := JStr("x")])], "a") == Err(Uncaught("AttributeError"))
  {
  }

  /** For a known list, the view keeps every key the entry has and adds exactly
      `display_name`, `emoji`, `enabled` and `timezone` where missing, with the
      title-cased list name, the clipboard emoji, true, and the default time zone. */
  lemma ListConfigFills(config: map<string, Json>, listName: string)
    requires "lists" in config && config["lists"].JObj? && listName in config["lists"].fields
    requires config["lists"].fields[listName].JObj?
    requires "defaults" in config && config["defaults"].JObj? && "timezone" in config["defaults"].fields
    ensures var entry := config["lists"].fields[listName].fields;
      var r := GetListConfig(config, listName);
      && r.Ok?
      && r.value.Keys == entry.Keys + {"display_name", "emoji", "enabled", "timezone"}
      && (forall k :: k in entry ==> r.value[k] == entry[k])
      && ("display_name" !in entry ==> r.value["display_name"] == JStr(Title(listName)))
      && ("emoji" !in entry ==> r.value["emoji"] == JStr("\U{1F4CB}"))
      && ("enabled" !in entry ==> r.value["enabled"] == JBool(true))
      && ("timezone" !in entry ==> r.value["timezone"] == config["defaults"].fields["timezone"])
  {
  }
}
