/** The in-memory side of the status file: the idempotency window, the fetch
    window, applying one list's update to the decoded document, and repairing
    a decoded document's structure. Reading, locking and writing the file are
    not modelled; "now" is a parameter, as an instant in seconds and as the
    ISO text written into the document, and `fromisoformat` is a parameter
    from text to a parsed timestamp. */
module Status {
  import opened Wrappers
  import opened Text
  import opened Json
  import opened Errors
  import opened Utils

  /** `timedelta(hours=24)` in seconds. */
  const DayInSeconds: int := 86400

  /** `_create_default_list_entry`. */
  const DefaultListEntry: map<string, Json> := map[
    "last_run" := JNull,
    "last_success" := JNull,
    "error_code" := JNull,
    "tweets_fetched" := JInt(0),
    "tweets_processed" := JInt(0),
    "digest_sent" := JBool(false),
    "run_count" := JInt(0)]

  /** `_create_default_status`, stamped with `now`. */
  function DefaultStatus(now: string): map<string, Json> {
    map["lists" := JObj(map[]), "cookie_status" := JStr("unknown"),
        "created_at" := JStr(now), "last_updated" := JStr(now)]
  }

  // ---------------------------------------------------------------------------
  // Reading timestamps

  /** What `fromisoformat` returns: the instant in seconds, and whether the text
      carried a UTC offset. A timestamp without one is a naive `datetime`, which
      cannot be subtracted from the aware `datetime.now(UTC)`. */
  datatype Stamp = Stamp(instant: int, hasOffset: bool)

  /** The stored timestamp under `field` of the list's entry, as the two
      readers see it: no entry or a falsy value is `Ok(None)`; a value that is
      not a string, or a string `fromisoformat` rejects after `Z` became
      `+00:00`, is unparsable (`Ok(Some(None))`); `.get` on an entry that is
      not a dictionary raises. */
  function StoredInstant(status: map<string, Json>, listName: string, field: string,
                         fromIso: string -> Option<Stamp>): (r: Result<Option<Option<Stamp>>, Failure>)
    ensures "lists" !in status ==> r == Ok(None)
    ensures "lists" in status && status["lists"].JObj? && listName !in status["lists"].fields ==> r == Ok(None)
  {
    if "lists" !in status then Ok(None)
    else match PyIn(status["lists"], listName)
      case Err(e) => Err(e)
      case Ok(false) => Ok(None)
      case Ok(true) =>
        match Index(status["lists"], listName)
        case Err(e) => Err(e)
        case Ok(entry) =>
          if !entry.JObj? then Err(Uncaught("AttributeError"))
          else
            var value := GetOrNull(entry.fields, field);
            if !Truthy(value) then Ok(None)
            else if !value.JStr? then Ok(Some(None))
            else Ok(Some(fromIso(Replace(value.s, "Z", "+00:00"))))
  }

  /** `should_run`: run unless the last run parses and lies within the window.
      A last run without a UTC offset makes the subtraction raise `TypeError`,
      which the handler does not catch. */
  function ShouldRun(listName: string, status: map<string, Json>, windowMinutes: int, now: int,
                     fromIso: string -> Option<Stamp>): (r: Result<bool, Failure>)
    ensures "lists" !in status ==> r == Ok(true)
    ensures r == Ok(false) ==> exists t :: StoredInstant(status, listName, "last_run", fromIso) == Ok(Some(Some(Stamp(t, true))))
                                           && now - t <= windowMinutes * 60
    ensures (exists t :: StoredInstant(status, listName, "last_run", fromIso) == Ok(Some(Some(Stamp(t, false)))))
            ==> r == Err(Uncaught("TypeError"))
  {
    match StoredInstant(status, listName, "last_run", fromIso)
    case Err(e) => Err(e)
    case Ok(None) => Ok(true)
    case Ok(Some(None)) => Ok(true)
    case Ok(Some(Some(Stamp(t, aware)))) =>
      if aware then Ok(now - t > windowMinutes * 60) else Err(Uncaught("TypeError"))
  }

  /** A list with a well-formed entry whose `last_run` parses with an offset
      runs exactly when strictly more than the window has elapsed; one that
      parses without an offset raises; an entry without `last_run`, or with one
      that does not parse, always runs. */
  lemma ShouldRunDecides(listName: string, status: map<string, Json>, windowMinutes: int, now: int,
                         fromIso: string -> Option<Stamp>)
    requires "lists" in status && status["lists"].JObj? && listName in status["lists"].fields
    requires status["lists"].fields[listName].JObj?
    ensures var entry := status["lists"].fields[listName].fields;
      && (!Truthy(GetOrNull(entry, "last_run")) ==> ShouldRun(listName, status, windowMinutes, now, fromIso) == Ok(true))
      && (forall s :: GetOrNull(entry, "last_run") == JStr(s) && s != [] ==>
            match fromIso(Replace(s, "Z", "+00:00"))
            case None => ShouldRun(listName, status, windowMinutes, now, fromIso) == Ok(true)
            case Some(Stamp(t, true)) => ShouldRun(listName, status, windowMinutes, now, fromIso) == Ok(now - t > windowMinutes * 60)
            case Some(Stamp(_, false)) => ShouldRun(listName, status, windowMinutes, now, fromIso) == Err(Uncaught("TypeError")))
  {
  }

  /** `get_time_window`: the window ends now and starts at the last success
      when one is stored and parses, else 24 hours earlier. The start is
      returned as parsed, with or without an offset. */
  function GetTimeWindow(listName: string, status: map<string, Json>, now: int,
                         fromIso: string -> Option<Stamp>): (r: Result<(Stamp, int), Failure>)
    ensures r.Ok? ==> r.value.1 == now
    ensures r.Ok? ==> r.value.0 == Stamp(now - DayInSeconds, true)
                      || StoredInstant(status, listName, "last_success", fromIso) == Ok(Some(Some(r.value.0)))
    ensures StoredInstant(status, listName, "last_success", fromIso).Ok? <==> r.Ok?
  {
    match StoredInstant(status, listName, "last_success", fromIso)
    case Err(e) => Err(e)
    case Ok(Some(Some(t))) => Ok((t, now))
    case Ok(_) => Ok((Stamp(now - DayInSeconds, true), now))
  }

  /** The start is the parsed last success exactly when it parses; without
      an entry, a last success or a parsable one, it is 24 hours back. */
  lemma TimeWindowStart(listName: string, status: map<string, Json>, now: int, fromIso: string -> Option<Stamp>)
    ensures "lists" !in status ==> GetTimeWindow(listName, status, now, fromIso) == Ok((Stamp(now - DayInSeconds, true), now))
    ensures forall t :: StoredInstant(status, listName, "last_success", fromIso) == Ok(Some(Some(t))) ==>
      GetTimeWindow(listName, status, now, fromIso) == Ok((t, now))
    ensures StoredInstant(status, listName, "last_success", fromIso) in {Ok(None), Ok(Some(None))} ==>
      GetTimeWindow(listName, status, now, fromIso) == Ok((Stamp(now - DayInSeconds, true), now))
  {
  }

  // ---------------------------------------------------------------------------
  // Updating one list

  /** What `f.read().strip()` and `json.loads` make of the stored file. */
  datatype StoredContent = Blank | Undecodable | Decoded(value: Json)

  /** The document the update starts from: empty or undecodable content
      starts afresh from the default status. */
  function Initial(content: StoredContent, now: string): (r: Json)
    ensures !content.Decoded? ==> r == JObj(DefaultStatus(now))
    ensures content.Decoded? ==> r == content.value
  {
    match content
    case Decoded(v) => v
    case _ => JObj(DefaultStatus(now))
  }

  /** The update from the lines of `update_status` between loading and writing. */
  function UpdateSpec(status: Json, listName: string, updates: map<string, Json>, now: string)
    : Result<map<string, Json>, Failure>
  {
    if !status.JObj? then Err(Uncaught("TypeError"))
    else
      var s := if "lists" in status.fields then status.fields else status.fields["lists" := JObj(map[])];
      var lists := s["lists"];
      match PyIn(lists, listName)
      case Err(e) => Err(e)
      case Ok(present) =>
        if !present && !lists.JObj? then Err(Uncaught("TypeError"))
        else
          var s' := if present then s else s["lists" := JObj(lists.fields[listName := JObj(DefaultListEntry)])];
          if updates == map[] then Ok(s'["last_updated" := JStr(now)])
          else if !s'["lists"].JObj? || !s'["lists"].fields[listName].JObj? then Err(Uncaught("TypeError"))
          else
            var entry := s'["lists"].fields[listName].fields + updates;
            Ok(s'["lists" := JObj(s'["lists"].fields[listName := JObj(entry)])]["last_updated" := JStr(now)])
  }

  /** The entry after writing the keys of `updates` in `done`. */
  function WrittenSoFar(entry: map<string, Json>, updates: map<string, Json>, done: set<string>): map<string, Json>
    requires done <= updates.Keys
  {
    entry + map k | k in done :: updates[k]
  }

  /** `for key, value in kwargs.items(): entry[key] = value`. */
  method WriteFields(entry: map<string, Json>, updates: map<string, Json>) returns (r: map<string, Json>)
    ensures r == entry + updates
  {
    r := entry;
    var todo := updates.Keys;
    while todo != {}
      invariant todo <= updates.Keys
      invariant r == WrittenSoFar(entry, updates, updates.Keys - todo)
    {
      var key :| key in todo;
      assert WrittenSoFar(entry, updates, updates.Keys - todo + {key})
          == WrittenSoFar(entry, updates, updates.Keys - todo)[key := updates[key]];
      r := r[key := updates[key]];
      assert updates.Keys - todo + {key} == updates.Keys - (todo - {key});
      todo := todo - {key};
    }
    assert (map k | k in updates.Keys :: updates[k]) == updates;
  }

  /** `update_status` between reading the file and writing it back. */
  method UpdateInMemory(content: StoredContent, listName: string, updates: map<string, Json>, now: string)
    returns (r: Result<map<string, Json>, Failure>)
    ensures r == UpdateSpec(Initial(content, now), listName, updates, now)
  {
    var status := Initial(content, now);
    if !status.JObj? {
      return Err(Uncaught("TypeError"));
    }
    var s := status.fields;
    if "lists" !in s {
      s := s["lists" := JObj(map[])];
    }
    var present := PyIn(s["lists"], listName);
    if present.Err? {
      return Err(present.error);
    }
    if !present.value {
      if !s["lists"].JObj? {
        return Err(Uncaught("TypeError"));
      }
      s := s["lists" := JObj(s["lists"].fields[listName := JObj(DefaultListEntry)])];
    }
    if updates != map[] {
      if !s["lists"].JObj? || !s["lists"].fields[listName].JObj? {
        return Err(Uncaught("TypeError"));
      }
      var entry := WriteFields(s["lists"].fields[listName].fields, updates);
      s := s["lists" := JObj(s["lists"].fields[listName := JObj(entry)])];
    }
    s := s["last_updated" := JStr(now)];
    return Ok(s);
  }

  /** An update stamps `last_updated`, keeps every other top-level field,
      leaves the other lists alone, writes the given keys into the list's
      entry and keeps the entry's other fields; a list without an entry
      starts from the default entry. */
  lemma UpdatePreserves(status: map<string, Json>, listName: string, updates: map<string, Json>, now: string)
    requires UpdateSpec(JObj(status), listName, updates, now).Ok?
    requires "lists" in status ==> status["lists"].JObj?
    ensures var r := UpdateSpec(JObj(status), listName, updates, now).value;
      var before := if "lists" in status then status["lists"].fields else map[];
      var entry := if listName in before then before[listName] else JObj(DefaultListEntry);
      && r["last_updated"] == JStr(now)
      && (forall k :: k in status && k != "lists" && k != "last_updated" ==> k in r && r[k] == status[k])
      && r["lists"].JObj? && r["lists"].fields.Keys == before.Keys + {listName}
      && (forall n :: n in before && n != listName ==> r["lists"].fields[n] == before[n])
      && (updates == map[] ==> r["lists"].fields[listName] == entry)
      && (updates != map[] ==>
            entry.JObj? && r["lists"].fields[listName].JObj?
            && (forall k :: k in updates ==> r["lists"].fields[listName].fields[k] == updates[k])
            && (forall k :: k in entry.fields && k !in updates ==> r["lists"].fields[listName].fields[k] == entry.fields[k])
            && r["lists"].fields[listName].fields.Keys == entry.fields.Keys + updates.Keys)
  {
  }

  /** Empty or undecodable stored content is replaced by the default status
      before the update, so the list ends up alone, with the default entry
      overwritten by the update, and the creation stamp is now. */
  lemma FreshStartOnBadContent(content: StoredContent, listName: string, updates: map<string, Json>, now: string)
    requires !content.Decoded?
    ensures UpdateSpec(Initial(content, now), listName, updates, now)
         == Ok(map["lists" := JObj(map[listName := JObj(DefaultListEntry + updates)]),
                   "cookie_status" := JStr("unknown"), "created_at" := JStr(now), "last_updated" := JStr(now)])
  {
    var s := DefaultStatus(now)["lists" := JObj(map[listName := JObj(DefaultListEntry)])];
    if updates == map[] {
      assert DefaultListEntry + updates == DefaultListEntry;
      assert s["last_updated" := JStr(now)]
          == map["lists" := JObj(map[listName := JObj(DefaultListEntry)]),
                 "cookie_status" := JStr("unknown"), "created_at" := JStr(now), "last_updated" := JStr(now)];
    } else {
      var entry := JObj(DefaultListEntry + updates);
      assert s["lists"].fields[listName := entry] == map[listName := entry];
      assert s["lists" := JObj(map[listName := entry])]["last_updated" := JStr(now)]
          == map["lists" := JObj(map[listName := entry]),
                 "cookie_status" := JStr("unknown"), "created_at" := JStr(now), "last_updated" := JStr(now)];
    }
  }

  /** An update of a document whose `lists` is a dictionary of dictionaries
      always succeeds. */
  lemma UpdateSucceedsOnWellFormed(status: map<string, Json>, listName: string, updates: map<string, Json>, now: string)
    requires "lists" in status ==> status["lists"].JObj?
    requires "lists" in status && listName in status["lists"].fields ==> status["lists"].fields[listName].JObj?
    ensures UpdateSpec(JObj(status), listName, updates, now).Ok?
  {
  }

  // ---------------------------------------------------------------------------
  // Repairing the structure

  /** The entry after filling the keys of `defaults` in `done` that it lacks. */
  function FilledSoFar(defaults: map<string, Json>, entry: map<string, Json>, done: set<string>): map<string, Json>
    requires done <= defaults.Keys
  {
    (map k | k in done && k !in entry :: defaults[k]) + entry
  }

  lemma FilledSoFarStep(defaults: map<string, Json>, entry: map<string, Json>, done: set<string>, key: string)
    requires done <= defaults.Keys && key in defaults && key !in done
    ensures key in FilledSoFar(defaults, entry, done) <==> key in entry
    ensures key in entry ==> FilledSoFar(defaults, entry, done + {key}) == FilledSoFar(defaults, entry, done)
    ensures key !in entry ==> FilledSoFar(defaults, entry, done + {key})
                              == FilledSoFar(defaults, entry, done)[key := defaults[key]]
  {
  }

  lemma FilledSoFarEnds(defaults: map<string, Json>, entry: map<string, Json>)
    ensures FilledSoFar(defaults, entry, {}) == entry
    ensures FilledSoFar(defaults, entry, defaults.Keys) == defaults + entry
  {
  }

  /** The inner loop of `_validate_status_structure`: every key of `defaults`
      the entry lacks gets its default value. */
  method FillEntry(defaults: map<string, Json>, entry: map<string, Json>) returns (r: map<string, Json>)
    ensures r == defaults + entry
  {
    r := entry;
    var todo := defaults.Keys;
    FilledSoFarEnds(defaults, entry);
    while todo != {}
      invariant todo <= defaults.Keys
      invariant r == FilledSoFar(defaults, entry, defaults.Keys - todo)
    {
      var key :| key in todo;
      FilledSoFarStep(defaults, entry, defaults.Keys - todo, key);
      if key !in r {
        r := r[key := defaults[key]];
      }
      assert defaults.Keys - todo + {key} == defaults.Keys - (todo - {key});
      todo := todo - {key};
    }
  }

  /** One list entry after repair. */
  function RepairedEntry(v: Json): Json {
    if v.JObj? then JObj(DefaultListEntry + v.fields) else JObj(DefaultListEntry)
  }

  /** The top-level fields after the three presence checks. */
  function RepairedTop(status: map<string, Json>, now: string): map<string, Json> {
    var s1 := if "lists" !in status || !status["lists"].JObj? then status["lists" := JObj(map[])] else status;
    var s2 := if "cookie_status" !in s1 then s1["cookie_status" := JStr("unknown")] else s1;
    if "last_updated" !in s2 then s2["last_updated" := JStr(now)] else s2
  }

  /** `_validate_status_structure` as a value. */
  function ValidateSpec(status: Json, now: string): map<string, Json> {
    if !status.JObj? then DefaultStatus(now)
    else
      var top := RepairedTop(status.fields, now);
      assert top["lists"].JObj?;
      var lists := top["lists"].fields;
      top["lists" := JObj(map n | n in lists :: RepairedEntry(lists[n]))]
  }

  /** The entries after the outer loop has visited the names in `done`. */
  function RepairedSoFar(lists: map<string, Json>, done: set<string>): map<string, Json>
    requires done <= lists.Keys
  {
    map n | n in lists :: if n in done then RepairedEntry(lists[n]) else lists[n]
  }

  lemma RepairedSoFarStep(lists: map<string, Json>, done: set<string>, name: string)
    requires done <= lists.Keys && name in lists && name !in done
    ensures RepairedSoFar(lists, done + {name}) == RepairedSoFar(lists, done)[name := RepairedEntry(lists[name])]
  {
  }

  lemma RepairedSoFarEnds(lists: map<string, Json>)
    ensures RepairedSoFar(lists, {}) == lists
    ensures RepairedSoFar(lists, lists.Keys) == map n | n in lists :: RepairedEntry(lists[n])
  {
  }

  /** One pass of the outer loop: the entry of `name`. */
  method RepairEntry(entry: Json) returns (r: Json)
    ensures r == RepairedEntry(entry)
  {
    if !entry.JObj? {
      return JObj(DefaultListEntry);
    }
    var filled := FillEntry(DefaultListEntry, entry.fields);
    return JObj(filled);
  }

  /** `_validate_status_structure`: a non-dictionary becomes the default
      status; otherwise `lists` is forced to a dictionary, `cookie_status`
      and `last_updated` are added when missing, and every entry is repaired
      in turn. */
  method ValidateStatusStructure(status: Json, now: string) returns (r: map<string, Json>)
    ensures r == ValidateSpec(status, now)
  {
    if !status.JObj? {
      return DefaultStatus(now);
    }
    r := status.fields;
    if "lists" !in r || !r["lists"].JObj? {
      r := r["lists" := JObj(map[])];
    }
    if "cookie_status" !in r {
      r := r["cookie_status" := JStr("unknown")];
    }
    if "last_updated" !in r {
      r := r["last_updated" := JStr(now)];
    }
    assert r == RepairedTop(status.fields, now);
    var lists := r["lists"].fields;
    var repaired := lists;
    var todo := lists.Keys;
    RepairedSoFarEnds(lists);
    while todo != {}
      invariant todo <= lists.Keys
      invariant repaired == RepairedSoFar(lists, lists.Keys - todo)
    {
      var name :| name in todo;
      RepairedSoFarStep(lists, lists.Keys - todo, name);
      var entry := RepairEntry(lists[name]);
      repaired := repaired[name := entry];
      assert lists.Keys - todo + {name} == lists.Keys - (todo - {name});
      todo := todo - {name};
    }
    assert lists.Keys - todo == lists.Keys;
    assert ValidateSpec(status, now) == r["lists" := JObj(map n | n in lists :: RepairedEntry(lists[n]))];
    r := r["lists" := JObj(repaired)];
  }

  /** After repair `lists` is a dictionary of dictionaries holding every
      default key; a dictionary entry keeps its own values, anything else is
      replaced by the default entry; the names of the lists, the other
      top-level fields and present `cookie_status`/`last_updated` values are
      kept. */
  lemma ValidatedShape(status: map<string, Json>, now: string)
    ensures var r := ValidateSpec(JObj(status), now);
      && "cookie_status" in r && "last_updated" in r
      && ("cookie_status" in status ==> r["cookie_status"] == status["cookie_status"])
      && ("last_updated" in status ==> r["last_updated"] == status["last_updated"])
      && (forall k :: k in status && k != "lists" ==> r[k] == status[k])
      && "lists" in r && r["lists"].JObj?
      && ("lists" in status && status["lists"].JObj? ==> r["lists"].fields.Keys == status["lists"].fields.Keys)
      && ("lists" !in status || !status["lists"].JObj? ==> r["lists"].fields == map[])
      && (forall n :: n in r["lists"].fields ==>
            r["lists"].fields[n].JObj? && DefaultListEntry.Keys <= r["lists"].fields[n].fields.Keys)
      && ("lists" in status && status["lists"].JObj? ==>
            forall n :: n in status["lists"].fields ==>
              var old_ := status["lists"].fields[n];
              if old_.JObj? then forall k :: k in old_.fields ==> r["lists"].fields[n].fields[k] == old_.fields[k]
              else r["lists"].fields[n] == JObj(DefaultListEntry))
  {
  }

  /** A non-dictionary document becomes the default status. */
  lemma ValidatedNonDict(status: Json, now: string)
    requires !status.JObj?
    ensures ValidateSpec(status, now) == DefaultStatus(now)
  {
  }

  lemma UnionAbsorbs(a: map<string, Json>, b: map<string, Json>)
    ensures a + (a + b) == a + b
  {
  }

  /** Repairing a repaired document changes nothing. */
  lemma ValidateIdempotent(status: Json, now: string, later: string)
    ensures ValidateSpec(JObj(ValidateSpec(status, now)), later) == ValidateSpec(status, now)
  {
    var r := ValidateSpec(status, now);
    assert RepairedTop(r, later) == r;
    var lists := r["lists"].fields;
    forall n | n in lists
      ensures RepairedEntry(lists[n]) == lists[n]
    {
      if !status.JObj? {
        assert false;
      }
      var top := RepairedTop(status.fields, now);
      var e := top["lists"].fields[n];
      if e.JObj? {
        UnionAbsorbs(DefaultListEntry, e.fields);
      } else {
        UnionAbsorbs(DefaultListEntry, map[]);
        assert DefaultListEntry + map[] == DefaultListEntry;
      }
    }
    assert (map n | n in lists :: RepairedEntry(lists[n])) == lists;
  }
}
