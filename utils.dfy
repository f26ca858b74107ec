/** The shared helpers: date parsing with its epoch fallback, relative-time
    rendering, text truncation and the tolerant conversions `safe_int` and
    `safe_str`. Instants are integers counting microseconds since the Unix
    epoch in UTC; the calendar parsers themselves are parameters. */
module Utils {
  import opened Wrappers
  import opened Text
  import opened Json
  import opened Errors

  /** A point in time, in microseconds since 1970-01-01T00:00:00Z. */
  type Instant = int

  const Epoch: Instant := 0
  const MicrosPerSecond: int := 1000000

  /** `year == 1970`, read on the UTC clock: the instant lies in the first 365
      days after the epoch. A timestamp parsed with a non-UTC offset has its year
      read in that offset by the code; instants carry no offset here. */
  predicate WithinFirstYearUtc(t: Instant) {
    0 <= t < 365 * 86400 * MicrosPerSecond
  }

  /** `parse_twitter_date`: picks a parser by the shape of the text and falls back
      to the epoch when the chosen parser fails. `twitterFormat` stands for
      `strptime` with the `"%a %b %d %H:%M:%S %Y"` format and `isoFormat` for
      `datetime.fromisoformat`; either returns `None` where Python raises. */
  function ParseTwitterDate(s: string, twitterFormat: string -> Option<Instant>,
                            isoFormat: string -> Option<Instant>): (r: Instant)
    ensures Contains(s, "+0000") ==> r == twitterFormat(Strip(Replace(s, "+0000", ""))).GetOr(Epoch)
    ensures !Contains(s, "+0000") && EndsWith(s, "Z") ==> r == isoFormat(Replace(s, "Z", "+00:00")).GetOr(Epoch)
    ensures !Contains(s, "+0000") && !EndsWith(s, "Z") ==> r == isoFormat(s).GetOr(Epoch)
  {
    if Contains(s, "+0000") then twitterFormat(Strip(Replace(s, "+0000", ""))).GetOr(Epoch)
    else if EndsWith(s, "Z") then isoFormat(Replace(s, "Z", "+00:00")).GetOr(Epoch)
    else if Contains(s, "+") || CountOcc(s, "-") > 2 then isoFormat(s).GetOr(Epoch)
    else isoFormat(s).GetOr(Epoch)
  }

  /** A failed parse is never an error: it yields the epoch, which lies in 1970. */
  lemma ParseFailureIsEpoch(s: string, twitterFormat: string -> Option<Instant>,
                            isoFormat: string -> Option<Instant>)
    requires forall x :: twitterFormat(x) == None && isoFormat(x) == None
    ensures ParseTwitterDate(s, twitterFormat, isoFormat) == Epoch
    ensures WithinFirstYearUtc(ParseTwitterDate(s, twitterFormat, isoFormat))
  {
  }

  /** Python's `int(x)` for a float `x`: truncation toward zero. */
  function TruncDiv(a: int, b: int): (q: int)
    requires b > 0
    ensures a >= 0 ==> q * b <= a < q * b + b
    ensures a < 0 ==> q * b - b < a <= q * b
  {
    if a >= 0 then a / b else -((-a) / b)
  }

  /** `{q}{unit} ago`. */
  function Ago(q: nat, unit: string): string {
    NatToString(q) + unit + " ago"
  }

  /** The relative-time ladder on whole elapsed seconds. */
  function FormatElapsed(seconds: int): (r: string)
    ensures seconds < 0 ==> r == "recently"
    ensures 0 <= seconds < 60 ==> r == "now"
    ensures 60 <= seconds < 3600 ==>
      exists q: nat :: 1 <= q < 60 && q * 60 <= seconds < q * 60 + 60 && r == Ago(q, "m")
    ensures 3600 <= seconds < 86400 ==>
      exists q: nat :: 1 <= q < 24 && q * 3600 <= seconds < q * 3600 + 3600 && r == Ago(q, "h")
    ensures 86400 <= seconds ==>
      exists q: nat :: 1 <= q && q * 86400 <= seconds < q * 86400 + 86400 && r == Ago(q, "d")
  {
    if seconds < 0 then "recently"
    else if seconds < 60 then "now"
    else if seconds < 3600 then Ago(seconds / 60, "m")
    else if seconds < 86400 then Ago(seconds / 3600, "h")
    else Ago(seconds / 86400, "d")
  }

  /** `format_relative_time`: a post dated in 1970 (the parse fallback) reads
      "recently"; otherwise the whole seconds between the two instants, truncated
      toward zero, go through the ladder. */
  function FormatRelativeTime(posted: Instant, now: Instant): (r: string)
    ensures WithinFirstYearUtc(posted) ==> r == "recently"
    ensures !WithinFirstYearUtc(posted) && now < posted - MicrosPerSecond ==> r == "recently"
    ensures !WithinFirstYearUtc(posted) && posted - MicrosPerSecond < now < posted + 60 * MicrosPerSecond ==> r == "now"
  {
    if WithinFirstYearUtc(posted) then "recently"
    else FormatElapsed(TruncDiv(now - posted, MicrosPerSecond))
  }

  /** `truncate_text`: text of at most `maxLength` characters is kept; otherwise the
      result is the suffix cut to `maxLength` when the suffix alone does not fit,
      or a prefix of the text followed by the suffix. */
  function TruncateText(text: string, maxLength: int, suffix: string): (r: string)
    ensures |text| <= maxLength ==> r == text
    ensures maxLength >= 0 ==> |r| <= maxLength
    ensures |text| > maxLength >= 0 ==> |r| == maxLength
    ensures |text| > maxLength && |suffix| >= maxLength ==> r == PyTake(suffix, maxLength)
    ensures |text| > maxLength > |suffix| ==>
      r == text[..maxLength - |suffix|] + suffix && EndsWith(r, suffix)
  {
    if |text| <= maxLength then text
    else if |suffix| >= maxLength then PyTake(suffix, maxLength)
    else PyTake(text, maxLength - |suffix|) + suffix
  }

  /** `safe_int`: `None` and values `int()` rejects give the default. */
  function SafeInt(v: Json, default: int): (r: int)
    ensures v == JNull ==> r == default
    ensures v.JInt? ==> r == v.i
    ensures v.JBool? ==> r == if v.b then 1 else 0
    ensures v.JStr? ==> r == ParseInt(v.s).GetOr(default)
    ensures v.JArr? || v.JObj? ==> r == default
  {
    match v
    case JNull => default
    case JBool(b) => if b then 1 else 0
    case JInt(i) => i
    case JStr(s) => ParseInt(s).GetOr(default)
    case _ => default
  }

  /** `safe_str`: `None` gives the default; scalars are rendered as `str()` does. */
  function SafeStr(v: Json, default: string): (r: string)
    ensures v == JNull ==> r == default
    ensures v.JStr? ==> r == v.s
    ensures v.JInt? ==> r == IntToString(v.i)
    ensures v.JBool? ==> r == if v.b then "True" else "False"
  {
    match v
    case JNull => default
    case JBool(b) => if b then "True" else "False"
    case JInt(i) => IntToString(i)
    case JStr(s) => s
    case _ => default
  }

  /** How a decoded value prints inside an f-string: `str()` of a scalar. */
  function Render(v: Json): (r: string)
    ensures v == JNull ==> r == "None"
    ensures v.JStr? ==> r == v.s
  {
    SafeStr(v, "None")
  }

  /** A number written out as text converts back to itself. */
  lemma SafeIntOfRenderedInt(n: int, default: int)
    ensures SafeInt(JStr(IntToString(n)), default) == n
    ensures SafeInt(JStr(SafeStr(JInt(n), "")), default) == n
  {
    ParseIntRoundTrip(n);
  }

  /** `v[key]` on a decoded value: a dictionary lookup (`KeyError` when absent);
      any other value cannot be indexed by a string. */
  function Index(v: Json, key: string): (r: Result<Json, Failure>)
    ensures v.JObj? && key in v.fields <==> r.Ok?
    ensures r.Ok? ==> r.value == v.fields[key]
  {
    if v.JObj? then (if key in v.fields then Ok(v.fields[key]) else Err(Uncaught("KeyError")))
    else Err(Uncaught("TypeError"))
  }

  /** `name in v` for a decoded value: a key of a dictionary, an element of a
      list, a substring of a string; anything else is a `TypeError`. */
  function PyIn(v: Json, name: string): (r: Result<bool, Failure>)
    ensures v.JObj? ==> r == Ok(name in v.fields)
  {
    match v
    case JObj(f) => Ok(name in f)
    case JArr(items) => Ok(JStr(name) in items)
    case JStr(s) => Ok(Contains(s, name))
    case _ => Err(Uncaught("TypeError"))
  }

  /** `type(v).__name__` for a decoded value. */
  function TypeName(v: Json): string {
    match v
    case JNull => "NoneType"
    case JBool(_) => "bool"
    case JInt(_) => "int"
    case JStr(_) => "str"
    case JArr(_) => "list"
    case JObj(_) => "dict"
  }

  /** The text of the `AttributeError` raised by `v.attr` on a value lacking it. */
  function NoAttribute(v: Json, attr: string): string {
    "'" + TypeName(v) + "' object has no attribute '" + attr + "'"
  }
}
