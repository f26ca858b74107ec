/** The offline parts of the Gemini provider: the request payload built from a
    prompt, a system instruction and images, the reading of the API's answer,
    and the token estimate. The HTTP call itself is not part of this model. */
module Gemini {
  import opened Wrappers
  import opened Text
  import opened Json
  import opened Errors
  import opened Utils
  import opened LlmBase

  /** `maxOutputTokens` in the generation settings. */
  const MaxOutputTokens: int := 4000

  /** The mime type every raw image is sent with. */
  const DefaultMime: string := "image/jpeg"

  // ---------------------------------------------------------------------
  // Base64 (section 4 of RFC 4648), as `base64.b64encode` writes it
  // ---------------------------------------------------------------------

  /** The characters of the standard alphabet and the padding character. */
  predicate IsBase64Char(c: char) {
    ('A' <= c <= 'Z') || ('a' <= c <= 'z') || ('0' <= c <= '9') || c == '+' || c == '/' || c == '='
  }

  /** The alphabet: A-Z, a-z, 0-9, '+', '/'. */
  function Sextet(n: int): (c: char)
    requires 0 <= n < 64
    ensures IsBase64Char(c) && c != '='
  {
    if n < 26 then ('A' as int + n) as char
    else if n < 52 then ('a' as int + (n - 26)) as char
    else if n < 62 then ('0' as int + (n - 52)) as char
    else if n == 62 then '+'
    else '/'
  }

  /** Three bytes (or fewer, padded) become four characters. */
  function Quantum(b: seq<bv8>): (r: string)
    requires 1 <= |b| <= 3
    ensures |r| == 4 && AllBase64(r)
    ensures (r[2] == '=') <==> |b| == 1
    ensures (r[3] == '=') <==> |b| < 3
  {
    var x := b[0] as int;
    if |b| == 1 then
      [Sextet(x / 4), Sextet((x % 4) * 16), '=', '=']
    else
      var y := b[1] as int;
      if |b| == 2 then
        [Sextet(x / 4), Sextet((x % 4) * 16 + y / 16), Sextet((y % 16) * 4), '=']
      else
        var z := b[2] as int;
        [Sextet(x / 4), Sextet((x % 4) * 16 + y / 16), Sextet((y % 16) * 4 + z / 64), Sextet(z % 64)]
  }

  predicate AllBase64(s: string) {
    forall i :: 0 <= i < |s| ==> IsBase64Char(s[i])
  }

  lemma AllBase64Concat(a: string, b: string)
    requires AllBase64(a) && AllBase64(b)
    ensures AllBase64(a + b)
  {
    assert forall i :: 0 <= i < |a + b| ==> (a + b)[i] == if i < |a| then a[i] else b[i - |a|];
  }

  /** `base64.b64encode`: three bytes at a time, the last group padded. */
  function Base64(b: seq<bv8>): string
    decreases |b|
  {
    if |b| == 0 then ""
    else if |b| <= 3 then Quantum(b)
    else Quantum(b[..3]) + Base64(b[3..])
  }

  /** Every three bytes become four characters of the alphabet, with padding
      only to complete the last four. */
  lemma {:induction false} Base64Shape(b: seq<bv8>)
    ensures |Base64(b)| == 4 * ((|b| + 2) / 3)
    ensures AllBase64(Base64(b))
    decreases |b|
  {
    if |b| > 3 {
      Base64Shape(b[3..]);
      AllBase64Concat(Quantum(b[..3]), Base64(b[3..]));
      assert (|b| + 2) / 3 == 1 + (|b[3..]| + 2) / 3;
    }
  }

  // ---------------------------------------------------------------------
  // The request payload
  // ---------------------------------------------------------------------

  datatype Part = TextPart(text: string) | InlinePart(mimeType: string, data: string)

  datatype Content = Content(role: string, parts: seq<Part>)

  /** The payload without the generation temperature, a float. */
  datatype Payload = Payload(contents: seq<Content>, maxOutputTokens: int)

  /** One image as `_build_payload` turns it into a part: raw bytes are
      encoded; an inline part handed over already encoded is a dictionary,
      which `b64encode` refuses with a `TypeError`. */
  function EncodedImage(img: ImagePart): (r: Result<Part, Failure>)
    ensures r.Ok? <==> img.RawBytes?
    ensures r.Ok? ==> r.value == InlinePart(DefaultMime, Base64(img.bytes))
  {
    match img
    case RawBytes(bytes) => Ok(InlinePart(DefaultMime, Base64(bytes)))
    case InlineData(_, _) => Err(Uncaught("TypeError"))
  }

  /** The image parts in order, or the failure of the first one that fails. */
  function EncodedImages(images: seq<ImagePart>): Result<seq<Part>, Failure>
    decreases |images|
  {
    if images == [] then Ok([])
    else
      match EncodedImages(images[..|images| - 1])
      case Err(e) => Err(e)
      case Ok(ps) =>
        match EncodedImage(images[|images| - 1])
        case Err(e) => Err(e)
        case Ok(p) => Ok(ps + [p])
  }

  /** The contents before the prompt: the system instruction, when non-empty,
      as a user turn of its own. */
  function SystemContents(system: string): (r: seq<Content>)
    ensures |r| == (if system != "" then 1 else 0)
    ensures system != "" ==> r[0] == Content("user", [TextPart(system)])
  {
    if system != "" then [Content("user", [TextPart(system)])] else []
  }

  /** `_build_payload` as written. */
  function PayloadSpec(prompt: string, system: string, images: seq<ImagePart>): Result<Payload, Failure> {
    match EncodedImages(images)
    case Err(e) => Err(e)
    case Ok(ps) =>
      Ok(Payload(SystemContents(system) + [Content("user", [TextPart(prompt)] + ps)], MaxOutputTokens))
  }

  /** `_build_payload`: appends one part per image to the prompt's parts. */
  method BuildPayload(prompt: string, system: string, images: seq<ImagePart>) returns (r: Result<Payload, Failure>)
    ensures r == PayloadSpec(prompt, system, images)
  {
    var contents := SystemContents(system);
    var parts := [TextPart(prompt)];
    var i := 0;
    while i < |images|
      invariant 0 <= i <= |images|
      invariant EncodedImages(images[..i]).Ok?
      invariant parts == [TextPart(prompt)] + EncodedImages(images[..i]).value
    {
      assert images[..i + 1][..i] == images[..i];
      match EncodedImage(images[i]) {
        case Err(e) =>
          EncodedImagesFailAt(images, i);
          return Err(e);
        case Ok(p) =>
          parts := parts + [p];
      }
      i := i + 1;
    }
    assert images[..i] == images;
    contents := contents + [Content("user", parts)];
    return Ok(Payload(contents, MaxOutputTokens));
  }

  /** A failing image makes every longer prefix fail the same way. */
  lemma {:induction false} EncodedImagesFailAt(images: seq<ImagePart>, i: int)
    requires 0 <= i < |images| && EncodedImage(images[i]).Err? && EncodedImages(images[..i]).Ok?
    ensures EncodedImages(images) == Err(EncodedImage(images[i]).error)
    decreases |images|
  {
    if |images| == i + 1 {
      assert images[..|images| - 1] == images[..i];
    } else {
      assert images[..|images| - 1][..i] == images[..i];
      EncodedImagesFailAt(images[..|images| - 1], i);
    }
  }

  predicate AllRaw(images: seq<ImagePart>) {
    forall i :: 0 <= i < |images| ==> images[i].RawBytes?
  }

  lemma AllRawSnoc(images: seq<ImagePart>)
    requires images != []
    ensures AllRaw(images) <==> AllRaw(images[..|images| - 1]) && images[|images| - 1].RawBytes?
  {
    var init := images[..|images| - 1];
    assert forall i :: 0 <= i < |init| ==> init[i] == images[i];
  }

  /** The images are accepted exactly when all are raw bytes, and then each
      becomes, in order, the part it was meant to become. */
  lemma EncodedImagesIff(images: seq<ImagePart>)
    ensures EncodedImages(images).Ok? <==> AllRaw(images)
    ensures EncodedImages(images).Ok? ==> EncodedImages(images).value == CorrectedParts(images)
  {
    if AllRaw(images) {
      EncodedImagesOk(images);
    } else {
      EncodedImagesErr(images);
    }
  }

  lemma {:induction false} EncodedImagesOk(images: seq<ImagePart>)
    requires AllRaw(images)
    ensures EncodedImages(images) == Ok(CorrectedParts(images))
    decreases |images|
  {
    if images != [] {
      var init := images[..|images| - 1];
      var last := images[|images| - 1];
      AllRawSnoc(images);
      EncodedImagesOk(init);
      assert EncodedImage(last) == Ok(CorrectedPart(last));
    }
  }

  lemma {:induction false} EncodedImagesErr(images: seq<ImagePart>)
    requires !AllRaw(images)
    ensures EncodedImages(images).Err?
    decreases |images|
  {
    var init := images[..|images| - 1];
    AllRawSnoc(images);
    if !AllRaw(init) {
      EncodedImagesErr(init);
    }
  }

  /** The shape of an accepted payload: the system instruction first when
      given, then the prompt followed by one part per image, all user turns. */
  lemma PayloadShape(prompt: string, system: string, images: seq<ImagePart>)
    requires AllRaw(images)
    ensures PayloadSpec(prompt, system, images).Ok?
    ensures var p := PayloadSpec(prompt, system, images).value;
      && p.maxOutputTokens == MaxOutputTokens
      && |p.contents| == (if system != "" then 2 else 1)
      && (system != "" ==> p.contents[0] == Content("user", [TextPart(system)]))
      && var last := p.contents[|p.contents| - 1];
         && last.role == "user"
         && |last.parts| == 1 + |images|
         && last.parts[0] == TextPart(prompt)
         && forall i :: 0 <= i < |images| ==> last.parts[1 + i] == InlinePart(DefaultMime, Base64(images[i].bytes))
  {
    EncodedImagesIff(images);
    CorrectedPartsEach(images);
    var ps := CorrectedParts(images);
    var sys := SystemContents(system);
    var last := Content("user", [TextPart(prompt)] + ps);
    assert PayloadSpec(prompt, system, images) == Ok(Payload(sys + [last], MaxOutputTokens));
    assert (sys + [last])[|sys + [last]| - 1] == last;
    assert system != "" ==> (sys + [last])[0] == sys[0];
    assert forall i :: 0 <= i < |images| ==> last.parts[1 + i] == ps[i];
  }

  /** An image already in inline form, as the image encoder produces and the
      provider interface admits, makes the payload builder raise. */
  lemma InlineImageRaises(prompt: string, system: string, mimeType: string, data: string)
    ensures PayloadSpec(prompt, system, [RawBytes([]), InlineData(mimeType, data)]) == Err(Uncaught("TypeError"))
  {
    EncodedImagesFailAt([RawBytes([]), InlineData(mimeType, data)], 1);
  }

  /** One image as it was evidently meant to be sent: inline parts keep their
      own mime type and data. */
  function CorrectedPart(img: ImagePart): Part {
    match img
    case RawBytes(bytes) => InlinePart(DefaultMime, Base64(bytes))
    case InlineData(m, d) => InlinePart(m, d)
  }

  function CorrectedParts(images: seq<ImagePart>): (r: seq<Part>)
    ensures |r| == |images|
    decreases |images|
  {
    if images == [] then [] else CorrectedParts(images[..|images| - 1]) + [CorrectedPart(images[|images| - 1])]
  }

  lemma {:induction false} CorrectedPartsEach(images: seq<ImagePart>)
    ensures forall i :: 0 <= i < |images| ==> CorrectedParts(images)[i] == CorrectedPart(images[i])
    decreases |images|
  {
    if images != [] {
      var init := images[..|images| - 1];
      CorrectedPartsEach(init);
      assert forall i :: 0 <= i < |init| ==> init[i] == images[i];
    }
  }

  /** The payload built with inline images passed through: never fails, and
      agrees with the builder as written wherever that one succeeds. */
  function CorrectedPayload(prompt: string, system: string, images: seq<ImagePart>): (p: Payload)
    ensures |p.contents| == (if system != "" then 2 else 1)
    ensures var last := p.contents[|p.contents| - 1];
      && last.role == "user" && |last.parts| == 1 + |images| && last.parts[0] == TextPart(prompt)
      && forall i :: 0 <= i < |images| ==>
           last.parts[1 + i].InlinePart?
           && (images[i].InlineData? ==> last.parts[1 + i] == InlinePart(images[i].mimeType, images[i].data))
  {
    CorrectedPartsEach(images);
    var parts := [TextPart(prompt)] + CorrectedParts(images);
    assert forall i :: 0 <= i < |images| ==> parts[1 + i] == CorrectedPart(images[i]);
    var contents := SystemContents(system) + [Content("user", parts)];
    assert contents[|contents| - 1] == Content("user", parts);
    Payload(contents, MaxOutputTokens)
  }

  lemma CorrectedAgrees(prompt: string, system: string, images: seq<ImagePart>)
    requires PayloadSpec(prompt, system, images).Ok?
    ensures PayloadSpec(prompt, system, images) == Ok(CorrectedPayload(prompt, system, images))
  {
    EncodedImagesIff(images);
  }

  // ---------------------------------------------------------------------
  // Reading the answer
  // ---------------------------------------------------------------------

  /** Why reading stopped: an answer with nothing to read, a missing key, or
      another exception with its text. */
  datatype Fault = NothingToRead(detail: string) | MissingKey(key: string) | Broken(text: string)

  /** The `LLMError` each fault is reported as. */
  function Reported(f: Fault): (e: XDigestError)
    ensures e.kind == Llm
    ensures e.code == (if f.NothingToRead? then LlmEmptyResponse else LlmInvalidResponse)
  {
    match f
    case NothingToRead(detail) => NewError(Llm, LlmEmptyResponse, Some(detail))
    case MissingKey(key) => NewError(Llm, LlmInvalidResponse, Some("Missing field: " + key))
    case Broken(text) => NewError(Llm, LlmInvalidResponse, Some(text))
  }

  /** `candidates[0]` on a truthy value. */
  function FirstItem(v: Json): (r: Result<Json, Fault>)
    ensures v.JArr? && |v.items| > 0 ==> r == Ok(v.items[0])
  {
    match v
    case JArr(items) => if |items| > 0 then Ok(items[0]) else Err(Broken("list index out of range"))
    case JStr(s) => if |s| > 0 then Ok(JStr([s[0]])) else Err(Broken("string index out of range"))
    case JObj(_) => Err(MissingKey("0"))
    case _ => Err(Broken("'" + TypeName(v) + "' object is not subscriptable"))
  }

  /** `part["text"]` when `"text" in part`, nothing when not, or what the test
      or the lookup raises. */
  function TextOf(part: Json): (r: Result<Option<Json>, Fault>)
    ensures part.JObj? ==> r == Ok(Get(part.fields, "text"))
  {
    match part
    case JObj(f) => Ok(Get(f, "text"))
    case JArr(items) =>
      if JStr("text") in items then Err(Broken("list indices must be integers or slices, not str")) else Ok(None)
    case JStr(s) =>
      if Contains(s, "text") then Err(Broken("string indices must be integers, not 'str'")) else Ok(None)
    case _ => Err(Broken("argument of type '" + TypeName(part) + "' is not iterable"))
  }

  /** The text values gathered from `parts` in order. */
  function Collected(parts: seq<Json>): Result<seq<Json>, Fault>
    decreases |parts|
  {
    if parts == [] then Ok([])
    else
      match Collected(parts[..|parts| - 1])
      case Err(f) => Err(f)
      case Ok(ts) =>
        match TextOf(parts[|parts| - 1])
        case Err(f) => Err(f)
        case Ok(t) => Ok(if t.Some? then ts + [t.value] else ts)
  }

  /** `"".join(texts)`: the first value that is not a string raises. */
  function Joined(texts: seq<Json>): Result<string, Fault>
    decreases |texts|
  {
    if texts == [] then Ok("")
    else
      match Joined(texts[..|texts| - 1])
      case Err(f) => Err(f)
      case Ok(s) =>
        var t := texts[|texts| - 1];
        if t.JStr? then Ok(s + t.s)
        else Err(Broken("sequence item " + IntToString(|texts| - 1) + ": expected str instance, "
                        + TypeName(t) + " found"))
  }

  /** What `for part in parts` walks over, for a value that can be walked in
      a fixed order; the keys of a dictionary are handled apart. */
  function Elements(v: Json): seq<Json> {
    match v
    case JArr(items) => items
    case JStr(s) => seq(|s|, i requires 0 <= i < |s| => JStr([s[i]]))
    case _ => []
  }

  /** The texts of a (truthy) `parts` value. Walking a dictionary visits its
      keys, which are strings: any key containing "text" fails the lookup,
      and otherwise no text is found. */
  function PartTexts(parts: Json): Result<seq<Json>, Fault> {
    match parts
    case JArr(_) => Collected(Elements(parts))
    case JStr(_) => Collected(Elements(parts))
    case JObj(f) =>
      if exists k :: k in f && Contains(k, "text") then Err(Broken("string indices must be integers, not 'str'"))
      else Ok([])
    case _ => Err(Broken("'" + TypeName(parts) + "' object is not iterable"))
  }

  /** The parts of the first candidate's content, or why there are none. */
  function FirstParts(data: Json): (r: Result<Json, Fault>)
    ensures r.Ok? ==> Truthy(r.value)
  {
    if !data.JObj? then Err(Broken(NoAttribute(data, "get")))
    else
      var candidates := Get(data.fields, "candidates").GetOr(JArr([]));
      if !Truthy(candidates) then Err(NothingToRead("No candidates in response"))
      else
        match FirstItem(candidates)
        case Err(f) => Err(f)
        case Ok(first) =>
          if !first.JObj? then Err(Broken(NoAttribute(first, "get")))
          else
            var content := Get(first.fields, "content").GetOr(JObj(map[]));
            if !content.JObj? then Err(Broken(NoAttribute(content, "get")))
            else
              var parts := Get(content.fields, "parts").GetOr(JArr([]));
              if !Truthy(parts) then Err(NothingToRead("No parts in response")) else Ok(parts)
  }

  /** `_parse_response` as a function of the decoded answer. */
  function ParseSpec(data: Json): Result<string, XDigestError> {
    match FirstParts(data)
    case Err(f) => Err(Reported(f))
    case Ok(parts) =>
      match PartTexts(parts)
      case Err(f) => Err(Reported(f))
      case Ok(texts) =>
        if texts == [] then Err(Reported(NothingToRead("No text in response parts")))
        else
          match Joined(texts)
          case Err(f) => Err(Reported(f))
          case Ok(s) => Ok(Strip(s))
  }

  /** The texts gathered by the loop over an orderly `parts` value. */
  method CollectTexts(parts: seq<Json>) returns (r: Result<seq<Json>, Fault>)
    ensures r == Collected(parts)
  {
    var texts := [];
    var i := 0;
    while i < |parts|
      invariant 0 <= i <= |parts|
      invariant Collected(parts[..i]) == Ok(texts)
    {
      assert parts[..i + 1][..i] == parts[..i];
      match TextOf(parts[i]) {
        case Err(f) =>
          CollectedFailAt(parts, i);
          return Err(f);
        case Ok(t) =>
          if t.Some? {
            texts := texts + [t.value];
          }
      }
      i := i + 1;
    }
    assert parts[..i] == parts;
    return Ok(texts);
  }

  lemma {:induction false} CollectedFailAt(parts: seq<Json>, i: int)
    requires 0 <= i < |parts| && TextOf(parts[i]).Err? && Collected(parts[..i]).Ok?
    ensures Collected(parts) == Err(TextOf(parts[i]).error)
    decreases |parts|
  {
    if |parts| == i + 1 {
      assert parts[..|parts| - 1] == parts[..i];
    } else {
      assert parts[..|parts| - 1][..i] == parts[..i];
      CollectedFailAt(parts[..|parts| - 1], i);
    }
  }

  /** `_parse_response`. */
  method ParseResponse(data: Json) returns (r: Result<string, XDigestError>)
    ensures r == ParseSpec(data)
  {
    var first := FirstParts(data);
    if first.Err? {
      return Err(Reported(first.error));
    }
    var parts := first.value;
    var texts: Result<seq<Json>, Fault>;
    if parts.JArr? || parts.JStr? {
      texts := CollectTexts(Elements(parts));
    } else {
      texts := PartTexts(parts);
    }
    if texts.Err? {
      return Err(Reported(texts.error));
    }
    if texts.value == [] {
      return Err(Reported(NothingToRead("No text in response parts")));
    }
    var joined := Joined(texts.value);
    if joined.Err? {
      return Err(Reported(joined.error));
    }
    return Ok(Strip(joined.value));
  }

  /** The answer of a well-formed response: a list of candidates whose first
      holds a content whose parts are objects with string texts, where given. */
  predicate WellFormedParts(items: seq<Json>) {
    forall i :: 0 <= i < |items| ==>
      items[i].JObj? && ("text" in items[i].fields ==> items[i].fields["text"].JStr?)
  }

  function Answer(items: seq<Json>): Json {
    JObj(map["candidates" := JArr([JObj(map["content" := JObj(map["parts" := JArr(items)])])])])
  }

  /** Reference reading of well-formed parts: the number that carry a text,
      and their texts run together in order. */
  function TextCount(items: seq<Json>): nat
    requires WellFormedParts(items)
    decreases |items|
  {
    if items == [] then 0
    else TextCount(items[..|items| - 1]) + (if "text" in items[|items| - 1].fields then 1 else 0)
  }

  function AllText(items: seq<Json>): string
    requires WellFormedParts(items)
    decreases |items|
  {
    if items == [] then ""
    else
      var last := items[|items| - 1];
      AllText(items[..|items| - 1]) + (if "text" in last.fields then last.fields["text"].s else "")
  }

  lemma {:induction false} CollectedWellFormed(items: seq<Json>)
    requires WellFormedParts(items)
    ensures Collected(items).Ok?
    ensures |Collected(items).value| == TextCount(items)
    ensures Joined(Collected(items).value) == Ok(AllText(items))
    decreases |items|
  {
    if items != [] {
      var init := items[..|items| - 1];
      assert WellFormedParts(init) by {
        forall i | 0 <= i < |init| ensures init[i] == items[i] { }
      }
      CollectedWellFormed(init);
      var last := items[|items| - 1];
      var ts := Collected(init).value;
      assert Joined(ts) == Ok(AllText(init));
      if "text" in last.fields {
        var t := last.fields["text"];
        assert t.JStr?;
        assert Collected(items) == Ok(ts + [t]);
        assert (ts + [t])[..|ts + [t]| - 1] == ts;
        assert Joined(ts + [t]) == Ok(AllText(init) + t.s);
        assert AllText(items) == AllText(init) + t.s;
      } else {
        assert Collected(items) == Ok(ts);
        assert AllText(items) == AllText(init) + "";
        assert AllText(init) + "" == AllText(init);
      }
    }
  }

  /** A well-formed answer is read as the in-order concatenation of its texts,
      stripped, or as empty when no part has a text. */
  lemma ParseWellFormed(items: seq<Json>)
    requires |items| > 0 && WellFormedParts(items)
    ensures TextCount(items) == 0 ==>
      ParseSpec(Answer(items)) == Err(NewError(Llm, LlmEmptyResponse, Some("No text in response parts")))
    ensures TextCount(items) > 0 ==> ParseSpec(Answer(items)) == Ok(Strip(AllText(items)))
  {
    CollectedWellFormed(items);
    FirstPartsOfAnswer(items);
    var texts := Collected(items).value;
    assert PartTexts(JArr(items)) == Ok(texts) by {
      assert Elements(JArr(items)) == items;
    }
  }

  lemma FirstPartsOfAnswer(items: seq<Json>)
    requires |items| > 0
    ensures FirstParts(Answer(items)) == Ok(JArr(items))
  {
    var parts := JArr(items);
    var content := JObj(map["parts" := parts]);
    var first := JObj(map["content" := content]);
    var data := Answer(items);
    assert Get(data.fields, "candidates") == Some(JArr([first]));
    assert FirstItem(JArr([first])) == Ok(first);
    assert Get(first.fields, "content") == Some(content);
    assert Get(content.fields, "parts") == Some(parts);
  }

  /** An answer without candidates, or with an empty list of them, is empty. */
  lemma NoCandidates(fields: map<string, Json>)
    requires "candidates" !in fields || fields["candidates"] == JArr([])
    ensures ParseSpec(JObj(fields)) == Err(NewError(Llm, LlmEmptyResponse, Some("No candidates in response")))
  {
    assert !Truthy(Get(fields, "candidates").GetOr(JArr([])));
  }

  /** An answer whose first candidate has no content, hence no parts, is empty. */
  lemma NoParts(fields: map<string, Json>, first: map<string, Json>, rest: seq<Json>)
    requires "candidates" in fields && fields["candidates"] == JArr([JObj(first)] + rest)
    requires "content" !in first
    ensures ParseSpec(JObj(fields)) == Err(NewError(Llm, LlmEmptyResponse, Some("No parts in response")))
  {
    assert FirstItem(JArr([JObj(first)] + rest)) == Ok(JObj(first));
    assert FirstParts(JObj(fields)) == Err(NothingToRead("No parts in response"));
  }

  // ---------------------------------------------------------------------
  // Token estimate
  // ---------------------------------------------------------------------

  /** `count_tokens`: one token per four characters, rounded down. */
  function CountTokens(text: string): (n: nat)
    ensures 4 * n <= |text| < 4 * n + 4
  {
    |text| / 4
  }

  /** A longer text never has fewer tokens. */
  lemma CountTokensMonotone(a: string, b: string)
    requires |a| <= |b|
    ensures CountTokens(a) <= CountTokens(b)
  {
  }
}
