/** The delivery layer's shared part: the retry loop that sends a digest's
    parts, the recording mock provider and the choice of provider from the
    configuration. A provider is seen by the retry loop as its answer to a
    call given the calls it has already received, so the mock's failure
    counter and any other history-dependent behaviour fit; the wall-clock
    stamp of each recorded call and the sleeping itself are not modelled, the
    requested backoffs are returned instead. */
module DeliveryBase {
  import opened Wrappers
  import opened Text
  import opened Json
  import opened Errors
  import opened Utils
  import opened Seqs

  /** One `send(recipient, message)` call. */
  datatype DeliveryCall = DeliveryCall(recipient: string, message: string)

  /** A provider's `send`: the message id or the `DeliveryError` it raises,
      given the calls made to it before this one. */
  type Provider = (seq<DeliveryCall>, DeliveryCall) -> Result<string, XDigestError>

  function DeliveryFailure(code: ErrorCode, message: Option<string>): XDigestError {
    NewError(Delivery, code, message)
  }

  // ---------------------------------------------------------------------------
  // The mock provider

  /** The error-string table of the mock; an unset or empty string, or one
      not in the table, is a plain send failure. */
  function MockErrorCode(error: Option<string>): ErrorCode {
    if error.None? || error.value == "" then DeliverySendFailed
    else if error.value == "RATE_LIMITED" then DeliveryRateLimited
    else if error.value == "AUTH_FAILED" then DeliveryAuthFailed
    else if error.value == "RECIPIENT_INVALID" then DeliveryRecipientInvalid
    else DeliverySendFailed
  }

  /** Some configured fragment occurs in the message. */
  predicate HitsFragment(failOnMessage: seq<string>, message: string) {
    exists i :: 0 <= i < |failOnMessage| && Contains(message, failOnMessage[i])
  }

  /** The mock's answer to its `count`-th call: a configured fragment in the
      message fails first, then the first `failCount` calls fail, then the
      success flag decides. */
  function MockReply(success: bool, messageId: string, error: Option<string>, failCount: int,
                     failOnMessage: seq<string>, count: int, message: string): (r: Result<string, XDigestError>)
    ensures r.Ok? <==> !HitsFragment(failOnMessage, message) && count > failCount && success
    ensures r.Ok? ==> r.value == messageId
    ensures HitsFragment(failOnMessage, message) ==>
      r == Err(DeliveryFailure(DeliverySendFailed, Some("Configured to fail")))
    ensures !HitsFragment(failOnMessage, message) && count <= failCount ==>
      r == Err(DeliveryFailure(DeliverySendFailed, Some("Configured failure count")))
    ensures !HitsFragment(failOnMessage, message) && count > failCount && !success ==>
      r == Err(DeliveryFailure(MockErrorCode(error), None))
  {
    if HitsFragment(failOnMessage, message) then Err(DeliveryFailure(DeliverySendFailed, Some("Configured to fail")))
    else if count <= failCount then Err(DeliveryFailure(DeliverySendFailed, Some("Configured failure count")))
    else if !success then Err(DeliveryFailure(MockErrorCode(error), None))
    else Ok(messageId)
  }

  /** The mock as a provider: a fresh (or just reset) mock has counted
      exactly the calls it has recorded. */
  function MockProvider(success: bool, messageId: string, error: Option<string>, failCount: int,
                        failOnMessage: seq<string>): Provider {
    (history: seq<DeliveryCall>, call: DeliveryCall) =>
      MockReply(success, messageId, error, failCount, failOnMessage, |history| + 1, call.message)
  }

  /** After recording `history`, the mock answers a call as its provider view does. */
  lemma MockProviderAnswers(success: bool, messageId: string, error: Option<string>, failCount: int,
                            failOnMessage: seq<string>, history: seq<DeliveryCall>, call: DeliveryCall)
    ensures MockProvider(success, messageId, error, failCount, failOnMessage)(history, call)
         == MockReply(success, messageId, error, failCount, failOnMessage, |history| + 1, call.message)
  {
  }

  class MockDeliveryProvider {
    var success: bool
    var messageId: string
    var error: Option<string>
    var failCount: int
    var failOnMessage: seq<string>
    var sends: seq<DeliveryCall>
    var callCount: int

    /** The counter counts the recorded calls. */
    predicate Valid()
      reads this
    {
      callCount == |sends|
    }

    /** A missing list of fragments is an empty one. */
    constructor(success: bool, messageId: string, error: Option<string>, failCount: int,
                failOnMessage: Option<seq<string>>)
      ensures Valid()
      ensures this.success == success && this.messageId == messageId && this.error == error
      ensures this.failCount == failCount
      ensures this.failOnMessage == if failOnMessage.Some? then failOnMessage.value else []
      ensures sends == [] && callCount == 0
    {
      this.success := success;
      this.messageId := messageId;
      this.error := error;
      this.failCount := failCount;
      this.failOnMessage := if failOnMessage.Some? then failOnMessage.value else [];
      sends := [];
      callCount := 0;
    }

    /** `send`: record the call and count it, then answer. */
    method Send(recipient: string, message: string) returns (r: Result<string, XDigestError>)
      requires Valid()
      modifies this
      ensures Valid()
      ensures success == old(success) && messageId == old(messageId) && error == old(error)
      ensures failCount == old(failCount) && failOnMessage == old(failOnMessage)
      ensures sends == old(sends) + [DeliveryCall(recipient, message)]
      ensures callCount == old(callCount) + 1
      ensures r == MockReply(success, messageId, error, failCount, failOnMessage, |old(sends)| + 1, message)
    {
      sends := sends + [DeliveryCall(recipient, message)];
      callCount := callCount + 1;
      var hit := false;
      for i := 0 to |failOnMessage|
        invariant hit <==> exists j :: 0 <= j < i && Contains(message, failOnMessage[j])
      {
        if Contains(message, failOnMessage[i]) {
          hit := true;
        }
      }
      assert hit <==> HitsFragment(failOnMessage, message);
      if hit {
        return Err(DeliveryFailure(DeliverySendFailed, Some("Configured to fail")));
      }
      if callCount <= failCount {
        return Err(DeliveryFailure(DeliverySendFailed, Some("Configured failure count")));
      }
      if !success {
        return Err(DeliveryFailure(MockErrorCode(error), None));
      }
      return Ok(messageId);
    }

    function MaxMessageLength(): int {
      4000
    }

    /** `reset`: forget the recorded calls and the count, keep the settings. */
    method Reset()
      modifies this
      ensures Valid()
      ensures sends == [] && callCount == 0
      ensures success == old(success) && messageId == old(messageId) && error == old(error)
      ensures failCount == old(failCount) && failOnMessage == old(failOnMessage)
    {
      sends := [];
      callCount := 0;
    }
  }

  // ---------------------------------------------------------------------------
  // Choosing a provider

  /** The provider `get_provider` builds, with the values it passes on. */
  datatype ProviderChoice = WhatsAppChosen(gatewayUrl: Json, recipient: Json) | TelegramChosen(botToken: Json, chatId: Json)

  /** `config.get(section, {})` followed by `.get` of a key. */
  function SectionGet(config: map<string, Json>, section: string, key: string): Result<Json, Failure> {
    var s := if section in config then config[section] else JObj(map[]);
    if s.JObj? then Ok(GetOrNull(s.fields, key)) else Err(Uncaught("AttributeError"))
  }

  /** The error `get_provider` raises for a missing provider. */
  const MissingProvider := Raised(NewError(Config, ConfigMissingRequiredField, Some("delivery.provider required")))

  /** The branches `get_provider` shares with the corrected version below: a
      missing provider, Telegram, and an unknown name. */
  function OtherProvider(config: map<string, Json>): (r: Result<ProviderChoice, Failure>)
    requires GetOrNull(config, "provider") != JStr("whatsapp")
    ensures !Truthy(GetOrNull(config, "provider")) <==> r == Err(MissingProvider)
    ensures r.Ok? ==> r.value.TelegramChosen? && GetOrNull(config, "provider") == JStr("telegram")
    ensures GetOrNull(config, "provider") == JStr("telegram") && r.Ok? ==>
      Ok(r.value.botToken) == SectionGet(config, "telegram", "bot_token")
      && Ok(r.value.chatId) == SectionGet(config, "telegram", "chat_id")
    ensures Truthy(GetOrNull(config, "provider")) && GetOrNull(config, "provider") != JStr("telegram") ==>
      r.Err? && r.error.Raised? && r.error.error.code == ConfigInvalidValue
  {
    var kind := GetOrNull(config, "provider");
    if !Truthy(kind) then Err(MissingProvider)
    else if kind == JStr("telegram") then
      match SectionGet(config, "telegram", "bot_token")
      case Err(e) => Err(e)
      case Ok(token) =>
        match SectionGet(config, "telegram", "chat_id")
        case Err(e) => Err(e)
        case Ok(chat) => Ok(TelegramChosen(token, chat))
    else Err(Raised(NewError(Config, ConfigInvalidValue, Some("Unknown delivery provider: " + Render(kind)))))
  }

  /** `get_provider` as written: the WhatsApp branch reads `cli_path`,
      `node_path`, `recipient` and `timeout` and passes them to a constructor
      that takes only `gateway_url` and `recipient`, so the call raises
      `TypeError` for every configuration. */
  function GetProviderAsWritten(config: map<string, Json>): (r: Result<ProviderChoice, Failure>)
    ensures GetOrNull(config, "provider") == JStr("whatsapp") ==> r.Err? && r.error.Uncaught?
    ensures GetOrNull(config, "provider") != JStr("whatsapp") ==> r == OtherProvider(config)
  {
    if GetOrNull(config, "provider") == JStr("whatsapp") then
      match SectionGet(config, "whatsapp", "cli_path")
      case Err(e) => Err(e)
      case Ok(_) => Err(Uncaught("TypeError"))
    else OtherProvider(config)
  }

  /** The configuration of the WhatsApp provider test: a gateway and a
      recipient. */
  const WhatsAppTestConfig: map<string, Json> := map[
    "provider" := JStr("whatsapp"),
    "whatsapp" := JObj(map["gateway_url" := JStr("http://localhost:3420"), "recipient" := JStr("+1234567890")])]

  /** As written, no WhatsApp configuration yields a provider: a dictionary
      section raises `TypeError`, the test's configuration included. */
  lemma WhatsAppBranchRaises(config: map<string, Json>)
    requires GetOrNull(config, "provider") == JStr("whatsapp")
    requires "whatsapp" !in config || config["whatsapp"].JObj?
    ensures GetProviderAsWritten(config) == Err(Uncaught("TypeError"))
    ensures GetProviderAsWritten(WhatsAppTestConfig) == Err(Uncaught("TypeError"))
  {
    assert GetOrNull(WhatsAppTestConfig, "provider") == JStr("whatsapp");
  }

  /** `get_provider` as intended: the WhatsApp branch passes the section's
      `gateway_url` and `recipient` to the constructor. */
  function GetProvider(config: map<string, Json>): (r: Result<ProviderChoice, Failure>)
    ensures !Truthy(GetOrNull(config, "provider")) <==> r == Err(MissingProvider)
    ensures GetOrNull(config, "provider") == JStr("whatsapp") ==>
      (r.Ok? <==> "whatsapp" !in config || config["whatsapp"].JObj?)
      && (r.Ok? ==> r == Ok(WhatsAppChosen(SectionGet(config, "whatsapp", "gateway_url").value,
                                           SectionGet(config, "whatsapp", "recipient").value)))
    ensures r.Ok? && r.value.TelegramChosen? ==> GetOrNull(config, "provider") == JStr("telegram")
    ensures Truthy(GetOrNull(config, "provider")) && GetOrNull(config, "provider") !in {JStr("whatsapp"), JStr("telegram")} ==>
      r.Err? && r.error.Raised? && r.error.error.code == ConfigInvalidValue
  {
    if GetOrNull(config, "provider") == JStr("whatsapp") then
      match SectionGet(config, "whatsapp", "gateway_url")
      case Err(e) => Err(e)
      case Ok(url) =>
        match SectionGet(config, "whatsapp", "recipient")
        case Err(e) => Err(e)
        case Ok(to) => Ok(WhatsAppChosen(url, to))
    else OtherProvider(config)
  }

  /** The corrected version builds the test's WhatsApp provider, and agrees
      with the code as written on every other provider name. */
  lemma GetProviderCorrected(config: map<string, Json>)
    ensures GetProvider(WhatsAppTestConfig) == Ok(WhatsAppChosen(JStr("http://localhost:3420"), JStr("+1234567890")))
    ensures GetOrNull(config, "provider") != JStr("whatsapp") ==> GetProvider(config) == GetProviderAsWritten(config)
  {
    assert GetOrNull(WhatsAppTestConfig, "provider") == JStr("whatsapp");
    assert SectionGet(WhatsAppTestConfig, "whatsapp", "gateway_url") == Ok(JStr("http://localhost:3420"));
    assert SectionGet(WhatsAppTestConfig, "whatsapp", "recipient") == Ok(JStr("+1234567890"));
  }

  // ---------------------------------------------------------------------------
  // Sending a digest

  function Pow2(k: nat): (r: nat)
    ensures r >= 1
  {
    if k == 0 then 1 else 2 * Pow2(k - 1)
  }

  /** What sending one part did: whether it got through, the calls made
      (all of the same part) and the backoffs slept between them. */
  datatype Attempts = Attempts(sent: bool, calls: seq<DeliveryCall>, backoffs: seq<nat>)

  /** The attempts of one part from attempt number `attempt` on, `history`
      being every call the provider has received so far. */
  function PartAttempts(provider: Provider, history: seq<DeliveryCall>, call: DeliveryCall,
                        attempt: nat, maxRetries: int): (a: Attempts)
    decreases maxRetries - attempt
  {
    if attempt >= maxRetries then Attempts(false, [], [])
    else if provider(history, call).Ok? then Attempts(true, [call], [])
    else
      var rest := PartAttempts(provider, history + [call], call, attempt + 1, maxRetries);
      Attempts(rest.sent, [call] + rest.calls,
               (if attempt < maxRetries - 1 then [Pow2(attempt)] else []) + rest.backoffs)
  }

  /** One part is sent until the first call the provider accepts, at most
      `max_retries` times in all; every call carries the part; between two
      calls, and only there, the loop backs off `2**attempt` seconds. */
  lemma {:induction false} PartAttemptsShape(provider: Provider, history: seq<DeliveryCall>, call: DeliveryCall,
                                             attempt: nat, maxRetries: int)
    decreases maxRetries - attempt
    ensures var a := PartAttempts(provider, history, call, attempt, maxRetries);
      && (forall i :: 0 <= i < |a.calls| ==> a.calls[i] == call)
      && (attempt >= maxRetries ==> a == Attempts(false, [], []))
      && (attempt < maxRetries ==> |a.calls| >= 1 && |a.backoffs| == |a.calls| - 1)
      && (forall j :: 0 <= j < |a.backoffs| ==> a.backoffs[j] == Pow2(attempt + j))
      && (a.sent ==> |a.calls| >= 1 && provider(history + a.calls[..|a.calls| - 1], call).Ok?)
      && (forall j :: 0 <= j < |a.calls| - (if a.sent then 1 else 0) ==> provider(history + a.calls[..j], call).Err?)
      && (!a.sent ==> |a.calls| == if attempt < maxRetries then maxRetries - attempt else 0)
      && |a.calls| <= if attempt < maxRetries then maxRetries - attempt else 0
  {
    var a := PartAttempts(provider, history, call, attempt, maxRetries);
    if attempt < maxRetries {
      if provider(history, call).Ok? {
        assert history + a.calls[..0] == history;
      } else {
        PartAttemptsShape(provider, history + [call], call, attempt + 1, maxRetries);
        var rest := PartAttempts(provider, history + [call], call, attempt + 1, maxRetries);
        assert a.calls == [call] + rest.calls;
        assert history + a.calls[..0] == history;
        forall j | 1 <= j <= |a.calls|
          ensures history + a.calls[..j] == (history + [call]) + rest.calls[..j - 1]
        {
          assert a.calls[..j] == [call] + rest.calls[..j - 1];
        }
        if attempt + 1 >= maxRetries {
          assert rest.backoffs == [];
        }
      }
    }
  }

  /** Every call of a sequence of per-part attempts, in order. */
  function CallsOf(parts: seq<Attempts>): seq<DeliveryCall> {
    if parts == [] then [] else CallsOf(parts[..|parts| - 1]) + parts[|parts| - 1].calls
  }

  function BackoffsOf(parts: seq<Attempts>): seq<nat> {
    if parts == [] then [] else BackoffsOf(parts[..|parts| - 1]) + parts[|parts| - 1].backoffs
  }

  /** The positions of the parts that did not get through, in order. */
  function FailedOf(parts: seq<Attempts>): (r: seq<nat>)
    ensures forall i :: 0 <= i < |parts| ==> (i in r <==> !parts[i].sent)
    ensures forall k :: 0 <= k < |r| ==> r[k] < |parts|
  {
    if parts == [] then []
    else
      var before := FailedOf(parts[..|parts| - 1]);
      assert forall i :: 0 <= i < |parts| - 1 ==> parts[..|parts| - 1][i] == parts[i];
      before + (if parts[|parts| - 1].sent then [] else [|parts| - 1])
  }

  lemma AttemptsSnoc(done: seq<Attempts>, a: Attempts)
    ensures CallsOf(done + [a]) == CallsOf(done) + a.calls
    ensures BackoffsOf(done + [a]) == BackoffsOf(done) + a.backoffs
    ensures FailedOf(done + [a]) == FailedOf(done) + (if a.sent then [] else [|done|])
  {
    assert (done + [a])[..|done|] == done;
  }

  /** The attempts of every part of a digest, each part starting from the
      calls made for the parts before it. */
  function DigestAttempts(provider: Provider, history: seq<DeliveryCall>, parts: seq<string>,
                          recipient: string, maxRetries: int): (r: seq<Attempts>)
    ensures |r| == |parts|
  {
    if parts == [] then []
    else
      var before := DigestAttempts(provider, history, parts[..|parts| - 1], recipient, maxRetries);
      before + [PartAttempts(provider, history + CallsOf(before), DeliveryCall(recipient, parts[|parts| - 1]), 0, maxRetries)]
  }

  lemma DigestAttemptsSnoc(provider: Provider, history: seq<DeliveryCall>, parts: seq<string>,
                           recipient: string, maxRetries: int, i: nat)
    requires i < |parts|
    ensures var before := DigestAttempts(provider, history, parts[..i], recipient, maxRetries);
      DigestAttempts(provider, history, parts[..i + 1], recipient, maxRetries)
      == before + [PartAttempts(provider, history + CallsOf(before), DeliveryCall(recipient, parts[i]), 0, maxRetries)]
  {
    assert parts[..i + 1][..i] == parts[..i];
  }

  lemma {:induction false} DigestAttemptsPrefix(provider: Provider, history: seq<DeliveryCall>, parts: seq<string>,
                                                recipient: string, maxRetries: int, k: nat)
    requires k <= |parts|
    ensures DigestAttempts(provider, history, parts, recipient, maxRetries)[..k]
         == DigestAttempts(provider, history, parts[..k], recipient, maxRetries)
  {
    if k == |parts| {
      assert parts[..k] == parts;
    } else {
      var init := parts[..|parts| - 1];
      DigestAttemptsPrefix(provider, history, init, recipient, maxRetries, k);
      assert init[..k] == parts[..k];
    }
  }

  /** Each part's attempts start from every call made for the parts before it. */
  lemma DigestAttemptsEach(provider: Provider, history: seq<DeliveryCall>, parts: seq<string>,
                           recipient: string, maxRetries: int)
    ensures var r := DigestAttempts(provider, history, parts, recipient, maxRetries);
      forall i :: 0 <= i < |parts| ==>
        r[i] == PartAttempts(provider, history + CallsOf(r[..i]), DeliveryCall(recipient, parts[i]), 0, maxRetries)
  {
    var r := DigestAttempts(provider, history, parts, recipient, maxRetries);
    forall i | 0 <= i < |parts|
      ensures r[i] == PartAttempts(provider, history + CallsOf(r[..i]), DeliveryCall(recipient, parts[i]), 0, maxRetries)
    {
      DigestAttemptsPrefix(provider, history, parts, recipient, maxRetries, i);
      DigestAttemptsPrefix(provider, history, parts, recipient, maxRetries, i + 1);
      DigestAttemptsSnoc(provider, history, parts, recipient, maxRetries, i);
      assert r[i] == r[..i + 1][i];
    }
  }

  /** One part: `for attempt in range(max_retries)`, stopping at the first
      send that does not raise, sleeping `2**attempt` after a failure that is
      not the last attempt. */
  method SendPart(provider: Provider, history: seq<DeliveryCall>, call: DeliveryCall, maxRetries: int)
    returns (a: Attempts)
    ensures a == PartAttempts(provider, history, call, 0, maxRetries)
  {
    ghost var whole := PartAttempts(provider, history, call, 0, maxRetries);
    var calls: seq<DeliveryCall> := [];
    var backoffs: seq<nat> := [];
    var attempt: nat := 0;
    assert history + calls == history;
    assert calls + whole.calls == whole.calls && backoffs + whole.backoffs == whole.backoffs;
    while attempt < maxRetries
      invariant var rest := PartAttempts(provider, history + calls, call, attempt, maxRetries);
        whole == Attempts(rest.sent, calls + rest.calls, backoffs + rest.backoffs)
      decreases maxRetries - attempt
    {
      var reply := provider(history + calls, call);
      ghost var rest := PartAttempts(provider, history + calls + [call], call, attempt + 1, maxRetries);
      if reply.Ok? {
        AppendEmpty(calls + [call]);
        return Attempts(true, calls + [call], backoffs);
      }
      AppendAssoc(calls, [call], rest.calls);
      AppendAssoc(history, calls, [call]);
      calls := calls + [call];
      if attempt < maxRetries - 1 {
        AppendAssoc(backoffs, [Pow2(attempt)], rest.backoffs);
        backoffs := backoffs + [Pow2(attempt)];
      } else {
        AppendEmpty(rest.backoffs);
      }
      attempt := attempt + 1;
    }
    AppendEmpty(calls);
    AppendEmpty(backoffs);
    return Attempts(false, calls, backoffs);
  }

  /** `send_digest`: every part in order with its own retries; the digest is
      delivered when no part failed. Also returns the calls made and the
      backoffs requested. */
  method SendDigest(parts: seq<string>, provider: Provider, history: seq<DeliveryCall>, recipient: string,
                    maxRetries: int)
    returns (delivered: bool, calls: seq<DeliveryCall>, backoffs: seq<nat>)
    ensures var r := DigestAttempts(provider, history, parts, recipient, maxRetries);
      && calls == CallsOf(r) && backoffs == BackoffsOf(r)
      && (delivered <==> FailedOf(r) == [])
  {
    var failedParts: seq<nat> := [];
    calls := [];
    backoffs := [];
    ghost var done: seq<Attempts> := [];
    for i := 0 to |parts|
      invariant done == DigestAttempts(provider, history, parts[..i], recipient, maxRetries)
      invariant calls == CallsOf(done) && backoffs == BackoffsOf(done) && failedParts == FailedOf(done)
    {
      var a := SendPart(provider, history + calls, DeliveryCall(recipient, parts[i]), maxRetries);
      DigestAttemptsSnoc(provider, history, parts, recipient, maxRetries, i);
      AttemptsSnoc(done, a);
      done := done + [a];
      calls := calls + a.calls;
      backoffs := backoffs + a.backoffs;
      if !a.sent {
        failedParts := failedParts + [i];
      }
    }
    assert parts[..|parts|] == parts;
    delivered := |failedParts| == 0;
  }

  /** The digest is delivered exactly when every part got through. */
  lemma DeliveredIff(provider: Provider, history: seq<DeliveryCall>, parts: seq<string>, recipient: string,
                     maxRetries: int)
    ensures var r := DigestAttempts(provider, history, parts, recipient, maxRetries);
      FailedOf(r) == [] <==> forall i :: 0 <= i < |r| ==> r[i].sent
  {
    var r := DigestAttempts(provider, history, parts, recipient, maxRetries);
    if FailedOf(r) != [] {
      assert FailedOf(r)[0] in FailedOf(r);
    }
  }

  /** A part that gets through was sent until its first accepted call and no
      more; a part that does not was tried `max_retries` times. */
  lemma PartCallCounts(provider: Provider, history: seq<DeliveryCall>, parts: seq<string>, recipient: string,
                       maxRetries: int)
    ensures var r := DigestAttempts(provider, history, parts, recipient, maxRetries);
      && (forall i :: 0 <= i < |r| && !r[i].sent ==> |r[i].calls| == if maxRetries > 0 then maxRetries else 0)
      && (forall i :: 0 <= i < |r| && r[i].sent ==> 1 <= |r[i].calls| <= maxRetries)
  {
    var r := DigestAttempts(provider, history, parts, recipient, maxRetries);
    DigestAttemptsEach(provider, history, parts, recipient, maxRetries);
    forall i | 0 <= i < |r|
      ensures !r[i].sent ==> |r[i].calls| == if maxRetries > 0 then maxRetries else 0
      ensures r[i].sent ==> 1 <= |r[i].calls| <= maxRetries
    {
      PartCount(provider, history + CallsOf(r[..i]), DeliveryCall(recipient, parts[i]), maxRetries);
    }
  }

  lemma PartCount(provider: Provider, history: seq<DeliveryCall>, call: DeliveryCall, maxRetries: int)
    ensures var a := PartAttempts(provider, history, call, 0, maxRetries);
      && (!a.sent ==> |a.calls| == if maxRetries > 0 then maxRetries else 0)
      && (a.sent ==> 1 <= |a.calls| <= maxRetries)
  {
    PartAttemptsShape(provider, history, call, 0, maxRetries);
  }

  /** Every part is attempted, failed ones do not stop the later ones:
      with at least one attempt allowed, each part's calls are made, in
      order, and all of them carry that part. */
  lemma EveryPartAttempted(provider: Provider, history: seq<DeliveryCall>, parts: seq<string>, recipient: string,
                           maxRetries: int)
    requires maxRetries >= 1
    ensures var r := DigestAttempts(provider, history, parts, recipient, maxRetries);
      forall i :: 0 <= i < |r| ==> |r[i].calls| >= 1 && r[i].calls[0] == DeliveryCall(recipient, parts[i])
  {
    var r := DigestAttempts(provider, history, parts, recipient, maxRetries);
    DigestAttemptsEach(provider, history, parts, recipient, maxRetries);
    forall i | 0 <= i < |r|
      ensures |r[i].calls| >= 1 && r[i].calls[0] == DeliveryCall(recipient, parts[i])
    {
      PartAttemptsShape(provider, history + CallsOf(r[..i]), DeliveryCall(recipient, parts[i]), 0, maxRetries);
    }
  }

  lemma {:induction false} CallsOfSingles(r: seq<Attempts>, parts: seq<string>, recipient: string)
    requires |r| == |parts|
    requires forall i :: 0 <= i < |r| ==> r[i].calls == [DeliveryCall(recipient, parts[i])] && r[i].backoffs == []
    ensures CallsOf(r) == seq(|parts|, i requires 0 <= i < |parts| => DeliveryCall(recipient, parts[i]))
    ensures BackoffsOf(r) == []
  {
    if r != [] {
      CallsOfSingles(r[..|r| - 1], parts[..|parts| - 1], recipient);
    }
  }

  /** With `max_retries = 1` every part is sent exactly once, in order, and
      nothing is slept; with no parts nothing is sent and the digest counts
      as delivered. */
  lemma SingleAttemptEach(provider: Provider, history: seq<DeliveryCall>, parts: seq<string>, recipient: string)
    ensures var r := DigestAttempts(provider, history, parts, recipient, 1);
      && CallsOf(r) == seq(|parts|, i requires 0 <= i < |parts| => DeliveryCall(recipient, parts[i]))
      && BackoffsOf(r) == []
    ensures DigestAttempts(provider, history, [], recipient, 1) == []
  {
    var r := DigestAttempts(provider, history, parts, recipient, 1);
    DigestAttemptsEach(provider, history, parts, recipient, 1);
    forall i | 0 <= i < |r|
      ensures r[i].calls == [DeliveryCall(recipient, parts[i])] && r[i].backoffs == []
    {
      PartAttemptsShape(provider, history + CallsOf(r[..i]), DeliveryCall(recipient, parts[i]), 0, 1);
    }
    CallsOfSingles(r, parts, recipient);
  }

  /** A mock failing its first two calls gets a single part through on the
      third of three attempts, after backoffs of 1 and 2 seconds. */
  lemma TransientFailureRetried()
    ensures var r := DigestAttempts(MockProvider(true, "mock_msg_123", None, 2, []), [], ["Part 1"], "+1", 3);
      |r| == 1 && r[0].sent && |r[0].calls| == 3 && r[0].backoffs == [1, 2]
  {
    var p := MockProvider(true, "mock_msg_123", None, 2, []);
    var c := DeliveryCall("+1", "Part 1");
    assert !HitsFragment([], "Part 1");
    MockProviderAnswers(true, "mock_msg_123", None, 2, [], [c, c], c);
    MockProviderAnswers(true, "mock_msg_123", None, 2, [], [c], c);
    MockProviderAnswers(true, "mock_msg_123", None, 2, [], [], c);
    ThirdAttemptSucceeds(p, c);
    SinglePartAttempts(p, "Part 1", "+1", 3);
  }

  /** Two refusals then a success, out of three attempts. */
  lemma ThirdAttemptSucceeds(p: Provider, c: DeliveryCall)
    requires p([], c).Err? && p([c], c).Err? && p([c, c], c).Ok?
    ensures PartAttempts(p, [], c, 0, 3) == Attempts(true, [c, c, c], [1, 2])
  {
    assert [] + [c] == [c] && [c] + [c] == [c, c];
    assert PartAttempts(p, [c, c], c, 2, 3) == Attempts(true, [c], []);
    assert PartAttempts(p, [c], c, 1, 3) == Attempts(true, [c, c], [2]);
  }

  /** A digest of one part is that part's attempts on a fresh history. */
  lemma SinglePartAttempts(p: Provider, part: string, recipient: string, maxRetries: int)
    ensures DigestAttempts(p, [], [part], recipient, maxRetries)
         == [PartAttempts(p, [], DeliveryCall(recipient, part), 0, maxRetries)]
  {
    assert [part][..0] == [];
  }
}
