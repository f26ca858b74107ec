/** The language-model provider interface and its recording mock. A provider
    is seen from outside as a function from a request to a reply or a failure;
    the mock is a class whose state is the fixed reply, the error to raise and
    the log of calls. */
module LlmBase {
  import opened Wrappers
  import opened Text
  import opened Errors

  /** An image handed to the model: raw bytes, or an already encoded inline part. */
  datatype ImagePart = RawBytes(bytes: seq<bv8>) | InlineData(mimeType: string, data: string)

  /** The arguments of `generate`. */
  datatype LlmRequest = LlmRequest(prompt: string, system: string, images: Option<seq<ImagePart>>)

  /** What a provider does with a request, as seen by its callers. */
  type Provider = LlmRequest -> Result<string, Failure>

  /** One logged call of the mock. */
  datatype LlmCall = LlmCall(prompt: string, system: string, images: Option<seq<ImagePart>>, response: string)

  /** The mock's reply: the configured error if there is one, else the fixed text. */
  function MockReply(response: string, error: Option<XDigestError>): (r: Result<string, Failure>)
    ensures error.Some? <==> r.Err?
    ensures error.Some? ==> r == Err(Raised(error.value))
    ensures error.None? ==> r == Ok(response)
  {
    if error.Some? then Err(Raised(error.value)) else Ok(response)
  }

  /** The number of whitespace-separated words, as `len(text.split())` counts them. */
  function WordCount(s: string): (n: nat)
    ensures n <= |s|
    ensures (forall i :: 0 <= i < |s| ==> IsSpace(s[i])) ==> n == 0
  {
    if s == [] then 0
    else
      var starts := !IsSpace(s[|s| - 1]) && (|s| == 1 || IsSpace(s[|s| - 2]));
      WordCount(s[..|s| - 1]) + (if starts then 1 else 0)
  }

  class MockLLMProvider {
    var response: string
    var error: Option<XDigestError>
    var calls: seq<LlmCall>

    constructor(response: string, error: Option<XDigestError>)
      ensures this.response == response && this.error == error && calls == []
    {
      this.response := response;
      this.error := error;
      calls := [];
    }

    /** `generate`: logs the call (with an empty response when failing), then
        raises the configured error or returns the fixed text. */
    method Generate(req: LlmRequest) returns (r: Result<string, Failure>)
      modifies this
      ensures response == old(response) && error == old(error)
      ensures calls == old(calls) + [LlmCall(req.prompt, req.system, req.images,
                                             if old(error).Some? then "" else old(response))]
      ensures r == MockReply(response, error)
    {
      calls := calls + [LlmCall(req.prompt, req.system, req.images, if error.Some? then "" else response)];
      if error.Some? {
        return Err(Raised(error.value));
      }
      return Ok(response);
    }

    /** `count_tokens`: 1.3 tokens per word, truncated. */
    function CountTokens(text: string): (n: nat)
      ensures n == (13 * WordCount(text)) / 10
      ensures WordCount(text) <= n
    {
      (13 * WordCount(text)) / 10
    }

    method Reset()
      modifies this
      ensures calls == [] && response == old(response) && error == old(error)
    {
      calls := [];
    }

    method SetResponse(response: string)
      modifies this
      ensures this.response == response && error == None && calls == old(calls)
    {
      this.response := response;
      error := None;
    }

    method SetError(error: XDigestError)
      modifies this
      ensures this.error == Some(error) && response == old(response) && calls == old(calls)
    {
      this.error := Some(error);
    }
  }
}
