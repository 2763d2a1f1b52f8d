/**
 * `parseTransaction`: the caller's text is embedded in a fixed prompt, the
 * language model is asked once, and its raw reply goes through a two-step
 * gate (JSON syntax, then the `transactions` array) before it is passed back
 * unchanged.
 *
 * The model call and `JSON.parse` are parameters: `complete(prompt)` is the
 * reply's text, or None when the upstream call fails; `jsonParse(raw)` is the
 * parsed value, or None when `JSON.parse` throws.
 */
module AiController {
  import opened Wrappers
  import opened Json

  /** The fixed instructions of the prompt template, up to the line that quotes the text. */
  const Instructions: string :=
    "\n            You are a finance assistant.\n\n"
    + "            Extract ALL financial events from the text below.\n\n"
    + "            Return ONLY valid JSON in this exact format:\n\n"
    + "            {\n"
    + "              \"transactions\": [\n"
    + "                {\n"
    + "                  \"type\": \"income or expense\",\n"
    + "                  \"amount\": number,\n"
    + "                  \"category\": string,\n"
    + "                  \"description\": string,\n"
    + "                  \"paymentMethod\": \"cash | card | upi | bank | null\",\n"
    + "                  \"confidence\": number between 0 and 1\n"
    + "                }\n"
    + "              ]\n"
    + "            }\n\n"
    + "            Text:\n"
    + "            "

  const OpenDelimiter: string := "\"\"\" "
  const CloseDelimiter: string := " \"\"\""
  /** The indentation of the template's last line. */
  const Trailer: string := "\n            "

  /** The prompt for one request. */
  function Prompt(text: string): string
  {
    Instructions + OpenDelimiter + text + CloseDelimiter + Trailer
  }

  /** Slicing a concatenation of five pieces at the piece boundaries gives the pieces back. */
  lemma FivePieces(a: string, b: string, c: string, d: string, e: string)
    ensures var s := a + b + c + d + e; var i, j, k := |a|, |a| + |b|, |a| + |b| + |c|;
      && |s| == k + |d| + |e|
      && s[..i] == a && s[i..j] == b && s[j..k] == c && s[k..k + |d|] == d && s[k + |d|..] == e
  {
    var s := a + b + c + d + e;
    var i, j, k := |a|, |a| + |b|, |a| + |b| + |c|;
    assert s == (a + b + c + d) + e;
    assert s == ((a + b + c) + d) + e;
    assert s == (((a + b) + c) + d) + e;
    assert s[..i] == a by { forall n | 0 <= n < i ensures s[n] == a[n] { } }
    assert s[i..j] == b by { forall n | 0 <= n < |b| ensures s[i + n] == b[n] { } }
    assert s[j..k] == c by { forall n | 0 <= n < |c| ensures s[j + n] == c[n] { } }
    assert s[k..k + |d|] == d by { forall n | 0 <= n < |d| ensures s[k + n] == d[n] { } }
    assert s[k + |d|..] == e by { forall n | 0 <= n < |e| ensures s[k + |d| + n] == e[n] { } }
  }

  /** The caller's text stands verbatim in the prompt, right between the `"""` delimiters, after the fixed instructions. */
  lemma PromptQuotesText(text: string)
    ensures var p := Prompt(text); var i := |Instructions|; var k := i + |OpenDelimiter|;
      && |p| == k + |text| + |CloseDelimiter| + |Trailer|
      && p[..i] == Instructions
      && p[i..k] == OpenDelimiter
      && p[k..k + |text|] == text
      && p[k + |text|..k + |text| + |CloseDelimiter|] == CloseDelimiter
  {
    FivePieces(Instructions, OpenDelimiter, text, CloseDelimiter, Trailer);
  }

  /** Different texts give different prompts: nothing of the text is lost or altered. */
  lemma PromptInjective(a: string, b: string)
    requires Prompt(a) == Prompt(b)
    ensures a == b
  {
    PromptQuotesText(a);
    PromptQuotesText(b);
  }

  /** The four answers of the handler. */
  datatype AiResponse =
    | InvalidJson(raw: string)     // 400, the raw reply kept for diagnosis
    | InvalidFormat(raw: string)   // 400, the raw reply kept for diagnosis
    | Accepted(body: JsonValue)    // 200, the parsed reply as it is
    | ProcessingError              // 500, nothing of the reply
  {
    function Status(): int
    {
      match this
      case InvalidJson(_) => 400
      case InvalidFormat(_) => 400
      case Accepted(_) => 200
      case ProcessingError => 500
    }

    function Message(): Option<string>
    {
      match this
      case InvalidJson(_) => Some("AI returned invalid JSON")
      case InvalidFormat(_) => Some("Invalid AI response format")
      case Accepted(_) => None
      case ProcessingError => Some("AI Processing Error")
    }
  }

  /**
   * `parseTransaction`. A parsed `null` makes the property read throw, which
   * the outer handler turns into 500.
   */
  function ParseTransaction(text: string, complete: string -> Option<string>, jsonParse: string -> Option<JsonValue>): (r: AiResponse)
    ensures r.Accepted? ==> WellShaped(r.body)
    ensures r.InvalidJson? || r.InvalidFormat? ==> complete(Prompt(text)) == Some(r.raw)
  {
    match complete(Prompt(text))
    case None => ProcessingError
    case Some(raw) =>
      match jsonParse(raw)
      case None => InvalidJson(raw)
      case Some(parsed) =>
        if parsed.JNull? then ProcessingError
        else
          var transactions := Property(parsed, "transactions");
          if !Truthy(transactions) || !IsArray(transactions) then InvalidFormat(raw)
          else Accepted(parsed)
  }

  /** The reply shape the gate lets through: an object whose `transactions` is an array. */
  predicate WellShaped(v: JsonValue)
  {
    v.JObject? && "transactions" in v.fields && v.fields["transactions"].JArray?
  }

  /**
   * The handler depends on the model only through one call with `Prompt(text)`:
   * two models that agree on that prompt give the same answer.
   */
  lemma SingleModelCall(text: string, c1: string -> Option<string>, c2: string -> Option<string>, jsonParse: string -> Option<JsonValue>)
    requires c1(Prompt(text)) == c2(Prompt(text))
    ensures ParseTransaction(text, c1, jsonParse) == ParseTransaction(text, c2, jsonParse)
  {
  }

  /** Text that `JSON.parse` rejects gives 400 "AI returned invalid JSON" with the raw text unchanged. */
  lemma InvalidJsonKeepsRaw(text: string, complete: string -> Option<string>, jsonParse: string -> Option<JsonValue>)
    ensures var r := ParseTransaction(text, complete, jsonParse);
      r.InvalidJson? <==> complete(Prompt(text)).Some? && jsonParse(complete(Prompt(text)).value).None?
    ensures var r := ParseTransaction(text, complete, jsonParse);
      r.InvalidJson? ==> r.raw == complete(Prompt(text)).value && r.Status() == 400
  {
  }

  /**
   * Parseable text whose value is not `null` and not well shaped (no
   * `transactions`, a falsy one, or one that is not an array) gives 400
   * "Invalid AI response format" with the raw text; the message differs from
   * the invalid-JSON one.
   */
  lemma WrongShapeKeepsRaw(text: string, complete: string -> Option<string>, jsonParse: string -> Option<JsonValue>)
    ensures var r := ParseTransaction(text, complete, jsonParse);
      r.InvalidFormat? <==>
        && complete(Prompt(text)).Some?
        && var parsed := jsonParse(complete(Prompt(text)).value);
           parsed.Some? && !parsed.value.JNull? && !WellShaped(parsed.value)
    ensures var r := ParseTransaction(text, complete, jsonParse);
      r.InvalidFormat? ==> r.raw == complete(Prompt(text)).value && r.Status() == 400
    ensures InvalidFormat("").Message() != InvalidJson("").Message()
  {
  }

  /**
   * A well-shaped reply is answered with 200 and the parsed value itself: no
   * entry is dropped or changed, and an empty array is accepted.
   */
  lemma AcceptedUnchanged(text: string, complete: string -> Option<string>, jsonParse: string -> Option<JsonValue>)
    ensures var r := ParseTransaction(text, complete, jsonParse);
      r.Accepted? <==>
        && complete(Prompt(text)).Some?
        && var parsed := jsonParse(complete(Prompt(text)).value);
           parsed.Some? && WellShaped(parsed.value)
    ensures var r := ParseTransaction(text, complete, jsonParse);
      r.Accepted? ==> r.Status() == 200 && Some(r.body) == jsonParse(complete(Prompt(text)).value)
  {
  }

  /** An upstream failure, or a reply that parses to `null`, is a bare 500 "AI Processing Error". */
  lemma ProcessingErrorCases(text: string, complete: string -> Option<string>, jsonParse: string -> Option<JsonValue>)
    ensures var r := ParseTransaction(text, complete, jsonParse);
      r.ProcessingError? <==>
        complete(Prompt(text)).None? || jsonParse(complete(Prompt(text)).value) == Some(JNull)
    ensures var r := ParseTransaction(text, complete, jsonParse);
      r.ProcessingError? ==> r.Status() == 500 && r.Message() == Some("AI Processing Error")
  {
  }

  /** A reply `{"transactions": []}` is accepted as it is. */
  lemma EmptyListAccepted(text: string, complete: string -> Option<string>, jsonParse: string -> Option<JsonValue>)
    requires complete(Prompt(text)).Some?
    requires jsonParse(complete(Prompt(text)).value) == Some(JObject(map["transactions" := JArray([])]))
    ensures ParseTransaction(text, complete, jsonParse) == Accepted(JObject(map["transactions" := JArray([])]))
  {
  }
}
