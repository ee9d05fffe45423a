/**
 * The classifier step: a ticket's text goes to a hosted language model, whose
 * JSON reply is completed with defaults for missing fields; every failure
 * yields a fixed degraded classification instead of an exception.
 */
module AiProcessor {
  import opened Common

  /** What the hosted model did with one request. */
  datatype Reply =
    | CallFailed(error: string)            // the call raised (network, quota, a non-object reply, ...)
    | BadJson(error: string)               // the reply's content is not JSON; `error` is the decoder's message
    | JsonObject(fields: map<string, Json>)  // the reply decoded to a JSON object

  /** The fields every classification carries, in the order they are filled. */
  const RequiredFields: seq<string> := ["category", "urgency", "summary", "fix_steps", "response",
                                        "confidence", "escalation_required", "approval_status"]

  const RequiredFieldSet: set<string> := {"category", "urgency", "summary", "fix_steps", "response",
                                          "confidence", "escalation_required", "approval_status"}

  /** The keys the ingestor copies onto a ticket. */
  const CategoryKey: string := "category"
  const UrgencyKey: string := "urgency"
  const SummaryKey: string := "summary"
  const FixStepsKey: string := "fix_steps"
  const ResponseKey: string := "response"
  const ConfidenceKey: string := "confidence"
  const EscalationKey: string := "escalation_required"

  lemma RequiredFieldsListed()
    ensures forall f :: f in RequiredFieldSet <==> f in RequiredFields
    ensures |RequiredFields| == 8
  {
  }

  /** The value put in for a required field the model left out. */
  function DefaultFor(field: string): (r: Json)
    ensures r == JBool(false) || r == JStr("PENDING") || r == JStr("Unknown")
  {
    if field == "escalation_required" then JBool(false)
    else if field == "approval_status" then JStr("PENDING")
    else JStr("Unknown")
  }

  /** The reply with every missing required field set to its default. */
  function Filled(parsed: map<string, Json>): (r: map<string, Json>)
    ensures r.Keys == parsed.Keys + RequiredFieldSet
    ensures forall k :: k in parsed ==> r[k] == parsed[k]
    ensures forall k :: k in RequiredFieldSet && k !in parsed ==> r[k] == DefaultFor(k)
  {
    map k | k in parsed.Keys + RequiredFieldSet :: if k in parsed then parsed[k] else DefaultFor(k)
  }

  /** Filling a reply that is already complete changes nothing. */
  lemma FilledIdempotent(parsed: map<string, Json>)
    ensures Filled(Filled(parsed)) == Filled(parsed)
  {
  }

  /** The loop over a list of fields, filling each one that is missing. */
  method FillMissing(parsed: map<string, Json>, fields: seq<string>) returns (result: map<string, Json>)
    ensures forall k :: k in result <==> k in parsed || k in fields
    ensures forall k :: k in parsed ==> result[k] == parsed[k]
    ensures forall k :: k in result && k !in parsed ==> result[k] == DefaultFor(k)
  {
    result := parsed;
    for n := 0 to |fields|
      invariant forall k :: k in result <==> k in parsed || k in fields[..n]
      invariant forall k :: k in parsed ==> result[k] == parsed[k]
      invariant forall k :: k in result && k !in parsed ==> result[k] == DefaultFor(k)
    {
      var field := fields[n];
      assert fields[..n + 1] == fields[..n] + [field];
      if field !in result {
        result := result[field := DefaultFor(field)];
      }
    }
    assert fields[..|fields|] == fields;
  }

  /** The loop over the eight required fields. */
  method FillRequiredFields(parsed: map<string, Json>) returns (result: map<string, Json>)
    ensures result == Filled(parsed)
  {
    result := FillMissing(parsed, RequiredFields);
    RequiredFieldsListed();
    SameMap(result, Filled(parsed));
  }

  lemma SameMap<K, V>(a: map<K, V>, b: map<K, V>)
    requires forall k :: k in a <==> k in b
    requires forall k :: k in a ==> a[k] == b[k]
    ensures a == b
  {
  }

  const ApologyNoKey: string := "Good day,\n\nThank you for contacting InfinityWork Support. We are currently experiencing technical difficulties with our automated system. A support agent will review your message shortly.\n\nInfinityWork Support Team"
  const ApologyReceived: string := "Good day,\n\nThank you for contacting InfinityWork Support. Your message has been received and will be reviewed by our support team shortly.\n\nInfinityWork Support Team"

  /** The classification returned when no analysis could be made: category
      Other, urgency Medium, low confidence, escalation on, and an "error" key. */
  function Degraded(error: string, summary: string, fixSteps: string, response: string): (r: map<string, Json>)
    ensures r.Keys == DegradedKeys
  {
    map k | k in DegradedKeys ::
      if k == "error" then JStr(error)
      else if k == "summary" then JStr(summary)
      else if k == "fix_steps" then JStr(fixSteps)
      else if k == "response" then JStr(response)
      else DegradedConstant(k)
  }

  const DegradedKeys: set<string> := RequiredFieldSet + {"error"}

  /** The fields every degraded classification shares. */
  function DegradedConstant(k: string): Json {
    if k == "category" then JStr("Other")
    else if k == "urgency" then JStr("Medium")
    else if k == "confidence" then JStr("Low")
    else if k == "escalation_required" then JBool(true)
    else JStr("PENDING")
  }

  /** No key: the environment variable is absent or empty. */
  predicate HasApiKey(apiKey: Option<string>) {
    apiKey.Some? && apiKey.value != ""
  }

  /** The degraded classification when no key is configured. */
  function NoKeyClassification(): map<string, Json> {
    Degraded(NoKeyError, NoKeySummary, NoKeySteps, ApologyNoKey)
  }

  const NoKeyError: string := "OpenAI API key not configured"
  const NoKeySummary: string := "Unable to analyze - API key missing"
  const NoKeySteps: string := "1. Configure OpenAI API key\n2. Retry analysis"

  /** The degraded classification when the reply is not JSON. */
  function ParseFailureClassification(e: string): map<string, Json> {
    Degraded(ParseFailurePrefix + e, ParseFailureSummary, ParseFailureSteps, ApologyReceived)
  }

  const ParseFailurePrefix: string := "Failed to parse AI response: "
  const ParseFailureSummary: string := "AI analysis failed - manual review required"
  const ParseFailureSteps: string := "1. Review email manually\n2. Classify the issue\n3. Draft appropriate response"

  /** The degraded classification when the call raised. */
  function ErrorClassification(e: string): map<string, Json> {
    Degraded(ErrorPrefix + e, ErrorSummaryPrefix + e, ErrorSteps, ApologyReceived)
  }

  const ErrorPrefix: string := "AI processing error: "
  const ErrorSummaryPrefix: string := "Error during analysis: "
  const ErrorSteps: string := "1. Check OpenAI API status\n2. Verify API key\n3. Retry analysis"

  /** What the classifier returns for a ticket, given the configured key and the model's reply. */
  function Classification(apiKey: Option<string>, reply: Reply): (r: map<string, Json>)
    ensures RequiredFieldSet <= r.Keys
  {
    if !HasApiKey(apiKey) then NoKeyClassification()
    else
      match reply
      case JsonObject(fields) => Filled(fields)
      case BadJson(e) => ParseFailureClassification(e)
      case CallFailed(e) => ErrorClassification(e)
  }

  /** What every degraded classification shares: all required fields, the
      error text, category Other, urgency Medium, low confidence, escalation on. */
  predicate DegradedWith(c: map<string, Json>, error: string) {
    && RequiredFieldSet <= c.Keys && "error" in c && c["error"] == JStr(error)
    && c["category"] == JStr("Other") && c["urgency"] == JStr("Medium")
    && c["confidence"] == JStr("Low") && c["escalation_required"] == JBool(true)
    && c["approval_status"] == JStr("PENDING")
  }

  /** A degraded classification carries the shared fields and the given texts. */
  lemma DegradedShape(error: string, summary: string, fixSteps: string, response: string)
    ensures DegradedWith(Degraded(error, summary, fixSteps, response), error)
    ensures var c := Degraded(error, summary, fixSteps, response);
            c["summary"] == JStr(summary) && c["fix_steps"] == JStr(fixSteps) && c["response"] == JStr(response)
  {
  }

  lemma NoKeyDegraded()
    ensures DegradedWith(NoKeyClassification(), "OpenAI API key not configured")
    ensures NoKeyClassification()["summary"] == JStr("Unable to analyze - API key missing")
  {
    DegradedShape(NoKeyError, NoKeySummary, NoKeySteps, ApologyNoKey);
  }

  lemma ParseFailureDegraded(e: string)
    ensures DegradedWith(ParseFailureClassification(e), "Failed to parse AI response: " + e)
    ensures ParseFailureClassification(e)["summary"] == JStr("AI analysis failed - manual review required")
  {
    DegradedShape(ParseFailurePrefix + e, ParseFailureSummary, ParseFailureSteps, ApologyReceived);
  }

  /** The summary of the exception fallback names the exception's text. */
  lemma ErrorDegraded(e: string)
    ensures DegradedWith(ErrorClassification(e), "AI processing error: " + e)
    ensures ErrorClassification(e)["summary"] == JStr("Error during analysis: " + e)
  {
    DegradedShape(ErrorPrefix + e, ErrorSummaryPrefix + e, ErrorSteps, ApologyReceived);
  }

  /** The text of the "error" key a degraded classification carries. */
  function DegradedError(apiKey: Option<string>, reply: Reply): string {
    if !HasApiKey(apiKey) then "OpenAI API key not configured"
    else if reply.BadJson? then "Failed to parse AI response: " + reply.error
    else if reply.CallFailed? then "AI processing error: " + reply.error
    else ""
  }

  /** Without a usable model reply the classification is degraded: it carries all
      required fields and an "error" key naming the cause, and it always
      escalates, at low confidence, in category Other. */
  lemma DegradedClassification(apiKey: Option<string>, reply: Reply)
    requires !HasApiKey(apiKey) || !reply.JsonObject?
    ensures DegradedWith(Classification(apiKey, reply), DegradedError(apiKey, reply))
  {
    if !HasApiKey(apiKey) {
      NoKeyDegraded();
    } else if reply.BadJson? {
      ParseFailureDegraded(reply.error);
    } else {
      ErrorDegraded(reply.error);
    }
  }

  /** With a key and a decoded reply, the classification is the reply completed
      with defaults: the model's own fields are kept, including any "error" or
      "approval_status" it chose to send, and all required fields are present. */
  lemma ReplyFieldsKept(apiKey: Option<string>, fields: map<string, Json>)
    requires HasApiKey(apiKey)
    ensures var c := Classification(apiKey, JsonObject(fields));
            && RequiredFieldSet <= c.Keys
            && (forall k :: k in fields ==> k in c && c[k] == fields[k])
            && (forall k :: k in c && k !in fields ==> k in RequiredFieldSet && c[k] == DefaultFor(k))
  {
  }

  /** Whatever happens, the classification carries all eight required fields,
      and it has an "error" key exactly when the analysis degraded or the model
      itself sent one. */
  lemma ClassificationComplete(apiKey: Option<string>, reply: Reply)
    ensures RequiredFieldSet <= Classification(apiKey, reply).Keys
    ensures "error" in Classification(apiKey, reply) <==>
            !HasApiKey(apiKey) || !reply.JsonObject? || "error" in reply.fields
  {
    if !HasApiKey(apiKey) || !reply.JsonObject? {
      DegradedClassification(apiKey, reply);
    } else {
      ReplyFieldsKept(apiKey, reply.fields);
      assert "error" !in RequiredFieldSet;
    }
  }

  /**
   * `analyze_email`. The ticket fields only feed the prompt, whose wording is
   * not modelled; the reply stands for what the model answered to it.
   */
  method AnalyzeEmail(apiKey: Option<string>, reply: Reply) returns (result: map<string, Json>)
    ensures result == Classification(apiKey, reply)
  {
    if !HasApiKey(apiKey) {
      return NoKeyClassification();
    }
    match reply {
      case JsonObject(fields) =>
        result := FillRequiredFields(fields);
      case BadJson(e) =>
        result := ParseFailureClassification(e);
      case CallFailed(e) =>
        result := ErrorClassification(e);
    }
  }
}
