/**
 * The HTTP layer of the chat service: input trimming, the shared-secret guard, the chat
 * request lifecycle over the session registry and the record store, and the protected
 * read and drop endpoints.
 */
module ApiRoutes {
  import opened Wrappers
  import opened Schemas
  import opened Chat

  // ---------------------------------------------------------------------------
  // Responses
  // ---------------------------------------------------------------------------

  /** The JSON body of a reply. */
  datatype Body =
    | ErrorText(error: string)                       // {"error": <message>}
    | InvalidFields(fields: set<string>)             // {"error": <messages keyed by field>}
    | ChatReply(sessionId: string, response: string) // {"session_id": ..., "response": ...}
    | Collection(records: seq<Record>)               // the raw store contents
    | DropSucceeded                                  // {"status": "success", "result": ...}
    | DropFailed(message: string)                    // {"status": "error", "message": ...}

  datatype Response = Response(status: nat, body: Body)

  /** A record of the vector store: its text and its `session_id` metadata. */
  datatype Record = Record(text: string, sessionId: string)

  /** The request body as the framework hands it over: unparsable (with the parser's message) or parsed. */
  datatype RawRequest = Unparsable(detail: string) | Parsed(json: Json)

  /** One invocation of the language model: the conversation entry used and the text sent. */
  datatype Prediction = Prediction(entry: Entry, input: string)

  /** The shared secret of the standard configuration: the default of `ChatApi`'s `secret`. */
  const DefaultSecretKey: string := "your-secret-key"

  const UnauthorizedResponse: Response := Response(401, ErrorText("Unauthorized access"))

  // ---------------------------------------------------------------------------
  // Trimming
  // ---------------------------------------------------------------------------

  /** The characters Python's `str.strip()` removes: the Unicode whitespace characters. */
  predicate IsSpace(c: char)
  {
    || '\t' <= c <= '\r'
    || '\U{1C}' <= c <= ' '
    || c == '\U{85}' || c == '\U{A0}' || c == '\U{1680}'
    || '\U{2000}' <= c <= '\U{200A}'
    || c == '\U{2028}' || c == '\U{2029}' || c == '\U{202F}' || c == '\U{205F}' || c == '\U{3000}'
  }

  /** Every character of `s` from `lo` up to (not including) `hi` is whitespace. */
  predicate SpaceBetween(s: string, lo: int, hi: int)
  {
    forall k :: lo <= k < hi && 0 <= k < |s| ==> IsSpace(s[k])
  }

  predicate AllSpace(s: string)
  {
    SpaceBetween(s, 0, |s|)
  }

  /** Neither the first nor the last character of `s` is whitespace. */
  predicate NoEdgeSpace(s: string)
  {
    s == [] || (!IsSpace(s[0]) && !IsSpace(s[|s| - 1]))
  }

  /** `r` sits in `s` at offset `i` with only whitespace before and after it. */
  predicate SplitAt(r: string, s: string, i: nat)
  {
    i + |r| <= |s| && s[i..i + |r|] == r && SpaceBetween(s, 0, i) && SpaceBetween(s, i + |r|, |s|)
  }

  /** `s` is `r` with whitespace added on either side. */
  ghost predicate Padded(r: string, s: string)
  {
    exists i: nat :: SplitAt(r, s, i)
  }

  /** The length of the longest all-whitespace prefix of `s`. */
  function LeadingSpace(s: string): (n: nat)
    ensures n <= |s| && SpaceBetween(s, 0, n)
    ensures n < |s| ==> !IsSpace(s[n])
  {
    if s == [] || !IsSpace(s[0]) then 0
    else 1 + LeadingSpace(s[1..])
  }

  /** The length of the longest all-whitespace suffix of `s`. */
  function TrailingSpace(s: string): (n: nat)
    ensures n <= |s| && SpaceBetween(s, |s| - n, |s|)
    ensures n < |s| ==> !IsSpace(s[|s| - n - 1])
  {
    if s == [] || !IsSpace(s[|s| - 1]) then 0
    else 1 + TrailingSpace(s[..|s| - 1])
  }

  /**
   * The user's text with leading and trailing whitespace removed: what is left carries no
   * whitespace at either end, is the text with only whitespace trimmed off, and is empty
   * exactly when the text was all whitespace.
   */
  function SanitizeInput(s: string): (r: string)
    ensures NoEdgeSpace(r)
    ensures Padded(r, s)
    ensures r == [] <==> AllSpace(s)
  {
    var i := LeadingSpace(s);
    var j := if i == |s| then i else |s| - TrailingSpace(s);
    assert SplitAt(s[i..j], s, i);
    s[i..j]
  }

  /** The whitespace prefix ends at the first non-whitespace character. */
  lemma LeadingSpaceAt(s: string, i: nat)
    requires i < |s| && SpaceBetween(s, 0, i) && !IsSpace(s[i])
    ensures LeadingSpace(s) == i
  {
  }

  /** The whitespace suffix starts after the last non-whitespace character. */
  lemma TrailingSpaceAt(s: string, i: nat)
    requires i < |s| && SpaceBetween(s, i + 1, |s|) && !IsSpace(s[i])
    ensures TrailingSpace(s) == |s| - i - 1
  {
  }

  /** Trimming is determined by its contract: any whitespace-free-edged core of `s` is what trimming returns. */
  lemma {:induction false} SanitizeInputUnique(r: string, s: string)
    requires Padded(r, s) && NoEdgeSpace(r)
    ensures SanitizeInput(s) == r
  {
    var i: nat :| SplitAt(r, s, i);
    if r != [] {
      assert s[i] == r[0] && s[i + |r| - 1] == r[|r| - 1];
      LeadingSpaceAt(s, i);
      TrailingSpaceAt(s, i + |r| - 1);
    }
  }

  /** Trimming twice is trimming once. */
  lemma {:induction false} SanitizeInputIdempotent(s: string)
    ensures SanitizeInput(SanitizeInput(s)) == SanitizeInput(s)
  {
    var r := SanitizeInput(s);
    assert r[0..0 + |r|] == r && r[..0] == [] && r[|r|..] == [];
    assert SplitAt(r, r, 0);
    SanitizeInputUnique(r, r);
  }

  // ---------------------------------------------------------------------------
  // The shared-secret guard
  // ---------------------------------------------------------------------------

  /**
   * The API-key guard wrapped around the protected endpoints: `None` lets the handler run,
   * otherwise the reply to send instead. A missing or empty header is refused even when it
   * matches the configured secret.
   */
  function RequireApiKey(apiKey: Option<string>, secret: string): (r: Option<Response>)
    ensures r.None? <==> apiKey == Some(secret) && secret != ""
    ensures r.Some? ==> r.value == UnauthorizedResponse
  {
    if apiKey.None? || apiKey.value == "" || apiKey.value != secret then Some(UnauthorizedResponse)
    else None
  }

  // ---------------------------------------------------------------------------
  // Loading a chat request
  // ---------------------------------------------------------------------------

  /**
   * Parse and validate a chat request body, or the 400 reply that rejects it. A body is
   * accepted exactly when it parses to an object whose `input` is a string, whose
   * `session_id`, if present, is a string or null, and which has no other members.
   */
  function LoadChatInput(request: RawRequest): (r: Result<ChatInput, Response>)
    ensures r.Success? <==>
              && request.Parsed? && request.json.JObject?
              && InputOk(request.json.members) && SessionIdOk(request.json.members)
              && request.json.members.Keys <= DeclaredFields
    ensures r.Success? ==>
              && r.value.input == request.json.members["input"].str
              && (r.value.sessionId.Some? <==>
                    "session_id" in request.json.members && request.json.members["session_id"].JString?)
              && (r.value.sessionId.Some? ==> r.value.sessionId.value == request.json.members["session_id"].str)
    ensures r.Failure? ==> r.error.status == 400
    ensures r.Failure? && request.Unparsable? ==> r.error.body == ErrorText("Invalid JSON input, " + request.detail)
    ensures r.Failure? && request.Parsed? ==> r.error.body.InvalidFields? && r.error.body.fields != {}
    ensures r.Failure? && request.Parsed? && !request.json.JObject? ==> r.error.body.fields == {SchemaKey}
    ensures r.Failure? && request.Parsed? && request.json.JObject? ==>
              && ("input" in r.error.body.fields <==> !InputOk(request.json.members))
              && ("session_id" in r.error.body.fields <==> !SessionIdOk(request.json.members))
  {
    match request
    case Unparsable(detail) => Failure(Response(400, ErrorText("Invalid JSON input, " + detail)))
    case Parsed(json) =>
      match Validate(json)
      case Success(input) => Success(input)
      case Failure(fields) => Failure(Response(400, InvalidFields(fields)))
  }

  // ---------------------------------------------------------------------------
  // The store
  // ---------------------------------------------------------------------------

  /** The two records that persist one exchange, both tagged with the session. */
  function ChatTurns(sessionId: string, userInput: string, reply: string): seq<Record>
  {
    [Record("User: " + userInput, sessionId), Record("Assistant: " + reply, sessionId)]
  }

  /**
   * The records a drop leaves behind: it deletes every record whose `session_id` is not the
   * empty string, so exactly the ones whose `session_id` is the empty string remain, as many
   * times as they were stored.
   */
  function KeptByDrop(records: seq<Record>): (r: seq<Record>)
    ensures forall x :: multiset(r)[x] == if x.sessionId == "" then multiset(records)[x] else 0
    ensures forall x :: x in r ==> x.sessionId == ""
  {
    if records == [] then []
    else
      assert records == [records[0]] + records[1..];
      (if records[0].sessionId == "" then [records[0]] else []) + KeptByDrop(records[1..])
  }

  /** Drop keeps the surviving records in their stored order. */
  lemma {:induction false} KeptByDropAppend(a: seq<Record>, b: seq<Record>)
    ensures KeptByDrop(a + b) == KeptByDrop(a) + KeptByDrop(b)
  {
    if a == [] {
      assert a + b == b;
    } else {
      assert (a + b)[0] == a[0] && (a + b)[1..] == a[1..] + b;
      KeptByDropAppend(a[1..], b);
    }
  }

  /** A second drop deletes nothing more. */
  lemma {:induction false} KeptByDropIdempotent(records: seq<Record>)
    ensures KeptByDrop(KeptByDrop(records)) == KeptByDrop(records)
  {
    if records != [] {
      var head := if records[0].sessionId == "" then [records[0]] else [];
      KeptByDropAppend(head, KeptByDrop(records[1..]));
      KeptByDropIdempotent(records[1..]);
    }
  }

  /** Drop deletes every record tagged with a session. */
  lemma AllTaggedDropped(records: seq<Record>)
    requires forall x :: x in records ==> x.sessionId != ""
    ensures KeptByDrop(records) == []
  {
    var r := KeptByDrop(records);
    forall x: Record ensures multiset(r)[x] == 0 {
      if x.sessionId == "" {
        assert x !in records;
      }
    }
    var none: multiset<Record> := multiset{};
    assert multiset(r) == none;
  }

  /** Drop removes an exchange the chat endpoint persisted, since the session it is tagged with is never empty. */
  lemma {:induction false} DropRemovesChatTurns(records: seq<Record>, sessionId: string, userInput: string, reply: string)
    requires sessionId != ""
    ensures KeptByDrop(records + ChatTurns(sessionId, userInput, reply)) == KeptByDrop(records)
  {
    var turns := ChatTurns(sessionId, userInput, reply);
    KeptByDropAppend(records, turns);
    AllTaggedDropped(turns);
  }

  // ---------------------------------------------------------------------------
  // The endpoints
  // ---------------------------------------------------------------------------

  /**
   * The HTTP endpoints over the shared state: the vector store (a sequence of records), the
   * session registry and the configured secret. `predictions` logs the calls made to the model.
   */
  class ChatApi {
    var store: seq<Record>
    ghost var predictions: seq<Prediction>
    const registry: Registry
    const secret: string

    ghost predicate Valid()
      reads this, registry
    {
      registry.Valid()
    }

    /** The endpoints over a store holding `persisted` and over `registry`. */
    constructor (registry: Registry, persisted: seq<Record>, secret: string := DefaultSecretKey)
      requires registry.Valid()
      ensures Valid()
      ensures this.secret == secret && this.registry == registry
      ensures store == persisted && predictions == []
    {
      this.secret := secret;
      this.registry := registry;
      store := persisted;
      predictions := [];
    }

    /**
     * POST /api/chat. `generated` is the identifier the generator would produce, `reply` what
     * the model call returns or the message of the exception it raises, and `write` whether
     * adding the two records to the store raises.
     */
    method Chat(request: RawRequest, generated: GeneratedId, reply: Result<string, string>, write: Outcome<string>)
      returns (resp: Response)
      requires Valid()
      modifies this, registry
      ensures Valid()
      ensures resp.status in {200, 400, 500}
      ensures resp.status == 200 ==> resp.body.ChatReply? && resp.body.sessionId != ""
      ensures resp.status != 200 || write.Fail? ==> store == old(store)
      ensures LoadChatInput(request).Failure? ==>
                && resp == LoadChatInput(request).error
                && store == old(store) && predictions == old(predictions)
                && registry.chains == old(registry.chains) && registry.constructed == old(registry.constructed)
      ensures LoadChatInput(request).Success? ==>
                var data := LoadChatInput(request).value;
                var sessionId := GetSessionId(data.sessionId, generated);
                var userInput := SanitizeInput(data.input);
                if userInput == "" then
                  && resp == Response(400, ErrorText("Input text is required"))
                  && store == old(store) && predictions == old(predictions)
                  && registry.chains == old(registry.chains) && registry.constructed == old(registry.constructed)
                else
                  var lookup := LookupOrCreate(Table(old(registry.chains), old(registry.constructed)), registry.model, sessionId);
                  && Table(registry.chains, registry.constructed) == lookup.table
                  && predictions == old(predictions) + [Prediction(lookup.entry, userInput)]
                  && match reply
                     case Failure(e) =>
                       && resp == Response(500, ErrorText("Error processing your request, " + e))
                       && store == old(store)
                     case Success(answer) =>
                       && resp == Response(200, ChatReply(sessionId, answer))
                       && store == old(store) + (if write.Pass? then ChatTurns(sessionId, userInput, answer) else [])
    {
      var loaded := LoadChatInput(request);
      if loaded.Failure? {
        return loaded.error;
      }
      var data := loaded.value;
      var sessionId := GetSessionId(data.sessionId, generated);
      var userInput := SanitizeInput(data.input);
      if userInput == "" {
        return Response(400, ErrorText("Input text is required"));
      }
      var chain := registry.GetConversationChain(sessionId);
      predictions := predictions + [Prediction(chain, userInput)];
      if reply.Failure? {
        return Response(500, ErrorText("Error processing your request, " + reply.error));
      }
      var responseText := reply.value;
      if write.Pass? {
        store := store + ChatTurns(sessionId, userInput, responseText);
      }
      return Response(200, ChatReply(sessionId, responseText));
    }

    /** GET /api/data. `reachable` says whether reading the collection succeeds. */
    method GetData(apiKey: Option<string>, reachable: bool) returns (resp: Response)
      ensures RequireApiKey(apiKey, secret).Some? ==> resp == UnauthorizedResponse
      ensures RequireApiKey(apiKey, secret).None? && reachable ==> resp == Response(200, Collection(store))
      ensures RequireApiKey(apiKey, secret).None? && !reachable ==> resp == Response(500, ErrorText("Unable to retrieve data"))
    {
      var guard := RequireApiKey(apiKey, secret);
      if guard.Some? {
        return guard.value;
      }
      if !reachable {
        return Response(500, ErrorText("Unable to retrieve data"));
      }
      return Response(200, Collection(store));
    }

    /** POST /api/drop. `delete` says whether the filtered delete raises, and with which message. */
    method Drop(apiKey: Option<string>, delete: Outcome<string>) returns (resp: Response)
      modifies this`store
      ensures RequireApiKey(apiKey, secret).Some? ==> resp == UnauthorizedResponse && store == old(store)
      ensures RequireApiKey(apiKey, secret).None? ==>
                match delete
                case Pass => resp == Response(200, DropSucceeded) && store == KeptByDrop(old(store))
                case Fail(message) => resp == Response(500, DropFailed(message)) && store == old(store)
    {
      var guard := RequireApiKey(apiKey, secret);
      if guard.Some? {
        return guard.value;
      }
      if delete.Fail? {
        return Response(500, DropFailed(delete.error));
      }
      store := KeptByDrop(store);
      return Response(200, DropSucceeded);
    }
  }
}
