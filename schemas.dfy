/**
 * The chat request schema: the body must be a JSON object whose `input` is a string and
 * whose optional `session_id` is a string or null; any other member is rejected.
 */
module Schemas {
  import opened Wrappers

  /** A parsed JSON value, as far as the schema inspects it; numbers, booleans and arrays are `JOther`. */
  datatype Json = JNull | JString(str: string) | JObject(members: map<string, Json>) | JOther

  /** The validated chat request. An absent `session_id` and an explicit null are both `None`. */
  datatype ChatInput = ChatInput(sessionId: Option<string>, input: string)

  /** The error key under which a body that is not an object is reported. */
  const SchemaKey: string := "_schema"

  /** The fields the schema declares. */
  const DeclaredFields: set<string> := {"session_id", "input"}

  predicate InputOk(members: map<string, Json>)
  {
    "input" in members && members["input"].JString?
  }

  predicate SessionIdOk(members: map<string, Json>)
  {
    "session_id" !in members || members["session_id"].JString? || members["session_id"].JNull?
  }

  /** The names of the members that violate the schema, each reported under its own key. */
  function ViolatedFields(members: map<string, Json>): set<string>
  {
    (set k | k in members && k !in DeclaredFields)
    + (if InputOk(members) then {} else {"input"})
    + (if SessionIdOk(members) then {} else {"session_id"})
  }

  /**
   * Load a chat request body: either the validated input or the set of keys under which
   * errors are reported.
   */
  function Validate(j: Json): (r: Result<ChatInput, set<string>>)
    ensures r.Success? <==>
              && j.JObject?
              && "input" in j.members && j.members["input"].JString?
              && ("session_id" in j.members ==> j.members["session_id"].JString? || j.members["session_id"].JNull?)
              && j.members.Keys <= DeclaredFields
    ensures r.Success? ==>
              && r.value.input == j.members["input"].str
              && r.value.sessionId == if "session_id" in j.members && j.members["session_id"].JString?
                                      then Some(j.members["session_id"].str) else None
    ensures r.Failure? ==> r.error != {}
    ensures r.Failure? && !j.JObject? ==> r.error == {SchemaKey}
    ensures r.Failure? && j.JObject? ==>
              && ("input" in r.error <==> !("input" in j.members && j.members["input"].JString?))
              && ("session_id" in r.error <==>
                    "session_id" in j.members && !j.members["session_id"].JString? && !j.members["session_id"].JNull?)
              && (forall k :: k !in DeclaredFields ==> (k in r.error <==> k in j.members))
  {
    match j
    case JObject(members) =>
      var errors := ViolatedFields(members);
      if errors != {} then Failure(errors)
      else
        var sessionId := if "session_id" in members && members["session_id"].JString?
                         then Some(members["session_id"].str) else None;
        Success(ChatInput(sessionId, members["input"].str))
    case _ => Failure({SchemaKey})
  }
}
