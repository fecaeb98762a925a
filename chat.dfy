/**
 * The session registry of the chat domain: choosing the session identifier of a request,
 * and the process-wide table from session identifier to conversation entry, with
 * lookup-or-create semantics.
 */
module Chat {
  import opened Wrappers

  /** Number of stored turns the session memory's retriever brings back (`k`). */
  const RetrieverTopK: nat := 5

  /** The language model of the standard configuration: the default of `Registry`'s `model`. */
  const DefaultModel: string := "llama3.2"

  /** What the identifier generator (a random UUID rendered as text) returns: never empty. */
  type GeneratedId = s: string | s != "" witness "0"

  /** Retrieval settings of a session memory: the top `k` stored turns whose `session_id` equals `sessionFilter`. */
  datatype Retriever = Retriever(k: nat, sessionFilter: string)

  /**
   * A conversation entry: the model client paired with a session-scoped memory.
   * `id` stands for the entry's object identity: the ordinal of its construction.
   */
  datatype Entry = Entry(model: string, retriever: Retriever, id: nat)

  /** The registry's contents, together with the number of entries constructed so far. */
  datatype Table = Table(chains: map<string, Entry>, constructed: nat)

  /** The registry after one lookup, and the entry the lookup returned. */
  datatype Lookup = Lookup(table: Table, entry: Entry)

  /**
   * The request's session identifier: the caller's, when one was supplied and is non-empty,
   * otherwise a freshly generated one. An absent field and an explicit null are both `None`.
   */
  function GetSessionId(supplied: Option<string>, generated: GeneratedId): (r: string)
    ensures r != ""
    ensures supplied.Some? && supplied.value != "" ==> r == supplied.value
    ensures supplied.None? || supplied.value == "" ==> r == generated
  {
    if supplied.Some? && supplied.value != "" then supplied.value else generated
  }

  /** The retriever a new entry for `sessionId` is built with. */
  function SessionRetriever(sessionId: string): Retriever
  {
    Retriever(RetrieverTopK, sessionId)
  }

  /**
   * What a registry built only by lookups holds: every entry talks to `model` and retrieves
   * the top five turns of its own session; every constructed entry is still in the table
   * (there is no eviction); and distinct sessions hold distinct objects.
   */
  ghost predicate WellFormed(t: Table, model: string)
  {
    && |t.chains| == t.constructed
    && (forall s :: s in t.chains ==>
          t.chains[s].model == model && t.chains[s].retriever == SessionRetriever(s) && t.chains[s].id < t.constructed)
    && (forall s, u :: s in t.chains && u in t.chains && s != u ==> t.chains[s].id != t.chains[u].id)
  }

  /**
   * Lookup-or-create: return the entry for `sessionId`, constructing and registering one
   * when the session is new.
   */
  function LookupOrCreate(t: Table, model: string, sessionId: string): (r: Lookup)
    ensures sessionId in r.table.chains && r.table.chains[sessionId] == r.entry
    ensures sessionId in t.chains ==> r.table == t && r.entry == t.chains[sessionId]
    ensures sessionId !in t.chains ==>
              && r.entry == Entry(model, SessionRetriever(sessionId), t.constructed)
              && r.table.chains.Keys == t.chains.Keys + {sessionId}
              && (forall s :: s in t.chains ==> r.table.chains[s] == t.chains[s])
              && r.table.constructed == t.constructed + 1
    ensures WellFormed(t, model) ==> WellFormed(r.table, model)
    ensures WellFormed(t, model) ==> forall s :: s in t.chains && s != sessionId ==> t.chains[s].id != r.entry.id
  {
    if sessionId in t.chains then
      Lookup(t, t.chains[sessionId])
    else
      var e := Entry(model, SessionRetriever(sessionId), t.constructed);
      Lookup(Table(t.chains[sessionId := e], t.constructed + 1), e)
  }

  /** Two consecutive lookups of one session return the same entry, and the second changes nothing. */
  lemma RepeatedLookup(t: Table, model: string, sessionId: string)
    ensures var first := LookupOrCreate(t, model, sessionId);
            LookupOrCreate(first.table, model, sessionId) == first
  {
  }

  /** The registry after the lookups of `sessions`, one after another. */
  function Replay(t: Table, model: string, sessions: seq<string>): Table
    decreases |sessions|
  {
    if sessions == [] then t
    else Replay(LookupOrCreate(t, model, sessions[0]).table, model, sessions[1..])
  }

  /**
   * Over any run of lookups the registry only grows: it ends up holding exactly the sessions
   * it held plus those looked up, and every entry it held is kept as it was.
   */
  lemma {:induction false} ReplayGrowth(t: Table, model: string, sessions: seq<string>)
    ensures Replay(t, model, sessions).chains.Keys == t.chains.Keys + (set s | s in sessions)
    ensures forall s :: s in t.chains ==> Replay(t, model, sessions).chains[s] == t.chains[s]
    decreases |sessions|
  {
    if sessions != [] {
      var next := LookupOrCreate(t, model, sessions[0]).table;
      ReplayGrowth(next, model, sessions[1..]);
      assert (set s | s in sessions) == {sessions[0]} + (set s | s in sessions[1..]);
    }
  }

  /** Any run of lookups keeps the registry well formed. */
  lemma {:induction false} ReplayWellFormed(t: Table, model: string, sessions: seq<string>)
    requires WellFormed(t, model)
    ensures WellFormed(Replay(t, model, sessions), model)
    decreases |sessions|
  {
    if sessions != [] {
      ReplayWellFormed(LookupOrCreate(t, model, sessions[0]).table, model, sessions[1..]);
    }
  }

  /** The process-wide registry from session identifier to conversation entry. */
  class Registry {
    var chains: map<string, Entry>
    var constructed: nat
    const model: string

    ghost predicate Valid()
      reads this
    {
      WellFormed(Table(chains, constructed), model)
    }

    /** The empty registry of a fresh process. */
    constructor (model: string := DefaultModel)
      ensures Valid()
      ensures chains == map[] && constructed == 0 && this.model == model
    {
      this.model := model;
      chains := map[];
      constructed := 0;
    }

    /** Return the entry of `sessionId`, creating and inserting one first when there is none. */
    method GetConversationChain(sessionId: string) returns (e: Entry)
      requires Valid()
      modifies this
      ensures Valid()
      ensures Lookup(Table(chains, constructed), e) == LookupOrCreate(Table(old(chains), old(constructed)), model, sessionId)
    {
      if sessionId !in chains {
        var retriever := Retriever(RetrieverTopK, sessionId);
        chains := chains[sessionId := Entry(model, retriever, constructed)];
        constructed := constructed + 1;
      }
      e := chains[sessionId];
    }
  }
}
