# EboChatBot session registry and chat request lifecycle, in Dafny

This project models the part of the EboChatBot service that does real bookkeeping. The rest of the service is glue over Flask, LangChain, Ollama and Chroma. The model covers two parts:

- **The session registry** (`Chat`, from `domain/chat.py`). The request's session identifier is the caller's when one is given, otherwise a generated one. A process-wide table maps each session identifier to its conversation entry and works as lookup-or-create. An entry records the model it talks to and its retriever configuration: the top `k = 5` stored turns whose `session_id` equals the entry's session. The table is a `map<string, Entry>` held in the class `Chat.Registry`. Python object identity is modelled explicitly: each entry carries the ordinal of its construction, and the registry counts how many entries it has built.
- **The HTTP handlers** (`ApiRoutes`, from `presentation/api_routes.py`, with the request schema of `domain/schemas.py` in `Schemas`). These are input trimming, the `x-api-key` guard, and the chat lifecycle. The chat steps are: parse and validate, pick the session, trim, reject empty input, get or create the entry, call the model, store the exchange on a best-effort basis, and reply. The guard also wraps the protected read and drop endpoints. The vector store is a `seq<Record>` held in the class `ApiRoutes.ChatApi`. A reply is a `Response(status, body)`.

The model call, the store write, the store read, the store delete and the identifier generator are oracles. Each is passed to the handler as a parameter:

- the model returns `Success(reply)` or `Failure(message of the exception)`;
- a store call either passes or fails with a message;
- the generator returns a non-empty string (`Chat.GeneratedId`).

A failed store call is taken to leave the store as it was. Configuration values are constructor parameters. Their default values are the standard configuration's: `Chat.DefaultModel` (`"llama3.2"`) for the model of `Chat.Registry`, and `ApiRoutes.DefaultSecretKey` (`"your-secret-key"`) for the secret of `ApiRoutes.ChatApi`.

Behaviour of the code worth stating explicitly:

- The guard rejects when `not api_key or api_key != secret`. So access is granted only when the header equals the secret *and* the secret is non-empty. With an empty configured secret, every request is refused, including one that sends an empty header.
- `session_id` values that are absent, `null` or `""` are all replaced by a generated identifier.
- The empty-input check runs on the *trimmed* text. Python's `str.strip()` removes exactly the Unicode whitespace characters listed in `ApiRoutes.IsSpace`.
- A repeated lookup of one session returns the entry built by the first lookup. It builds no second entry.

## Model

| member | source | states |
|---|---|---|
| Chat.GetSessionId | domain/chat.py:50-55 | a supplied non-empty id is returned unchanged; an absent, null or empty one is replaced by the generated id; the result is never empty |
| Chat.LookupOrCreate | domain/chat.py:58-68 | afterwards the session is a key and the returned entry is its value. A known session leaves the table unchanged and returns the existing entry. A new session adds exactly that key, keeps every other entry, and builds an entry for the configured model with retriever `k = 5` filtered on the session. The new entry is a different object from every other entry. Well-formedness is preserved |
| Chat.RepeatedLookup | domain/chat.py:60-68 | two consecutive lookups of one session return the same entry, and the second changes nothing |
| Chat.ReplayGrowth | domain/chat.py:11-68 | after any run of lookups the table holds exactly its old keys plus the sessions looked up, and every old entry is kept as it was (no eviction) |
| Chat.ReplayWellFormed | domain/chat.py:58-68 | any run of lookups keeps the table well formed: one constructed entry per key, each filtered on its own session with `k = 5`, with distinct identities |
| Chat.Registry.constructor | domain/chat.py:11 | a new process starts with an empty, well-formed registry that has constructed nothing |
| Chat.Registry.GetConversationChain | domain/chat.py:58-68 | the in-place lookup-or-create leaves the table and the returned entry exactly as `LookupOrCreate` says, and keeps the registry well formed |
| Schemas.Validate | domain/schemas.py:4-6 | a body is accepted exactly when it is an object, `input` is a string, `session_id` is absent, a string or null, and there are no other members. The accepted input carries `input` and the string `session_id`, if any. A rejection names each violated field: a non-object body is reported under `_schema`, `input` when it is missing or not a string, `session_id` when it is neither a string nor null, and every unknown member |
| ApiRoutes.LeadingSpace | presentation/api_routes.py:51 | the count of leading whitespace characters: all of them are whitespace, and the next one is not |
| ApiRoutes.TrailingSpace | presentation/api_routes.py:51 | the count of trailing whitespace characters: all of them are whitespace, and the one before is not |
| ApiRoutes.SanitizeInput | presentation/api_routes.py:47-51 | the result has no leading or trailing whitespace; it is the input with only whitespace removed from the two ends; it is empty exactly when the input is all whitespace |
| ApiRoutes.SanitizeInputUnique | presentation/api_routes.py:47-51 | any substring that has only whitespace around it and no whitespace at its edges is what trimming returns |
| ApiRoutes.SanitizeInputIdempotent | presentation/api_routes.py:47-51 | trimming twice equals trimming once |
| ApiRoutes.RequireApiKey | presentation/api_routes.py:24-32 | the handler runs exactly when the header is present and equals the configured secret, and that secret is non-empty; otherwise the reply is `401 {"error": "Unauthorized access"}` |
| ApiRoutes.LoadChatInput | presentation/api_routes.py:60-68 | a request is accepted exactly when its body parses to an object whose `input` is a string, whose `session_id` is absent, a string or null, and which has no other members. It then yields that `input`, and the `session_id` exactly when it is a string. Every rejection is a 400. An unparsable body gives `"Invalid JSON input, <detail>"`. A parsed but invalid body names a non-empty set of fields: `_schema` for a non-object, `input` exactly when `input` is missing or not a string, and `session_id` exactly when it is present but neither a string nor null |
| ApiRoutes.KeptByDrop | presentation/api_routes.py:120 | after a drop, each record whose `session_id` is `""` remains exactly as many times as it was stored, and no other record remains |
| ApiRoutes.KeptByDropAppend | presentation/api_routes.py:120 | the drop filter distributes over concatenation, so surviving records keep their stored order |
| ApiRoutes.KeptByDropIdempotent | presentation/api_routes.py:120 | a second drop deletes nothing more |
| ApiRoutes.AllTaggedDropped | presentation/api_routes.py:120 | a store in which every record is tagged with a session is emptied by a drop |
| ApiRoutes.DropRemovesChatTurns | presentation/api_routes.py:83-92 | the two records a chat exchange appends are tagged with a non-empty session, so a drop removes them and leaves the rest as a drop of the old store would |
| ApiRoutes.ChatApi.constructor | infrastructure/vector_store/chroma_store.py:9-13 | the endpoints start over the persisted store contents and a well-formed registry, and the model has not been called |
| ApiRoutes.ChatApi.Chat | presentation/api_routes.py:58-96 | an invalid body gives 400 with nothing changed. Empty trimmed input gives `400 "Input text is required"`: no model call, store and registry unchanged. Otherwise the registry is looked up or created for the session and the model is called once with that entry and the trimmed text. A model failure gives 500 `"Error processing your request, <message>"` with the store unchanged. On success the reply is `200 {session_id, response}`. If the write passes, the store grows by exactly `User: <text>` then `Assistant: <reply>`, both tagged with the session; if the write fails, the store is unchanged. Every 200 carries a non-empty session id |
| ApiRoutes.ChatApi.GetData | presentation/api_routes.py:99-111 | without valid credentials, 401; otherwise 200 with the whole store, or `500 "Unable to retrieve data"` when the store cannot be read |
| ApiRoutes.ChatApi.Drop | presentation/api_routes.py:114-124 | without valid credentials, 401 with the store unchanged. Otherwise, when the delete passes: `200 {"status": "success"}`, and the store is exactly the records whose `session_id` is `""`, in order. When it fails: `500 {"status": "error", message}` with the store unchanged |

## Left out

- Flask and Flask-RESTX routing, the Swagger models and blueprint set-up: framework wiring (presentation/api_routes.py:18-20, 36-44).
- ApiRoutes.ChatApi.Chat: the bodies are what the handler returns before `marshal_with` reshapes them. Flask-RESTX marshals every return value of the chat handler through the response model, including the error bodies. Chat's contract does not describe that reshaping, because it is library behaviour.
- ApiRoutes.ChatApi.Chat: `conversation_chain.predict` is an oracle. Inside it, LangChain's retriever memory reads the stored turns of the session and saves its own document to the store. That write is not modelled, so "the store grows by exactly two records" counts only the handler's own `add_texts` call.
- ApiRoutes.ChatApi.Chat: the `str()` conversion in `sanitize_input` is not modelled. The schema guarantees that `input` is a string, so that branch cannot be reached from the handler.
- Schemas.Validate: the validation library's exact error-message texts are not modelled; only the keys they are reported under. Its defaults are assumed: unknown members are rejected, and a non-object body is reported under `_schema`.
- ApiRoutes.ChatApi.GetData: the collection is returned as the record sequence, not in the store library's own response format. Where the collection is looked up by its configured name is wiring.
- ApiRoutes.ChatApi.Drop: the value the store library's `delete` returns is not modelled. The success body only records `"status": "success"`.
- The language model: the model oracle of `ApiRoutes.ChatApi.Chat` stands for `ChatOllama` (domain/chat.py:6, 66), called through `ConversationChain.predict`, which may raise. The `OllamaLLM` class (infrastructure/llm/ollama_llm.py) is not used by the modelled code. It also never raises, because it turns every exception into an `"Error: …"` reply.
- The embedding stub (infrastructure/embeddings/local_nomic_embedder.py): the store's embedding function, which returns a constant floating-point vector. It is store-library behaviour and takes no part in the model.
- Records without a `session_id`: `Record` always carries a `session_id`. So the model does not cover what the store's `$ne ""` delete filter does with a record that lacks the key, such as the one the retriever memory writes.
- Similarity retrieval itself, and the store's persistence on disk: library behaviour. The model gives each entry only its retriever configuration.
- Configuration loading (config.py), application start-up and security headers (app.py), and the fixed 404/500 handlers (presentation/error_handlers.py): constants and wiring.
- The system prompt (domain/chat.py:14-48): text only. The prompt template built from it is never passed to the conversation chain.
- Randomness of the generated identifiers, logging, and the unsynchronised race between concurrent first lookups of one session. The model runs calls one at a time.
