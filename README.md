# os-buddy tutoring backend, modelled in Dafny

os-buddy is a small Flask tutoring chatbot for operating-systems questions. It has four core pieces, and each one is modelled here:

- **Chat-turn orchestration** (`app.py`, module `App`). A `POST /chat` turn rejects an empty message. It picks the session id, loads the session and replaces it with a fresh record if it has no messages. It then appends the user turn, asks the agent, appends the assistant turn, derives the title and saves. Any exception becomes a fixed error reply. The routes `GET /sessions` and `POST /sessions/new` are modelled too.
- **The agent** (`agent.py`, module `Agent`). It checks for the `GROQ_API_KEY` credential and renders the last 10 messages as `Role: content` lines. It builds the prompt and gives the outcome one of three labels.
- **The session store** (`tools/db.py`, module `Db`). Class `MongoDBManager` works over a map from session id to document and has a "no database" mode. Its upsert follows MongoDB's `$set` semantics. Unknown ids get the default `{"messages": []}`, and backend errors are swallowed.
- **The lazy index cache** (`tools/pdf_query_tools.py`, module `PdfQueryTools`). The global `vector_store` is built at most once successfully, from the PDFs that pass the filename filter. A query returns the top 3 passages joined with a blank line, or a fixed "no documents" text.

Module `Records` holds the document shapes. A Python dictionary key that may be absent becomes an `Option` field.

Foreign code is passed in as parameters, so each call is an oracle:
- the Groq model: `llm: string -> LlmReply`, which either answers or raises;
- the agent as `chat()` sees it: `(message, history) -> (response, thoughts)`;
- the MongoDB driver: a `fault` flag per store operation, plus whether `MongoClient` raised;
- `uuid4()` and the clocks: a fresh id and two clock readings. Readings are integers, and only their order matters;
- `os.listdir`, `os.path.exists`, `FAISS.load_local`, `pymupdf4llm.to_markdown` and `similarity_search`: fields of `PdfIndexCache` for the file system, and parameters for the rest.

The code itself has these limits:
- There is no local-file fallback store. Without a database nothing is kept, although the store announces an in-memory fallback.
- Sessions are not scoped by owner, and the store has no delete.
- The agent runs the language model alone. It applies no keyword guardrail and adds no retrieved passages to the prompt.
- `initialize_vector_store` is not idempotent on its own. Only `query_pdfs` checks `vector_store is None` before calling it.

## Model

| member | source | states |
|---|---|---|
| Records.SetFields | tools/db.py:56-60 | `$set`: every field present in the update holds its new value afterwards, and an absent field keeps the stored value |
| Db.InsertNewestFirst | tools/db.py:37 | inserting into a newest-first list keeps it newest first (missing timestamps last), adds exactly the new document and keeps the documents distinct |
| Db.Lookup | tools/db.py:46 | `find_one(...) or {"messages": []}`: an unknown id (or an empty document) gives the default record, and otherwise the stored document |
| Db.Upserted | tools/db.py:54-60 | the upserted document has every field of the update, applied over the stored document when there is one |
| Db.MongoDBManager.constructor | tools/db.py:14-30 | connected exactly when `MONGO_URI` is set, non-empty and `MongoClient` did not raise; with no connection the collection is empty |
| Db.MongoDBManager.GetSessions | tools/db.py:32-41 | no database or a backend error gives `[]`; otherwise every stored session appears exactly once, each under its own id, newest first |
| Db.MongoDBManager.GetSession | tools/db.py:43-49 | no database, a backend error or an unknown id gives `{"messages": []}`; a stored session is returned as stored |
| Db.MongoDBManager.SaveSession | tools/db.py:51-62 | with no database nothing changes and every later read gives the default record; otherwise `"id"` is stamped into the caller's record, and without an error the record is upserted under that id while other ids stay unchanged, so a later read agrees with every saved field |
| Agent.HasKey | agent.py:9-10 | the credential counts as present exactly when `GROQ_API_KEY` is set and not empty (`not api_key`) |
| Agent.Window | agent.py:26 | the window is the last `min(10, n)` messages of the history, in order |
| Agent.RoleLabel | agent.py:28 | the label is `User` exactly when the role is `"user"`, and `Assistant` for every other role (including `"ai"`) |
| Agent.Line | agent.py:29-30 | a rendered turn is never empty and ends with a newline |
| Agent.HistoryText | agent.py:24-30 | the rendered history: the `Role: content` line of each message of the window, oldest first, with no separator beyond each line's newline |
| Agent.FormatHistory | agent.py:24-30 | the accumulating loop builds `HistoryText` of the window: the lines of the messages, oldest first |
| Agent.HistoryTextAppend | agent.py:27-30 | rendering distributes over concatenation of message sequences |
| Agent.HistoryTextCons | agent.py:27-30 | rendering a history with one more message at the front puts that message's line first |
| Agent.HistoryTextEmptyIff | agent.py:24-30 | the history text is empty if and only if the window is empty |
| Agent.CurrentTurnIsLastLine | agent.py:26-30 | when the history ends with the user's turn, as `chat()` passes it, the rendered window ends with `User: <message>` and a newline |
| Agent.Prompt | agent.py:32-66 | the prompt is the fixed text with the history text and the question at fixed offsets, and it contains both |
| Agent.PromptSeparates | agent.py:32-66 | with the question fixed, different histories give different prompts; with the history fixed, different questions do |
| Agent.Agent | agent.py:7-73 | a missing or empty key gives the configuration error and calls no model; otherwise the model gets exactly the assembled prompt, an answer is labelled as internal knowledge, and a raised error becomes `Error contacting Groq API: ...` with `API Call Failed` |
| App.Crash | app.py:125-128 | the exception reply is `System Error: ` followed by the error text, with thoughts `Backend Crash` and no session id |
| App.MessageOf | app.py:74 | the user message is the body's `message` field, or `""` when the key is absent |
| App.ResolveSessionId | app.py:75-82 | a missing or empty session id is replaced by the fresh one, otherwise kept; the result is never empty |
| App.DeriveTitle | app.py:94 | the derived title is the first `min(30, n)` characters of the message followed by `...`, at most 33 characters, and never `New Chat` |
| App.TurnHistory | app.py:104-107 | the history handed to the agent is the prior messages followed by the just-appended user turn |
| App.FreshRecord | app.py:93-98 | the replacement record: derived title, the two clock readings and an empty message list, with no `id` |
| App.TurnRecord | app.py:92-114 | the saved record has the prior messages plus exactly `user` then `ai` at the end, fresh timestamps, and the id and title of the loaded session. A session without messages is replaced, which drops its fields and takes the derived title; a `New Chat` title is rewritten |
| App.PrepareTurn | app.py:72-114 | an unparsable body gives the crash reply and an empty message the fixed `Empty input` reply; otherwise the turn loads the session under the resolved id, calls the agent with the turn history and produces the turn record |
| App.Chat | app.py:69-128 | short paths leave the store unchanged; a turn replies with the agent's answer and the resolved session id, upserts the turn record under that id (with a database and no error), and a later read shows the prior messages plus the two new ones |
| App.ChatWithoutDatabase | app.py:84-118 | with no database every turn shows the agent only the current message, and nothing is stored |
| App.ChatAsWritten | app.py:118 | as written, every turn with a non-empty message ends in the crash reply carrying the `TypeError` of the three-argument `save_session` call |
| App.Summarize | app.py:37-41 | one list entry: the stored `id` (or none), the title with default `New Chat`, the timestamp with default 0 |
| App.FormatSessions | app.py:35-42 | the list keeps the store's order and length; each entry has the id, the title (default `New Chat`) and the timestamp (default 0) |
| App.SessionsRoute | app.py:30-42 | no database gives `[]`; otherwise each stored session is summarised exactly once, ids are distinct, and timestamps are non-increasing when no stored timestamp is negative |
| App.SessionsRouteAsWritten | app.py:33 | as written, the route raises the `TypeError` of `get_sessions(user_id)`, with no `try` around it |
| App.NewChatRecord | app.py:49-54 | the record `new_session()` creates: title `New Chat`, the two clock readings and no messages |
| App.NewSession | app.py:44-56 | returns the fresh id and upserts a `New Chat` record with no messages under it, so a later read shows that title and an empty history |
| App.NewSessionAsWritten | app.py:55 | as written, the route always ends in the `TypeError` of the three-argument `save_session` call, which Flask turns into a 500; the call raises before any write, so the model changes no state |
| App.FirstTurnAfterNewSession | app.py:92-98 | a session created by `new_session` is replaced on its first turn: its title is derived from the message and its messages are exactly the two new turns |
| PdfQueryTools.Indexable | tools/pdf_query_tools.py:38-40 | a listed file is indexed exactly when its name ends with `.pdf` and contains neither `Finance` nor `budget` (case-sensitive substring tests) |
| PdfQueryTools.Corpus | tools/pdf_query_tools.py:37-53 | the documents built from the directory listing, in listing order, one per indexable file holding its markdown and its name as source; never more documents than entries |
| PdfQueryTools.CorpusSelects | tools/pdf_query_tools.py:37-53 | every built document comes from a listed, indexable file and holds that file's markdown; every indexable listed file yields its document |
| PdfQueryTools.CorpusEmptyIff | tools/pdf_query_tools.py:55-57 | no document is built if and only if no listed file passes the filter |
| PdfQueryTools.FilterExamples | tools/pdf_query_tools.py:38-42 | the `.pdf` suffix and the `Finance`/`budget` exclusions are case-sensitive: `x.PDF` is skipped, `Budget.pdf` is kept |
| PdfQueryTools.Take | tools/pdf_query_tools.py:91 | at most 3 results, the best-ranked ones, and exactly 3 when the ranking has that many |
| PdfQueryTools.Join | tools/pdf_query_tools.py:93 | `sep.join(parts)`: the parts in order with the separator between neighbours, `""` for no parts |
| PdfQueryTools.JoinPlacesPart | tools/pdf_query_tools.py:93 | each passage sits at its offset in the `"\n\n"`-joined text, so the passages keep their rank order |
| PdfQueryTools.Initialised | tools/pdf_query_tools.py:14-57 | what initialisation sets `vector_store` to: the saved index when it loads, else an index of the built corpus; it sets nothing if and only if the load did not happen or failed and no listed file passes the filter |
| PdfQueryTools.PdfIndexCache.constructor | tools/pdf_query_tools.py:9 | at import time `vector_store` is `None` |
| PdfQueryTools.PdfIndexCache.InitializeVectorStore | tools/pdf_query_tools.py:14-77 | a saved index that loads is used, with no scan and no build; otherwise the directories are created, the filtered corpus is built, and a non-empty corpus is indexed, assigned and saved to the index path, while an empty one leaves everything as it was |
| PdfQueryTools.PdfIndexCache.QueryPdfs | tools/pdf_query_tools.py:79-94 | a set index is never rebuilt and no file changes; an unset one is initialised, with the same effect on the saved index and the directories as `InitializeVectorStore` (so after an empty build the next query tries again and again replies with the no-documents text); with no index the reply is the fixed no-documents text, otherwise the top 3 passages joined with `"\n\n"` |

## Findings

| source | as written | input that shows it | evidently intended | confidence | as-written member | corrected member |
|---|---|---|---|---|---|---|
| app.py:118 | `chat()` calls `db.save_session(session_id, session_data, user_id)`, but tools/db.py:51 takes only `(session_id, session_data)` | any `POST /chat` with a non-empty message: the reply is `System Error: MongoDBManager.save_session() takes 3 positional arguments but 4 were given` with `Backend Crash`, and nothing is saved | save the turn and reply with the answer and the session id | not executed; high | App.ChatAsWritten | App.Chat |
| app.py:33 | `get_sessions()` calls `db.get_sessions(user_id)`, but tools/db.py:32 takes no argument | any `GET /sessions`: the `TypeError` is not caught, so Flask answers 500 | list the stored sessions | not executed; high | App.SessionsRouteAsWritten | App.SessionsRoute |
| app.py:55 | `new_session()` calls `db.save_session(session_id, session_data, user_id)` with one argument too many | any `POST /sessions/new`: the route answers 500 and nothing is saved | save the new record and reply with its id | not executed; high | App.NewSessionAsWritten | App.NewSession |

## Left out

- The `DELETE /sessions/<id>` route (app.py:63-67) calls `db.delete_session`, which tools/db.py does not define, so it raises `AttributeError`. There is no delete behaviour to model.
- The `/`, `/healthz` and `GET /sessions/<id>` routes are left out. They are template rendering, a fixed payload and a direct `get_session` call.
- Flask plumbing, `jsonify`, the `X-User-ID` header, logging, `traceback`, the DNS resolver override (tools/db.py:6-11) and `print` are left out: they are I/O.
- Only one of the two identical `get_session` calls in `chat()` (app.py:85-87) is modelled. The second call is a redundant read.
- There is no property saying an empty message performs no store read. Reads have no effect in the model, so this shows only in the control flow of `App.PrepareTurn`.
- Request bodies are either unparsable (`Unparsable`, carrying the exception text) or JSON with string fields. Non-string JSON values for `message` or `session_id` are not modelled.
- Document keys other than `id`, `title`, `timestamp`, `last_active` and `messages` are not modelled. Neither is a `content` stored as JSON `null`, which Python would render as `None`.
- A failing `ChatGroq(...)` construction and a failing `invoke` take the same `except` branch, so both are the single `Raised` outcome of the model oracle.
- Exceptions from `to_markdown`, the splitter, the embeddings, `FAISS.from_documents` and `save_local` propagate out of `query_pdfs` uncaught. The model treats these oracles as total.
- Chunking (`chunk_size=2000`, `chunk_overlap=200`), embedding and similarity ranking are opaque: an index is the document list it was built from.
- `similarity_search(query, k=3)` is modelled as the first three entries of a ranking oracle.
- Concurrency is left out. The code has no lock around index initialisation.
- The browser UI (static/script.js), the ingestion script (tools/ingest.py) and the smoke script (verify_backend.py) are not part of this model.
- App.SessionsRoute: the order of the summaries is stated only when no stored timestamp is negative. A missing timestamp sorts last but is shown as 0, so a negative timestamp could appear after a 0 in the list.
- Db.MongoDBManager.constructor: the collection is assumed to hold each document under its own `"id"` value, so every document has an `id` and no two share one. This code only writes documents that way, but `find({})` at tools/db.py:37 would also list a foreign document without `id`, which `GET /sessions` would show with id `None`.
- Db.MongoDBManager.GetSessions: the relative order of sessions with equal timestamps is not fixed, just as MongoDB does not fix it.
