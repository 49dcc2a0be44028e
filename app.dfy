/**
 * The web routes: one chat turn (`chat`), the session list (`get_sessions`)
 * and session creation (`new_session`), over the session store of module
 * `Db`. The agent is an abstract function from the message and the history
 * to an answer and a mode label; `uuid4()` and the clocks are parameters.
 *
 * The routes pass the caller's `X-User-ID` to store methods that take no
 * such argument. The `...AsWritten` members model that call as the code
 * makes it (Python raises `TypeError`); the other members ignore the user id.
 */
module App {
  import opened Records
  import opened Db

  /** The body of `POST /chat`: JSON, or something `request.json` chokes on. */
  datatype ChatRequest =
    | Unparsable(detail: string)
    | Json(message: Option<string>, sessionId: Option<string>)

  /** The JSON reply of `POST /chat`; `sessionId` is absent on the short paths. */
  datatype ChatReply = ChatReply(response: string, thoughts: string, sessionId: Option<string>)

  /** What a route gives the client: its JSON body, or Flask's 500 for an exception it does not catch. */
  datatype RouteResult<T> = Body(body: T) | Unhandled(error: string)

  const EmptyInputReply := ChatReply("Please enter a message.", "Empty input", None)

  const CrashPrefix := "System Error: "

  /** The reply of the `except Exception as e` branch, carrying `str(e)`. */
  function Crash(detail: string): (r: ChatReply)
    ensures r.thoughts == "Backend Crash" && r.sessionId == None
    ensures |CrashPrefix| <= |r.response|
    ensures r.response[..|CrashPrefix|] == CrashPrefix && r.response[|CrashPrefix|..] == detail
  {
    ChatReply(CrashPrefix + detail, "Backend Crash", None)
  }

  /** `data.get("message", "")`. */
  function MessageOf(req: ChatRequest): string
    requires req.Json?
  {
    GetOr(req.message, "")
  }

  /** The session id of the turn: the given one unless it is missing or empty. */
  function ResolveSessionId(given: Option<string>, freshId: string): (id: string)
    requires freshId != ""
    ensures id != ""
    ensures given.Some? && given.value != "" ==> id == given.value
    ensures given.None? || given.value == "" ==> id == freshId
  {
    if GetOr(given, "") == "" then freshId else given.value
  }

  /** `user_message[:30] + "..."`. */
  function DeriveTitle(message: string): (t: string)
    ensures |t| == (if |message| < 30 then |message| else 30) + 3 && |t| <= 33
    ensures t[..|t| - 3] == message[..|t| - 3] && t[|t| - 3..] == "..."
    ensures t != NewChatTitle
  {
    var t := message[..if |message| < 30 then |message| else 30] + "...";
    assert |t| == 8 ==> t[5] == '.' && NewChatTitle[5] == 'h';
    t
  }

  /** The loaded session carries messages and so is continued, not replaced. */
  predicate Continues(loaded: Record) {
    loaded.messages.Some? && loaded.messages.value != []
  }

  /** The messages a turn builds on: none when the loaded session is replaced. */
  function PriorMessages(loaded: Record): seq<Message> {
    if Continues(loaded) then loaded.messages.value else []
  }

  /** The history the agent is given: the prior messages and the new user turn. */
  function TurnHistory(loaded: Record, message: string): (h: seq<Message>)
    ensures |h| > 0 && h[|h| - 1] == UserTurn(message)
    ensures h[..|h| - 1] == PriorMessages(loaded)
  {
    PriorMessages(loaded) + [UserTurn(message)]
  }

  /** The record that replaces a session without messages. */
  function FreshRecord(message: string, now: Clock, nowUtc: Clock): Record {
    Record(None, Some(DeriveTitle(message)), Some(now), Some(nowUtc), Some([]))
  }

  /** The session record a successful turn saves. */
  function TurnRecord(loaded: Record, message: string, response: string, now: Clock, nowUtc: Clock): (r: Record)
    ensures r.messages == Some(PriorMessages(loaded) + [UserTurn(message), AiTurn(response)])
    ensures r.timestamp == Some(now) && r.lastActive == Some(nowUtc)
    ensures !Continues(loaded) ==> r.id == None && r.title == Some(DeriveTitle(message))
    ensures Continues(loaded) ==> r.id == loaded.id
    ensures Continues(loaded) && loaded.title == Some(NewChatTitle) ==> r.title == Some(DeriveTitle(message))
    ensures Continues(loaded) && loaded.title != Some(NewChatTitle) ==> r.title == loaded.title
  {
    var base := if Continues(loaded) then loaded else FreshRecord(message, now, nowUtc);
    Record(
      base.id,
      if base.title == Some(NewChatTitle) then Some(DeriveTitle(message)) else base.title,
      Some(now),
      Some(nowUtc),
      Some(PriorMessages(loaded) + [UserTurn(message), AiTurn(response)]))
  }

  /** How far a turn gets before the save: a reply already, or a record to save. */
  datatype Turn =
    | Done(reply: ChatReply)
    | ReadyToSave(sessionId: string, record: Record, response: string, thoughts: string)

  /** Everything `chat()` does up to the call that saves the session. */
  method PrepareTurn(store: MongoDBManager, req: ChatRequest, freshId: string, now: Clock, nowUtc: Clock,
                     agent: (string, seq<Message>) -> (string, string), loadFault: bool)
    returns (t: Turn)
    requires freshId != ""
    ensures req.Unparsable? ==> t == Done(Crash(req.detail))
    ensures req.Json? && MessageOf(req) == "" ==> t == Done(EmptyInputReply)
    ensures req.Json? && MessageOf(req) != "" ==>
              var message := MessageOf(req);
              var id := ResolveSessionId(req.sessionId, freshId);
              var loaded := store.GetSession(id, loadFault);
              var answer := agent(message, TurnHistory(loaded, message));
              t == ReadyToSave(id, TurnRecord(loaded, message, answer.0, now, nowUtc), answer.0, answer.1)
  {
    match req
    case Unparsable(detail) =>
      return Done(Crash(detail));
    case Json(messageField, sessionField) =>
      var userMessage := GetOr(messageField, "");
      if userMessage == "" {
        return Done(EmptyInputReply);
      }
      var sessionId := GetOr(sessionField, "");
      if sessionId == "" {
        sessionId := freshId;
      }
      var sessionData := store.GetSession(sessionId, loadFault);
      ghost var loaded := sessionData;
      if sessionData.messages.None? || sessionData.messages.value == [] {
        sessionData := FreshRecord(userMessage, now, nowUtc);
      }
      assert sessionData.messages == Some(PriorMessages(loaded));
      sessionData := sessionData.(timestamp := Some(now), lastActive := Some(nowUtc));
      sessionData := sessionData.(messages := Some(sessionData.messages.value + [UserTurn(userMessage)]));
      var answer := agent(userMessage, sessionData.messages.value);
      sessionData := sessionData.(messages := Some(sessionData.messages.value + [AiTurn(answer.0)]));
      if sessionData.title == Some(NewChatTitle) {
        sessionData := sessionData.(title := Some(DeriveTitle(userMessage)));
      }
      assert sessionId == ResolveSessionId(sessionField, freshId);
      assert PriorMessages(loaded) + [UserTurn(userMessage)] + [AiTurn(answer.0)]
          == PriorMessages(loaded) + [UserTurn(userMessage), AiTurn(answer.0)];
      assert sessionData == TurnRecord(loaded, userMessage, answer.0, now, nowUtc);
      return ReadyToSave(sessionId, sessionData, answer.0, answer.1);
  }

  /** `chat()` with the user id left out of the save. */
  method Chat(store: MongoDBManager, req: ChatRequest, freshId: string, now: Clock, nowUtc: Clock,
              agent: (string, seq<Message>) -> (string, string), loadFault: bool, saveFault: bool)
    returns (reply: ChatReply)
    requires store.Valid() && freshId != ""
    modifies store
    ensures store.Valid() && store.connected == old(store.connected)
    ensures req.Unparsable? ==> reply == Crash(req.detail) && store.sessions == old(store.sessions)
    ensures req.Json? && MessageOf(req) == "" ==> reply == EmptyInputReply && store.sessions == old(store.sessions)
    ensures req.Json? && MessageOf(req) != "" ==>
              var message := MessageOf(req);
              var id := ResolveSessionId(req.sessionId, freshId);
              var loaded := old(store.GetSession(id, loadFault));
              var answer := agent(message, TurnHistory(loaded, message));
              var saved := TurnRecord(loaded, message, answer.0, now, nowUtc).(id := Some(id));
              && reply == ChatReply(answer.0, answer.1, Some(id))
              && store.sessions == (if store.connected && !saveFault
                                    then old(store.sessions)[id := Upserted(old(store.sessions), id, saved)]
                                    else old(store.sessions))
              && (store.connected && !saveFault ==>
                    store.GetSession(id, false).messages
                      == Some(PriorMessages(loaded) + [UserTurn(message), AiTurn(answer.0)]))
  {
    var t := PrepareTurn(store, req, freshId, now, nowUtc, agent, loadFault);
    match t
    case Done(r) =>
      reply := r;
    case ReadyToSave(sessionId, sessionData, response, thoughts) =>
      var stamped := store.SaveSession(sessionId, sessionData, saveFault);
      reply := ChatReply(response, thoughts, Some(sessionId));
  }

  /**
   * Without a database every turn starts afresh: the agent sees only the
   * current message, and the store stays empty.
   */
  method ChatWithoutDatabase(store: MongoDBManager, message: string, sessionId: Option<string>, freshId: string,
                             now: Clock, nowUtc: Clock, agent: (string, seq<Message>) -> (string, string),
                             loadFault: bool, saveFault: bool)
    returns (reply: ChatReply)
    requires store.Valid() && !store.connected && freshId != "" && message != ""
    modifies store
    ensures reply.response == agent(message, [UserTurn(message)]).0
    ensures reply.thoughts == agent(message, [UserTurn(message)]).1
    ensures store.sessions == map[] && !store.connected
  {
    reply := Chat(store, Json(Some(message), sessionId), freshId, now, nowUtc, agent, loadFault, saveFault);
  }

  /** Positional parameters of the store methods, `self` not counted. */
  const GetSessionsParams := 0
  const SaveSessionParams := 2

  /** Positional arguments the routes pass: the user id is the extra one. */
  const GetSessionsArgs := 1
  const SaveSessionArgs := 3

  function DigitChar(d: nat): char
    requires d < 10
  {
    "0123456789"[d]
  }

  function NatToString(n: nat): string
    decreases n
  {
    if n < 10 then [DigitChar(n)] else NatToString(n / 10) + [DigitChar(n % 10)]
  }

  /** CPython's `TypeError` text for a bound method given too many positional arguments. */
  function TooManyArguments(qualname: string, params: nat, given: nat): string
    requires given > params
  {
    qualname + "() takes " + NatToString(params + 1) + " positional argument"
      + (if params == 0 then "" else "s") + " but " + NatToString(given + 1) + " were given"
  }

  /** "MongoDBManager.save_session() takes 3 positional arguments but 4 were given" */
  const SaveSessionArityError := TooManyArguments("MongoDBManager.save_session", SaveSessionParams, SaveSessionArgs)

  /** "MongoDBManager.get_sessions() takes 1 positional argument but 2 were given" */
  const GetSessionsArityError := TooManyArguments("MongoDBManager.get_sessions", GetSessionsParams, GetSessionsArgs)

  /**
   * `chat()` as written: `db.save_session(session_id, session_data, user_id)`
   * raises, so every turn that gets as far as the save ends in the crash reply.
   */
  method ChatAsWritten(store: MongoDBManager, req: ChatRequest, freshId: string, now: Clock, nowUtc: Clock,
                       agent: (string, seq<Message>) -> (string, string), loadFault: bool)
    returns (reply: ChatReply)
    requires freshId != ""
    ensures req.Unparsable? ==> reply == Crash(req.detail)
    ensures req.Json? && MessageOf(req) == "" ==> reply == EmptyInputReply
    ensures req.Json? && MessageOf(req) != "" ==>
              reply == Crash(SaveSessionArityError)
  {
    var t := PrepareTurn(store, req, freshId, now, nowUtc, agent, loadFault);
    match t
    case Done(r) =>
      reply := r;
    case ReadyToSave(_, _, _, _) =>
      reply := Crash(SaveSessionArityError);
  }

  /** One entry of `GET /sessions`. */
  datatype SessionSummary = SessionSummary(id: Option<string>, title: string, timestamp: Clock)

  /** `{"id": s.get("id"), "title": s.get("title", "New Chat"), "timestamp": s.get("timestamp", 0)}`. */
  function Summarize(s: Record): SessionSummary {
    SessionSummary(s.id, GetOr(s.title, NewChatTitle), GetOr(s.timestamp, 0))
  }

  /** The loop that builds `formatted`, in the store's order. */
  method FormatSessions(sessions: seq<Record>) returns (formatted: seq<SessionSummary>)
    ensures |formatted| == |sessions|
    ensures forall i :: 0 <= i < |sessions| ==>
              && formatted[i].id == sessions[i].id
              && formatted[i].title == (if sessions[i].title.Some? then sessions[i].title.value else NewChatTitle)
              && formatted[i].timestamp == (if sessions[i].timestamp.Some? then sessions[i].timestamp.value else 0)
  {
    formatted := [];
    for i := 0 to |sessions|
      invariant |formatted| == i
      invariant forall j :: 0 <= j < i ==> formatted[j] == Summarize(sessions[j])
    {
      var s := sessions[i];
      formatted := formatted + [SessionSummary(s.id, GetOr(s.title, NewChatTitle), GetOr(s.timestamp, 0))];
    }
  }

  ghost predicate NonNegativeTimestamps(m: map<string, Record>) {
    forall k :: k in m && m[k].timestamp.Some? ==> m[k].timestamp.value >= 0
  }

  /** `get_sessions()` with the user id left out of the store call. */
  method SessionsRoute(store: MongoDBManager, fault: bool) returns (formatted: seq<SessionSummary>)
    requires store.Valid()
    ensures !store.connected || fault ==> formatted == []
    ensures store.connected && !fault ==>
              && (forall i :: 0 <= i < |formatted| ==>
                    formatted[i].id.Some? && formatted[i].id.value in store.sessions
                    && formatted[i] == Summarize(store.sessions[formatted[i].id.value]))
              && (forall k :: k in store.sessions ==> Summarize(store.sessions[k]) in formatted)
              && (forall i, j :: 0 <= i < j < |formatted| ==> formatted[i].id != formatted[j].id)
              && (NonNegativeTimestamps(store.sessions) ==>
                    forall i, j :: 0 <= i < j < |formatted| ==> formatted[i].timestamp >= formatted[j].timestamp)
  {
    var sessions := store.GetSessions(fault);
    formatted := FormatSessions(sessions);
    if store.connected && !fault {
      forall k | k in store.sessions
        ensures Summarize(store.sessions[k]) in formatted
      {
        var i :| 0 <= i < |sessions| && sessions[i] == store.sessions[k];
        assert formatted[i] == Summarize(sessions[i]);
      }
      forall i, j | 0 <= i < j < |formatted|
        ensures formatted[i].id != formatted[j].id
      {
        assert StoredUnderOwnId(sessions[i], store.sessions) && StoredUnderOwnId(sessions[j], store.sessions);
        assert sessions[i] != sessions[j];
      }
      if NonNegativeTimestamps(store.sessions) {
        forall i, j | 0 <= i < j < |formatted|
          ensures formatted[i].timestamp >= formatted[j].timestamp
        {
          assert StoredUnderOwnId(sessions[i], store.sessions) && StoredUnderOwnId(sessions[j], store.sessions);
          assert AtLeast(sessions[i].timestamp, sessions[j].timestamp);
        }
      }
    }
  }

  /** `get_sessions()` as written: `db.get_sessions(user_id)` raises outside any `try`. */
  method SessionsRouteAsWritten() returns (r: RouteResult<seq<SessionSummary>>)
    ensures r == Unhandled(GetSessionsArityError)
  {
    r := Unhandled(GetSessionsArityError);
  }

  /** The record `new_session()` creates. */
  function NewChatRecord(now: Clock, nowUtc: Clock): Record {
    Record(None, Some(NewChatTitle), Some(now), Some(nowUtc), Some([]))
  }

  /** `new_session()` with the user id left out of the save. */
  method NewSession(store: MongoDBManager, freshId: string, now: Clock, nowUtc: Clock, saveFault: bool)
    returns (id: string)
    requires store.Valid()
    modifies store
    ensures id == freshId
    ensures store.Valid() && store.connected == old(store.connected)
    ensures store.sessions == if store.connected && !saveFault
                              then old(store.sessions)[id := Upserted(old(store.sessions), id, NewChatRecord(now, nowUtc).(id := Some(id)))]
                              else old(store.sessions)
    ensures store.connected && !saveFault ==>
              store.GetSession(id, false).title == Some(NewChatTitle) && store.GetSession(id, false).messages == Some([])
  {
    id := freshId;
    var sessionData := NewChatRecord(now, nowUtc);
    var stamped := store.SaveSession(id, sessionData, saveFault);
  }

  /** `new_session()` as written: `db.save_session(session_id, session_data, user_id)` raises outside any `try`. */
  method NewSessionAsWritten() returns (r: RouteResult<string>)
    ensures r == Unhandled(SaveSessionArityError)
  {
    r := Unhandled(SaveSessionArityError);
  }

  /**
   * The first turn on a session `new_session()` created replaces its record:
   * the title is derived from the message and the two new turns are the only
   * messages.
   */
  lemma FirstTurnAfterNewSession(id: string, created: Clock, createdUtc: Clock, message: string, response: string,
                                 now: Clock, nowUtc: Clock)
    ensures var loaded := NewChatRecord(created, createdUtc).(id := Some(id));
            var r := TurnRecord(loaded, message, response, now, nowUtc);
            r.title == Some(DeriveTitle(message)) && r.messages == Some([UserTurn(message), AiTurn(response)])
  {
    var loaded := NewChatRecord(created, createdUtc).(id := Some(id));
    assert PriorMessages(loaded) == [];
    assert [] + [UserTurn(message), AiTurn(response)] == [UserTurn(message), AiTurn(response)];
  }
}
