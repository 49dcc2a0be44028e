/**
 * The documents the tutoring backend keeps per conversation, as the Python code
 * sees them: dictionaries whose keys may be absent. An absent key is `None`.
 */
module Records {

  datatype Option<+T> = None | Some(value: T)

  /** `d.get(key, default)`: the value when present, otherwise the default. */
  function GetOr<T>(o: Option<T>, default: T): (r: T)
    ensures o.Some? ==> r == o.value
    ensures o.None? ==> r == default
  {
    match o
    case Some(v) => v
    case None => default
  }

  /**
   * A clock reading (`time.time()` or `datetime.now(timezone.utc)`). Only the
   * order of readings matters to the code, so a reading is an integer.
   */
  type Clock = int

  /** One turn: `{"role": ..., "content": ...}`. */
  datatype Message = Message(role: Option<string>, content: Option<string>)

  /** A session document: the keys the application reads and writes. */
  datatype Record = Record(
    id: Option<string>,
    title: Option<string>,
    timestamp: Option<Clock>,
    lastActive: Option<Clock>,
    messages: Option<seq<Message>>)

  /** The dictionary with no keys at all, `{}` (falsy in Python). */
  const NoFields := Record(None, None, None, None, None)

  /** `{"messages": []}`, the store's answer for a session it cannot produce. */
  const DefaultRecord := Record(None, None, None, None, Some([]))

  const NewChatTitle := "New Chat"

  function UserTurn(content: string): Message { Message(Some("user"), Some(content)) }

  function AiTurn(content: string): Message { Message(Some("ai"), Some(content)) }

  /** The value a `$set` update leaves in one field. */
  function SetField<T>(stored: Option<T>, given: Option<T>): (r: Option<T>)
    ensures given.Some? ==> r == given
    ensures given.None? ==> r == stored
  {
    if given.Some? then given else stored
  }

  /**
   * MongoDB's `{"$set": fields}` applied to `stored`: every key present in
   * `fields` takes its value there, every other key keeps the stored value.
   */
  function SetFields(stored: Record, fields: Record): (r: Record)
    ensures Agrees(r, fields)
    ensures fields.id.None? ==> r.id == stored.id
    ensures fields.title.None? ==> r.title == stored.title
    ensures fields.timestamp.None? ==> r.timestamp == stored.timestamp
    ensures fields.lastActive.None? ==> r.lastActive == stored.lastActive
    ensures fields.messages.None? ==> r.messages == stored.messages
  {
    Record(
      SetField(stored.id, fields.id),
      SetField(stored.title, fields.title),
      SetField(stored.timestamp, fields.timestamp),
      SetField(stored.lastActive, fields.lastActive),
      SetField(stored.messages, fields.messages))
  }

  /** Every key present in `fields` holds the same value in `r`. */
  predicate Agrees(r: Record, fields: Record) {
    && (fields.id.Some? ==> r.id == fields.id)
    && (fields.title.Some? ==> r.title == fields.title)
    && (fields.timestamp.Some? ==> r.timestamp == fields.timestamp)
    && (fields.lastActive.Some? ==> r.lastActive == fields.lastActive)
    && (fields.messages.Some? ==> r.messages == fields.messages)
  }
}
