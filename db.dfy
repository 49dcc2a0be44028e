/**
 * The session store: a MongoDB collection of session documents behind
 * `MongoDBManager`, with a "no database" mode in which every operation
 * degrades to a default. Driver failures are oracle parameters (`fault`);
 * the store swallows them.
 */
module Db {
  import opened Records

  /** Every stored document carries its key as its `"id"` field. */
  ghost predicate KeyedById(m: map<string, Record>) {
    forall k :: k in m ==> m[k].id == Some(k)
  }

  /**
   * `a` sorts no later than `b` under `sort("timestamp", -1)`: a larger
   * timestamp comes first, and a document without one comes last.
   */
  predicate AtLeast(a: Option<Clock>, b: Option<Clock>) {
    b.None? || (a.Some? && a.value >= b.value)
  }

  predicate NewestFirst(s: seq<Record>) {
    forall i, j :: 0 <= i < j < |s| ==> AtLeast(s[i].timestamp, s[j].timestamp)
  }

  predicate Distinct(s: seq<Record>) {
    forall i, j :: 0 <= i < j < |s| ==> s[i] != s[j]
  }

  /** The record is the one stored under its own id. */
  predicate StoredUnderOwnId(r: Record, m: map<string, Record>) {
    r.id.Some? && r.id.value in m && m[r.id.value] == r
  }

  /**
   * `r` is what `find({}, {"_id": 0}).sort("timestamp", -1)` may return for
   * the collection `m`: each stored document exactly once, newest first.
   */
  ghost predicate IsListing(r: seq<Record>, m: map<string, Record>) {
    && (forall i :: 0 <= i < |r| ==> StoredUnderOwnId(r[i], m))
    && (forall k :: k in m ==> m[k] in r)
    && Distinct(r)
    && NewestFirst(r)
  }

  /** Places `x` in a newest-first sequence: the database's sort. */
  function InsertNewestFirst(s: seq<Record>, x: Record): (r: seq<Record>)
    ensures |r| == |s| + 1
    ensures forall y :: y in r <==> y in s || y == x
    ensures NewestFirst(s) ==> NewestFirst(r)
    ensures Distinct(s) && x !in s ==> Distinct(r)
  {
    if s == [] then [x]
    else if AtLeast(x.timestamp, s[0].timestamp) then [x] + s
    else
      var rest := InsertNewestFirst(s[1..], x);
      assert AtLeast(s[0].timestamp, x.timestamp);
      assert NewestFirst(s) ==> forall y :: y in s[1..] ==> AtLeast(s[0].timestamp, y.timestamp);
      assert Distinct(s) ==> s[0] !in s[1..];
      [s[0]] + rest
  }

  /** The document id lookup answers: the stored one, or `{"messages": []}`. */
  function Lookup(m: map<string, Record>, id: string): (r: Record)
    ensures id !in m ==> r == DefaultRecord
    ensures id in m && m[id] != NoFields ==> r == m[id]
  {
    // `find_one(...) or {"messages": []}`: a missing or empty document is falsy
    if id in m && m[id] != NoFields then m[id] else DefaultRecord
  }

  /** The document an upsert of `fields` under `id` leaves in the collection. */
  function Upserted(m: map<string, Record>, id: string, fields: Record): (r: Record)
    ensures Agrees(r, fields)
    ensures id in m ==> r == SetFields(m[id], fields)
  {
    // a new document starts from the filter's own field, then `$set` applies
    SetFields(if id in m then m[id] else NoFields.(id := Some(id)), fields)
  }

  class MongoDBManager {
    /** `self.db is not None`. */
    var connected: bool
    /** The `sessions` collection, keyed by each document's `"id"`. */
    var sessions: map<string, Record>

    ghost predicate Valid()
      reads this
    {
      KeyedById(sessions) && (!connected ==> sessions == map[])
    }

    /**
     * `uri` is `MONGO_URI`; `clientFails` says whether `MongoClient(uri)`
     * raised; `existing` is what the collection already holds.
     */
    constructor (uri: Option<string>, clientFails: bool, existing: map<string, Record>)
      requires KeyedById(existing)
      ensures Valid()
      ensures connected <==> uri.Some? && uri.value != "" && !clientFails
      ensures sessions == if connected then existing else map[]
    {
      if uri.None? || uri.value == "" {
        connected := false;
        sessions := map[];
      } else if clientFails {
        connected := false;
        sessions := map[];
      } else {
        connected := true;
        sessions := existing;
      }
    }

    /** All sessions, newest first; `[]` without a database or on a fault. */
    method GetSessions(fault: bool) returns (r: seq<Record>)
      requires Valid()
      ensures !connected || fault ==> r == []
      ensures connected && !fault ==> IsListing(r, sessions)
    {
      if !connected {
        return [];
      }
      if fault {
        return [];
      }
      var pending := sessions.Keys;
      r := [];
      while pending != {}
        invariant pending <= sessions.Keys
        invariant forall y :: y in r ==> StoredUnderOwnId(y, sessions) && y.id.value !in pending
        invariant forall k :: k in sessions && k !in pending ==> sessions[k] in r
        invariant Distinct(r)
        invariant NewestFirst(r)
        decreases pending
      {
        var k :| k in pending;
        var doc := sessions[k];
        assert doc !in r;
        r := InsertNewestFirst(r, doc);
        pending := pending - {k};
      }
    }

    /** The session stored under `id`, or `{"messages": []}`. */
    function GetSession(id: string, fault: bool): (r: Record)
      reads this
      ensures !connected || fault ==> r == DefaultRecord
      ensures connected && !fault && id !in sessions ==> r == DefaultRecord
      ensures connected && !fault && id in sessions && sessions[id] != NoFields ==> r == sessions[id]
    {
      if !connected then DefaultRecord
      else if fault then DefaultRecord
      else Lookup(sessions, id)
    }

    /**
     * Upserts `data` under `id`. Returns the caller's dictionary as the call
     * leaves it: with `"id"` stamped in whenever there is a database, even
     * if the update then fails.
     */
    method SaveSession(id: string, data: Record, fault: bool) returns (stamped: Record)
      requires Valid()
      modifies this
      ensures Valid() && connected == old(connected)
      ensures stamped == if connected then data.(id := Some(id)) else data
      ensures sessions == if connected && !fault then old(sessions)[id := Upserted(old(sessions), id, stamped)]
                          else old(sessions)
      ensures connected && !fault ==> Agrees(GetSession(id, false), stamped)
      ensures !connected ==> forall k, f :: GetSession(k, f) == DefaultRecord
    {
      if !connected {
        return data;
      }
      stamped := data.(id := Some(id));
      if !fault {
        var doc := Upserted(sessions, id, stamped);
        sessions := sessions[id := doc];
        assert doc.id == Some(id);
      }
    }
  }
}
