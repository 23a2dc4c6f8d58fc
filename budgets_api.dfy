/**
 * The budget override store behind the budgets API route: one JSON document
 * mapping a user id to that user's saved overrides and the time they were
 * saved. POST is an upsert and GET a lookup, both behind a check that the
 * Authorization header is "Bearer token-" followed by the id.
 *
 * The document is held as a map in memory; `None` stands for a document
 * that does not exist yet. The save time is a parameter.
 */
module BudgetsApi {
  import opened Wrappers
  import Budget

  /** What is stored for one user. `overrides` is None when the request carried none. */
  datatype Entry = Entry(overrides: Option<Budget.Overrides>, updatedAt: string)

  type Db = map<string, Entry>

  datatype PostReply = PostOk(updatedAt: string) | PostUnauthorized {
    function Status(): int { if PostOk? then 200 else 401 }
    predicate Ok() { PostOk? }
  }

  /** An authorised GET answers with the entry, or with null when there is none. */
  datatype GetReply = GetOk(data: Option<Entry>) | GetUnauthorized {
    function Status(): int { if GetOk? then 200 else 401 }
    predicate Ok() { GetOk? }
  }

  const Anonymous: string := "anonymous"

  /** `userId || 'anonymous'`: a missing or empty id is the anonymous user. */
  function ResolveId(userId: Option<string>): (id: string)
    ensures id != ""
    ensures userId.Some? && userId.value != "" ==> id == userId.value
    ensures userId.None? || userId.value == "" ==> id == Anonymous
  {
    if userId.Some? && userId.value != "" then userId.value else Anonymous
  }

  /** `!auth || auth !== "Bearer token-" + id`, negated; a missing header reads as "". */
  predicate Authorized(authorization: string, id: string) {
    authorization != "" && authorization == "Bearer token-" + id
  }

  /** The emptiness test is subsumed by the equality: the expected header is never empty. */
  lemma AuthorizedIsEquality(authorization: string, id: string)
    ensures Authorized(authorization, id) <==> authorization == "Bearer token-" + id
  {
    assert |"Bearer token-" + id| >= 13;
  }

  /** Each user has exactly one token, and it is accepted for that user only. */
  lemma TokenNamesOneUser(authorization: string, id1: string, id2: string)
    requires Authorized(authorization, id1) && Authorized(authorization, id2)
    ensures id1 == id2
  {
    var prefix := "Bearer token-";
    assert authorization[|prefix|..] == id1;
    assert authorization[|prefix|..] == id2;
  }

  /** The document as read after `ensureDb`: an absent one is the empty map. */
  function Loaded(file: Option<Db>): (db: Db)
    ensures file.None? ==> db == map[]
    ensures file.Some? ==> db == file.value
  {
    if file.Some? then file.value else map[]
  }

  /** `data[id] = entry`: the entry for `id` is replaced or added; no other entry changes. */
  function Upsert(db: Db, id: string, entry: Entry): (r: Db)
    ensures id in r && r[id] == entry
    ensures r.Keys == db.Keys + {id}
    ensures forall k :: k in db && k != id ==> r[k] == db[k]
  {
    db[id := entry]
  }

  /** A lookup right after an upsert finds what was stored, for that id, and the old entry for any other. */
  lemma LookupAfterUpsert(db: Db, id: string, entry: Entry, other: string)
    ensures Lookup(Upsert(db, id, entry), id) == Some(entry)
    ensures other != id ==> Lookup(Upsert(db, id, entry), other) == Lookup(db, other)
  {
  }

  class BudgetStore {
    /** The JSON document; None while it does not exist. */
    var file: Option<Db>

    constructor ()
      ensures file.None?
    {
      file := None;
    }

    /** Create the document as the empty map if it does not exist. */
    method EnsureDb()
      modifies this
      ensures file == Some(Loaded(old(file)))
    {
      if file.None? {
        file := Some(map[]);
      }
    }

    /**
     * POST: create the document if needed, then, if the header is the
     * caller's token, store the overrides under the caller's id. A refused
     * request stores nothing (but the document now exists).
     */
    method Post(userId: Option<string>, authorization: string, overrides: Option<Budget.Overrides>, updatedAt: string)
      returns (reply: PostReply)
      modifies this
      ensures var id := ResolveId(userId);
        && (Authorized(authorization, id) ==>
              reply == PostOk(updatedAt)
              && file == Some(Upsert(Loaded(old(file)), id, Entry(overrides, updatedAt))))
        && (!Authorized(authorization, id) ==>
              reply == PostUnauthorized && file == Some(Loaded(old(file))))
      ensures reply.Ok() <==> reply.Status() == 200
    {
      EnsureDb();
      var data := file.value;
      var id := ResolveId(userId);
      if !Authorized(authorization, id) {
        return PostUnauthorized;
      }
      data := Upsert(data, id, Entry(overrides, updatedAt));
      file := Some(data);
      reply := PostOk(updatedAt);
    }

    /** GET: create the document if needed, then, for the caller's own token, answer with its entry or null. */
    method Get(userId: Option<string>, authorization: string) returns (reply: GetReply)
      modifies this
      ensures file == Some(Loaded(old(file)))
      ensures var id := ResolveId(userId);
        reply == if Authorized(authorization, id) then GetOk(Lookup(Loaded(old(file)), id)) else GetUnauthorized
    {
      EnsureDb();
      var data := file.value;
      var id := ResolveId(userId);
      if !Authorized(authorization, id) {
        return GetUnauthorized;
      }
      reply := GetOk(Lookup(data, id));
    }
  }

  /** An authorised POST followed by an authorised GET for the same user returns the overrides just saved. */
  method PostThenGet(store: BudgetStore, userId: Option<string>, overrides: Option<Budget.Overrides>, updatedAt: string)
    returns (posted: PostReply, got: GetReply)
    modifies store
    ensures posted == PostOk(updatedAt)
    ensures got == GetOk(Some(Entry(overrides, updatedAt)))
  {
    var token := "Bearer token-" + ResolveId(userId);
    posted := store.Post(userId, token, overrides, updatedAt);
    got := store.Get(userId, token);
  }
}
