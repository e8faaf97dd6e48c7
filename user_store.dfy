/** The users collection: one document per user id, read with `find_one` and
    written with `update_one({"user_id": id}, {"$set": fields}, upsert=True)`. */
module UserStore {
  import opened Wrappers
  import opened Calendar

  /** A stored document. The counter and the date are absent until some write
      sets them. */
  datatype UserRecord = UserRecord(userId: int, dailyGiven: Option<int>, lastDate: Option<Date>)

  /** The fields of one `$set`; `None` means the field is not mentioned. */
  datatype Patch = Patch(userId: Option<int>, dailyGiven: Option<int>, lastDate: Option<Date>)

  type Users = map<int, UserRecord>

  /** `find_one({"user_id": id})`. */
  function Get(users: Users, id: int): (r: Option<UserRecord>)
    ensures r.Some? <==> id in users
    ensures r.Some? ==> r.value == users[id]
  {
    if id in users then Some(users[id]) else None
  }

  /** `$set` on an existing document: the mentioned fields take the new
      values, the others keep theirs. */
  function Merge(r: UserRecord, p: Patch): (m: UserRecord)
    ensures p == Patch(None, None, None) ==> m == r
    ensures p.userId.None? ==> m.userId == r.userId
    ensures p.dailyGiven.Some? ==> m.dailyGiven == p.dailyGiven
    ensures p.dailyGiven.None? ==> m.dailyGiven == r.dailyGiven
    ensures p.lastDate.Some? ==> m.lastDate == p.lastDate
    ensures p.lastDate.None? ==> m.lastDate == r.lastDate
  {
    UserRecord(p.userId.GetOr(r.userId),
               if p.dailyGiven.Some? then p.dailyGiven else r.dailyGiven,
               if p.lastDate.Some? then p.lastDate else r.lastDate)
  }

  /** The document an upsert inserts: the filter's `user_id`, then the `$set`
      fields. */
  function Inserted(id: int, p: Patch): (r: UserRecord)
    ensures r.userId == (if p.userId.Some? then p.userId.value else id)
    ensures r.dailyGiven == p.dailyGiven && r.lastDate == p.lastDate
  {
    Merge(UserRecord(id, None, None), p)
  }

  /** `update_user_data(id, fields)`. */
  function Upsert(users: Users, id: int, p: Patch): (r: Users)
    ensures r.Keys == users.Keys + {id}
    ensures forall k :: k in users && k != id ==> r[k] == users[k]
    ensures r[id] == if id in users then Merge(users[id], p) else Inserted(id, p)
  {
    users[id := if id in users then Merge(users[id], p) else Inserted(id, p)]
  }

  /** Reading after writing: the written user's document is the merge (or the
      inserted document), and every other user reads as before. */
  lemma GetAfterUpsert(users: Users, id: int, p: Patch, k: int)
    ensures Get(Upsert(users, id, p), id)
            == Some(if id in users then Merge(users[id], p) else Inserted(id, p))
    ensures k != id ==> Get(Upsert(users, id, p), k) == Get(users, k)
  {
  }

  /** What one field of the stored document is after an upsert: the patch's
      value when it mentions the field, the old value when the document exists,
      absent for a new document. */
  lemma UpsertFields(users: Users, id: int, p: Patch)
    ensures var r := Upsert(users, id, p)[id];
      && r.userId == (if p.userId.Some? then p.userId.value
                      else if id in users then users[id].userId else id)
      && r.dailyGiven == (if p.dailyGiven.Some? then p.dailyGiven
                          else if id in users then users[id].dailyGiven else None)
      && r.lastDate == (if p.lastDate.Some? then p.lastDate
                        else if id in users then users[id].lastDate else None)
  {
  }

  /** The later write's fields win over the earlier one's. */
  function Then(p: Patch, q: Patch): Patch {
    Patch(if q.userId.Some? then q.userId else p.userId,
          if q.dailyGiven.Some? then q.dailyGiven else p.dailyGiven,
          if q.lastDate.Some? then q.lastDate else p.lastDate)
  }

  /** Two upserts of one user are one upsert of the combined fields. */
  lemma UpsertTwice(users: Users, id: int, p: Patch, q: Patch)
    ensures Upsert(Upsert(users, id, p), id, q) == Upsert(users, id, Then(p, q))
  {
    var lhs, rhs := Upsert(Upsert(users, id, p), id, q), Upsert(users, id, Then(p, q));
    assert lhs[id] == rhs[id];
    assert lhs.Keys == rhs.Keys;
  }

  /** Repeating an upsert changes nothing more. */
  lemma UpsertIdempotent(users: Users, id: int, p: Patch)
    ensures Upsert(Upsert(users, id, p), id, p) == Upsert(users, id, p)
  {
    UpsertTwice(users, id, p, p);
    assert Then(p, p) == p;
  }

  /** Why a write is refused by the database driver. */
  datatype StoreError = InvalidDocument

  /** Whether the driver can encode the `$set` document: BSON has a datetime
      type but no date-only type, so a `datetime.date` value is refused. */
  predicate Encodable(p: Patch) {
    p.lastDate.None?
  }

  /** `update_user_data` as the driver runs it: a document holding a
      `datetime.date` raises `InvalidDocument` and nothing is written. */
  function UpsertAsWritten(users: Users, id: int, p: Patch): (r: Result<Users, StoreError>)
    ensures r.Success? <==> Encodable(p)
    ensures r.Success? ==> r.value == Upsert(users, id, p)
  {
    if Encodable(p) then Success(Upsert(users, id, p)) else Failure(InvalidDocument)
  }
}
