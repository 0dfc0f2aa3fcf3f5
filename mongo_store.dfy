/** The MongoDB-backed store, with the collection modelled as an in-memory
    sequence of per-user documents. Every document stores its notification
    inside the literal update wrapper `{$each: [dump], $sort: {timestamp: -1},
    $slice: limit}`; reading a document looks only at `$each[0]`. */
module MongoStore {
  import opened Basics
  import opened Notifications
  import opened Calls

  /** A value as it is stored in, and read back from, a document. */
  datatype Value = Str(s: string) | Int(i: int) | Bool(b: bool) | Null | Dict(d: Data)

  /** A dumped notification: field name to stored value. */
  type Dumped = map<string, Value>

  /** The wrapper `{$each: each, $sort: {sortField: sortOrder}, $slice: slice}`,
      stored as it is written and never interpreted. */
  datatype Update = Update(each: seq<Dumped>, sortField: string, sortOrder: int, slice: int)

  /** One document of the users collection. */
  datatype Document = Document(id: string, notifications: Update)

  /** The field names a dumped notification carries. */
  const FIELDS: set<string> := {"id", "timestamp", "is_new", "user_id", "key", "target_id", "data"}

  /** Dumping a notification into a document field map. The kind is stored as
      its string value. */
  function Dump(n: Notification): (d: Dumped)
    ensures d.Keys == FIELDS
  {
    map[
      "id" := Str(n.id),
      "timestamp" := Int(n.timestamp),
      "is_new" := Bool(n.is_new),
      "user_id" := Str(n.user_id),
      "key" := Str(KeyName(n.key)),
      "target_id" := (if n.target_id.Some? then Str(n.target_id.value) else Null),
      "data" := (if n.data.Some? then Dict(n.data.value) else Null)]
  }

  /** The wrapper that saving writes around one notification. */
  function Wrap(n: Notification, limit: int): Update
  {
    Update([Dump(n)], "timestamp", -1, limit)
  }

  function AsOptStr(v: Value): Option<Option<string>>
  {
    match v
    case Null => Some(None)
    case Str(s) => Some(Some(s))
    case _ => None
  }

  function AsOptData(v: Value): Option<Option<Data>>
  {
    match v
    case Null => Some(None)
    case Dict(d) => Some(Some(d))
    case _ => None
  }

  /** `d` agrees with the dump of `n` on every notification field. */
  predicate Projects(d: Dumped, n: Notification)
  {
    FIELDS <= d.Keys && forall f :: f in FIELDS ==> d[f] == Dump(n)[f]
  }

  /** Building a notification from a field map; None where the source raises
      (a missing field, or a value of the wrong type or an unknown kind). */
  function FromDict(d: Dumped): (r: Option<Notification>)
    ensures r.Some? ==> Projects(d, r.value)
  {
    if !(FIELDS <= d.Keys) then None
    else
      var id, ts, isNew, uid, key := d["id"], d["timestamp"], d["is_new"], d["user_id"], d["key"];
      var tid, data := AsOptStr(d["target_id"]), AsOptData(d["data"]);
      if id.Str? && ts.Int? && isNew.Bool? && uid.Str? && key.Str? && ParseKey(key.s).Some?
         && tid.Some? && data.Some?
      then
        var n := Notification(id.s, ts.i, isNew.b, uid.s, ParseKey(key.s).value, tid.value, data.value);
        assert d["target_id"] == Dump(n)["target_id"] by { assert tid.value == n.target_id; }
        assert d["data"] == Dump(n)["data"] by { assert data.value == n.data; }
        Some(n)
      else None
  }

  /** `convert_notification`: the notification held in `$each[0]`. */
  function Convert(doc: Document): (r: Option<Notification>)
    ensures r.Some? ==> |doc.notifications.each| > 0 && Projects(doc.notifications.each[0], r.value)
  {
    if |doc.notifications.each| == 0 then None else FromDict(doc.notifications.each[0])
  }

  /** Conversion succeeds on every field map that projects onto a notification,
      and yields that notification: it is a field-for-field projection. */
  lemma FromDictComplete(d: Dumped, n: Notification)
    requires Projects(d, n)
    ensures FromDict(d) == Some(n)
  {
    assert d["id"] == Dump(n)["id"];
    assert d["timestamp"] == Dump(n)["timestamp"];
    assert d["is_new"] == Dump(n)["is_new"];
    assert d["user_id"] == Dump(n)["user_id"];
    assert d["key"] == Dump(n)["key"];
    assert d["target_id"] == Dump(n)["target_id"];
    assert d["data"] == Dump(n)["data"];
    ParseKeyName(n.key, KeyName(n.key));
  }

  /** Conversion reads only `$each[0]`: the document id, the other list
      elements and the `$sort`/`$slice` values play no part. */
  lemma ConvertReadsFirst(doc: Document, n: Notification)
    requires |doc.notifications.each| > 0 && Projects(doc.notifications.each[0], n)
    ensures Convert(doc) == Some(n)
  {
    FromDictComplete(doc.notifications.each[0], n);
  }

  /** Round trip: what saving writes converts back to the saved notification. */
  lemma ConvertWrap(n: Notification, id: string, limit: int)
    ensures Convert(Document(id, Wrap(n, limit))) == Some(n)
  {
    FromDictComplete(Dump(n), n);
  }

  /** A document converts and belongs to the user it is filed under. */
  predicate WellFormed(doc: Document)
  {
    Convert(doc).Some? && Convert(doc).value.user_id == doc.id
  }

  predicate UniqueIds(docs: seq<Document>)
  {
    forall i, j :: 0 <= i < j < |docs| ==> docs[i].id != docs[j].id
  }

  /** The collection invariant: every document is well formed, and there is at
      most one document per user id. */
  predicate StoreInvariant(docs: seq<Document>)
  {
    (forall d :: d in docs ==> WellFormed(d)) && UniqueIds(docs)
  }

  /** `get_records`: the user's documents, in collection order. */
  function RecordsOf(docs: seq<Document>, userId: string): (r: seq<Document>)
    ensures |r| <= |docs|
    ensures forall d :: d in r <==> d in docs && d.id == userId
    ensures |r| > 0 <==> exists i :: 0 <= i < |docs| && docs[i].id == userId
  {
    if |docs| == 0 then []
    else
      var rest := RecordsOf(docs[1..], userId);
      assert forall i :: 0 < i < |docs| ==> docs[i] == docs[1..][i - 1];
      (if docs[0].id == userId then [docs[0]] else []) + rest
  }

  /** The filter keeps collection order: the records of two runs of documents
      are those of the first run followed by those of the second. */
  lemma {:induction false} RecordsOfConcat(a: seq<Document>, b: seq<Document>, userId: string)
    ensures RecordsOf(a + b, userId) == RecordsOf(a, userId) + RecordsOf(b, userId)
  {
    if |a| == 0 {
      assert a + b == b;
    } else {
      var ab := a + b;
      var head := if a[0].id == userId then [a[0]] else [];
      assert ab[0] == a[0];
      assert ab[1..] == a[1..] + b;
      assert RecordsOf(ab, userId) == head + RecordsOf(ab[1..], userId);
      RecordsOfConcat(a[1..], b, userId);
    }
  }

  /** With unique ids, a user's records are exactly their one document. */
  lemma {:induction false} RecordsUnique(docs: seq<Document>, k: nat)
    requires UniqueIds(docs) && k < |docs|
    ensures RecordsOf(docs, docs[k].id) == [docs[k]]
  {
    var tail := docs[1..];
    assert UniqueIds(tail) by {
      forall i, j | 0 <= i < j < |tail| ensures tail[i].id != tail[j].id {
        assert tail[i] == docs[i + 1] && tail[j] == docs[j + 1];
      }
    }
    if k == 0 {
      assert forall i :: 0 <= i < |tail| ==> tail[i] == docs[i + 1];
      assert RecordsOf(tail, docs[0].id) == [];
    } else {
      assert tail[k - 1] == docs[k];
      RecordsUnique(tail, k - 1);
    }
  }

  /** The invariant keeps at most one document, and so at most one
      notification, per user. */
  lemma AtMostOneRecord(docs: seq<Document>, userId: string)
    requires UniqueIds(docs)
    ensures |RecordsOf(docs, userId)| <= 1
  {
    if |RecordsOf(docs, userId)| > 0 {
      var k :| 0 <= k < |docs| && docs[k].id == userId;
      RecordsUnique(docs, k);
    }
  }

  /** `[convert_notification(note) for note in records]`. */
  function ConvertAll(records: seq<Document>): seq<Notification>
    requires forall i :: 0 <= i < |records| ==> Convert(records[i]).Some?
  {
    seq(|records|, i requires 0 <= i < |records| => Convert(records[i]).value)
  }

  /** The user's notifications as the store hands them out. */
  function UserNotifications(docs: seq<Document>, userId: string): (r: seq<Notification>)
    requires StoreInvariant(docs)
    ensures forall x :: x in r ==> x.user_id == userId
  {
    var records := RecordsOf(docs, userId);
    var r := ConvertAll(records);
    assert forall i :: 0 <= i < |r| ==> r[i].user_id == records[i].id;
    r
  }

  /** `update_one({"id": userId}, {"$set": {"notifications": u}})`: the first
      document filed under the user gets `u` as its notifications field. */
  function FirstIndexOf(docs: seq<Document>, userId: string): (k: nat)
    ensures k <= |docs|
    ensures k < |docs| ==> docs[k].id == userId
    ensures forall j :: 0 <= j < k ==> docs[j].id != userId
  {
    if |docs| == 0 then 0
    else if docs[0].id == userId then 0
    else
      var k := FirstIndexOf(docs[1..], userId);
      assert forall j :: 0 < j < |docs| ==> docs[j] == docs[1..][j - 1];
      1 + k
  }

  function UpdateFirst(docs: seq<Document>, userId: string, u: Update): (r: seq<Document>)
    ensures |r| == |docs|
    ensures forall i :: 0 <= i < |docs| ==> r[i].id == docs[i].id
    ensures var k := FirstIndexOf(docs, userId);
      && (k < |docs| ==> r[k] == Document(userId, u))
      && (forall i :: 0 <= i < |docs| && i != k ==> r[i] == docs[i])
  {
    var k := FirstIndexOf(docs, userId);
    if k < |docs| then docs[k := docs[k].(notifications := u)] else docs
  }

  /** Repeating the same update changes nothing more. */
  lemma UpdateFirstIdempotent(docs: seq<Document>, userId: string, u: Update)
    ensures UpdateFirst(UpdateFirst(docs, userId, u), userId, u) == UpdateFirst(docs, userId, u)
  {
    var once := UpdateFirst(docs, userId, u);
    assert FirstIndexOf(once, userId) == FirstIndexOf(docs, userId);
  }

  /** `save_notification` on the collection: insert a new document when the
      user has no records; overwrite the user's document when one of their
      records carries the same notification id; otherwise leave the collection
      as it is. The collection invariant is preserved. */
  function Saved(docs: seq<Document>, n: Notification, limit: int): (r: seq<Document>)
    requires StoreInvariant(docs)
    ensures StoreInvariant(r)
  {
    var notes := UserNotifications(docs, n.user_id);
    ConvertWrap(n, n.user_id, limit);
    if |notes| == 0 then
      InsertKeepsInvariant(docs, Document(n.user_id, Wrap(n, limit)));
      docs + [Document(n.user_id, Wrap(n, limit))]
    else if Lookup(notes, n.id).Ok? then
      UpdateKeepsInvariant(docs, n.user_id, Wrap(n, limit));
      UpdateFirst(docs, n.user_id, Wrap(n, limit))
    else docs
  }

  /** Appending a well-formed document for a user with no document keeps the
      collection invariant. */
  lemma InsertKeepsInvariant(docs: seq<Document>, d: Document)
    requires StoreInvariant(docs) && WellFormed(d) && RecordsOf(docs, d.id) == []
    ensures StoreInvariant(docs + [d])
  {
    var r := docs + [d];
    forall i, j | 0 <= i < j < |r| ensures r[i].id != r[j].id {
      if j == |docs| { assert r[i] == docs[i]; }
    }
  }

  /** Rewriting the update of a user's document with a well-formed one keeps
      the collection invariant. */
  lemma UpdateKeepsInvariant(docs: seq<Document>, userId: string, u: Update)
    requires StoreInvariant(docs) && RecordsOf(docs, userId) != []
    requires WellFormed(Document(userId, u))
    ensures StoreInvariant(UpdateFirst(docs, userId, u))
  {
    var k := FirstIndexOf(docs, userId);
    var r := UpdateFirst(docs, userId, u);
    assert k < |docs| && r[k] == Document(userId, u);
    forall d | d in r ensures WellFormed(d) {
      var i :| 0 <= i < |r| && r[i] == d;
      if i != k { assert r[i] == docs[i]; }
    }
  }

  /** Saving when the user has no records adds exactly one document, under
      that user, holding exactly that notification. */
  lemma SaveInsertsWhenAbsent(docs: seq<Document>, n: Notification, limit: int)
    requires StoreInvariant(docs) && UserNotifications(docs, n.user_id) == []
    ensures |Saved(docs, n, limit)| == |docs| + 1
    ensures Saved(docs, n, limit)[..|docs|] == docs
    ensures UserNotifications(Saved(docs, n, limit), n.user_id) == [n]
  {
    var r := Saved(docs, n, limit);
    RecordsUnique(r, |docs|);
    ConvertWrap(n, n.user_id, limit);
  }

  /** Saving a notification whose id the user already has overwrites the
      user's document: the collection keeps its size and the user now holds
      exactly the new notification. */
  lemma SaveReplacesSameId(docs: seq<Document>, n: Notification, limit: int)
    requires StoreInvariant(docs) && Lookup(UserNotifications(docs, n.user_id), n.id).Ok?
    ensures |Saved(docs, n, limit)| == |docs|
    ensures UserNotifications(Saved(docs, n, limit), n.user_id) == [n]
  {
    var r := Saved(docs, n, limit);
    var k := FirstIndexOf(docs, n.user_id);
    assert k < |docs|;
    assert r == UpdateFirst(docs, n.user_id, Wrap(n, limit));
    assert r[k] == Document(n.user_id, Wrap(n, limit));
    RecordsUnique(r, k);
    ConvertWrap(n, n.user_id, limit);
  }

  /** Saving a second, different notification for a user who already has a
      record stores nothing: there is no insert path for it. */
  lemma SaveDropsOtherId(docs: seq<Document>, n: Notification, limit: int)
    requires StoreInvariant(docs)
    requires UserNotifications(docs, n.user_id) != []
    requires Lookup(UserNotifications(docs, n.user_id), n.id).Err?
    ensures Saved(docs, n, limit) == docs
  {
  }

  /** Bridge for the scan in `MongoDatabase.SaveNotification`: the loop tests
      every record for the notification's id, so the branch `Saved` takes on
      a first match is the branch the scan takes on any match. */
  lemma SavedByScan(docs: seq<Document>, n: Notification, limit: int)
    requires StoreInvariant(docs)
    ensures var notes := UserNotifications(docs, n.user_id);
      Saved(docs, n, limit) ==
        if |notes| == 0 then docs + [Document(n.user_id, Wrap(n, limit))]
        else if exists j :: 0 <= j < |notes| && notes[j].id == n.id then UpdateFirst(docs, n.user_id, Wrap(n, limit))
        else docs
  {
  }

  /** Saving never touches another user's records. */
  lemma SaveKeepsOtherUsers(docs: seq<Document>, n: Notification, limit: int, userId: string)
    requires StoreInvariant(docs) && userId != n.user_id
    ensures RecordsOf(Saved(docs, n, limit), userId) == RecordsOf(docs, userId)
  {
    var r := Saved(docs, n, limit);
    var notes := UserNotifications(docs, n.user_id);
    if |notes| == 0 {
      var d := Document(n.user_id, Wrap(n, limit));
      assert r == docs + [d];
      RecordsOfConcat(docs, [d], userId);
      assert RecordsOf([d], userId) == [];
    } else if Lookup(notes, n.id).Ok? {
      assert r == UpdateFirst(docs, n.user_id, Wrap(n, limit));
      if exists k :: 0 <= k < |docs| && docs[k].id == userId {
        var k :| 0 <= k < |docs| && docs[k].id == userId;
        assert r[k] == docs[k];
        RecordsUnique(docs, k);
        RecordsUnique(r, k);
      } else {
        assert forall i :: 0 <= i < |r| ==> r[i].id != userId by {
          forall i | 0 <= i < |r| ensures r[i].id != userId {
            assert r[i].id == docs[i].id;
          }
        }
      }
    }
  }

  /** A saved notification that was stored (inserted, or replacing its
      previous version) is what a later lookup by its id returns. */
  lemma SaveThenLookup(docs: seq<Document>, n: Notification, limit: int)
    requires StoreInvariant(docs)
    requires UserNotifications(docs, n.user_id) == [] || Lookup(UserNotifications(docs, n.user_id), n.id).Ok?
    ensures Lookup(UserNotifications(Saved(docs, n, limit), n.user_id), n.id) == Ok(n)
  {
    if UserNotifications(docs, n.user_id) == [] {
      SaveInsertsWhenAbsent(docs, n, limit);
    } else {
      SaveReplacesSameId(docs, n, limit);
    }
  }

  class MongoDatabase {
    /** The users collection. */
    var users: seq<Document>
    /** The `$slice` value written into every document. */
    const notificationsLimit: int
    /** The call trace this store shares with the mail sink. */
    const log: CallLog

    ghost predicate Valid()
      reads this
    {
      StoreInvariant(users)
    }

    constructor (notificationsLimit: int, log: CallLog)
      ensures Valid() && users == [] && this.notificationsLimit == notificationsLimit && this.log == log
    {
      users := [];
      this.notificationsLimit := notificationsLimit;
      this.log := log;
    }

    /** First match by `$each[0].id` among the user's records; a user with no
        records is reported as NotificationNotFound, never UserNotFound. */
    method GetNotification(userId: string, notificationId: string) returns (r: Result<Notification, DbError>)
      requires Valid()
      ensures r == Lookup(UserNotifications(users, userId), notificationId)
    {
      var records := RecordsOf(users, userId);
      ghost var notes := UserNotifications(users, userId);
      for i := 0 to |records|
        invariant Lookup(notes, notificationId) == Lookup(notes[i..], notificationId)
      {
        assert Convert(records[i]) == Some(notes[i]);
        if records[i].notifications.each[0]["id"] == Str(notificationId) {
          return Ok(Convert(records[i]).value);
        }
        LookupSkip(notes, i, notificationId);
      }
      return Err(NotificationNotFound);
    }

    /** Paginated listing: empty when the user has no records or `skip` is at
        or past the end, otherwise the Python slice
        `notifications[skip : min(skip + limit, count)]`. */
    function GetNotifications(userId: string, skip: int, limit: int): (r: seq<Notification>)
      reads this
      requires Valid()
      ensures var notes := UserNotifications(users, userId);
        && (|notes| == 0 || skip >= |notes| ==> r == [])
        && (0 <= skip < |notes| && 0 <= limit ==> r == notes[skip..Min(skip + limit, |notes|)])
        && (0 <= limit ==> |r| <= limit)
        && (0 <= skip < |notes| ==> |r| <= |notes| - skip)
        && (forall x :: x in r ==> x in notes)
    {
      var data := RecordsOf(users, userId);
      var count := |data|;
      if count == 0 || skip >= count then []
      else
        var notes := ConvertAll(data);
        SliceDrawnFrom(notes, skip, Min(skip + limit, count));
        PySlice(notes, skip, Min(skip + limit, count))
    }

    /** `save_notification`, with `insert_one` appending a document and
        `update_one` rewriting the first document filed under the user. */
    method SaveNotification(n: Notification)
      requires Valid()
      modifies this, log
      ensures Valid()
      ensures users == Saved(old(users), n, notificationsLimit)
      ensures log.calls == old(log.calls) + [Save(n)]
    {
      log.calls := log.calls + [Save(n)];
      var records := RecordsOf(users, n.user_id);
      var notes := ConvertAll(records);
      var wrapped := Wrap(n, notificationsLimit);
      ghost var before := users;
      assert notes == UserNotifications(before, n.user_id);
      SavedByScan(before, n, notificationsLimit);
      if |notes| > 0 {
        UpdateFirstIdempotent(before, n.user_id, wrapped);
        ghost var updated := UpdateFirst(before, n.user_id, wrapped);
        ghost var matched := false;
        for i := 0 to |notes|
          invariant matched <==> exists j :: 0 <= j < i && notes[j].id == n.id
          invariant users == if matched then updated else before
          invariant log.calls == old(log.calls) + [Save(n)]
        {
          if notes[i].id == n.id {
            users := UpdateFirst(users, n.user_id, wrapped);
            matched := true;
          } else {
            assert forall j :: 0 <= j < i + 1 && notes[j].id == n.id ==> j < i;
          }
        }
      } else {
        users := users + [Document(n.user_id, wrapped)];
      }
    }
  }
}
