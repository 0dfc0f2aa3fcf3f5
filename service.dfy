/** The service: request validation, the kind-based dispatch policy, the read
    flip, listing, and the mapping from error kinds to HTTP status codes.
    The endpoints are given once per store implementation, since the service
    is wired either to the MongoDB store or to the in-memory double; in both
    cases the mail sink is the recording one. */
module Service {
  import opened Basics
  import opened Notifications
  import opened Mail
  import opened MongoStore
  import opened Fakes
  import opened Calls

  /** The length of an ObjectId in its string form. */
  const OBJECT_ID_LENGTH := 24

  /** The create request body as it arrives, before validation. */
  datatype RawPayload = RawPayload(
    user_id: string,
    key: string,
    target_id: Option<string>,
    target_email: Option<string>,
    data: Option<Data>)

  /** A validated create request. */
  datatype RequestPayload = RequestPayload(
    user_id: string,
    key: NotificationKey,
    target_id: Option<string>,
    target_email: Option<string>,
    data: Option<Data>)

  /** Request validation: `user_id` must have ObjectId length, `key` must name
      a kind, and a given `target_id` must have ObjectId length. Every failing
      field contributes one message. */
  function Validate(raw: RawPayload): (r: Result<RequestPayload, seq<string>>)
    ensures r.Ok? <==> && |raw.user_id| == OBJECT_ID_LENGTH
                       && ParseKey(raw.key).Some?
                       && (raw.target_id.Some? ==> |raw.target_id.value| == OBJECT_ID_LENGTH)
    ensures r.Ok? ==> && r.value.user_id == raw.user_id
                      && KeyName(r.value.key) == raw.key
                      && r.value.target_id == raw.target_id
                      && r.value.target_email == raw.target_email
                      && r.value.data == raw.data
    ensures r.Err? ==> 0 < |r.error| <= 3
  {
    var userOk := |raw.user_id| == OBJECT_ID_LENGTH;
    var key := ParseKey(raw.key);
    var targetOk := raw.target_id.Some? ==> |raw.target_id.value| == OBJECT_ID_LENGTH;
    if userOk && key.Some? && targetOk then
      Ok(RequestPayload(raw.user_id, key.value, raw.target_id, raw.target_email, raw.data))
    else Err(ValidationMessages(userOk, key.Some?, targetOk))
  }

  const USER_ID_MESSAGE := "user_id is not a valid ObjectId. Must be 24 characters long."
  const KEY_MESSAGE := "Input should be 'registration', 'new_message', 'new_post' or 'new_login'"
  const TARGET_ID_MESSAGE := "target_id is not a valid ObjectId. Must be 24 characters long."

  /** One message per failing field, in field order. */
  function ValidationMessages(userOk: bool, keyOk: bool, targetOk: bool): (r: seq<string>)
    ensures |r| == (if userOk then 0 else 1) + (if keyOk then 0 else 1) + (if targetOk then 0 else 1)
  {
    (if userOk then [] else [USER_ID_MESSAGE])
    + (if keyOk then [] else [KEY_MESSAGE])
    + (if targetOk then [] else [TARGET_ID_MESSAGE])
  }

  /** `to_notification`: a new, unread record carrying the request's fields;
      the fresh id and the clock reading are inputs. */
  function ToNotification(p: RequestPayload, id: string, timestamp: int): (n: Notification)
    ensures n.is_new
    ensures n.id == id && n.timestamp == timestamp
    ensures n.user_id == p.user_id && n.key == p.key && n.target_id == p.target_id && n.data == p.data
  {
    Notification(id, timestamp, true, p.user_id, p.key, p.target_id, p.data)
  }

  /** The email a request asks for: to the request's target address, with the
      kind's name as the message. */
  function EmailFor(p: RequestPayload): (e: SmtpRequest)
    ensures e.to == p.target_email && e.message == KeyName(p.key)
  {
    SmtpRequest(p.target_email, KeyName(p.key))
  }

  /** The policy table: which sinks each kind fires. */
  predicate StoresRecord(k: NotificationKey) { k != Registration }
  predicate SendsEmail(k: NotificationKey) { k == Registration || k == NewLogin }

  /** The calls `create_notification` makes, in the order it makes them. */
  function Dispatch(p: RequestPayload, id: string, timestamp: int): (effects: seq<Effect>)
    ensures 0 < |effects| <= 2
    ensures forall e :: e in effects ==> e == Save(ToNotification(p, id, timestamp)) || e == Send(EmailFor(p))
  {
    match p.key
    case Registration => [Send(EmailFor(p))]
    case NewMessage => [Save(ToNotification(p, id, timestamp))]
    case NewPost => [Save(ToNotification(p, id, timestamp))]
    case NewLogin => [Save(ToNotification(p, id, timestamp)), Send(EmailFor(p))]
  }

  /** Dispatch fires exactly the sinks the policy table names for the kind,
      each exactly once, with the materialised notification and the email to
      the target address; `new_login` saves first and then sends. */
  lemma DispatchFollowsPolicy(p: RequestPayload, id: string, timestamp: int)
    ensures |Saves(Dispatch(p, id, timestamp))| == (if StoresRecord(p.key) then 1 else 0)
    ensures |Sends(Dispatch(p, id, timestamp))| == (if SendsEmail(p.key) then 1 else 0)
    ensures forall n :: n in Saves(Dispatch(p, id, timestamp)) ==> n == ToNotification(p, id, timestamp)
    ensures forall e :: e in Sends(Dispatch(p, id, timestamp)) ==> e == EmailFor(p)
    ensures p.key == NewLogin ==> Dispatch(p, id, timestamp)[0].Save? && Dispatch(p, id, timestamp)[1].Send?
  {
    match p.key
    case Registration =>
    case NewMessage =>
    case NewPost =>
    case NewLogin =>
      var effects := Dispatch(p, id, timestamp);
      assert effects[1..][1..] == [];
  }

  /** The read flip: an unread notification turns read and must be saved
      again; a notification already read needs nothing. */
  function MarkRead(n: Notification): (r: Option<Notification>)
    ensures r.Some? <==> n.is_new
    ensures r.Some? ==> !r.value.is_new && r.value == n.(is_new := false)
  {
    if n.is_new then Some(n.(is_new := false)) else None
  }

  /** Flipping is idempotent: what one read produces needs no second save. */
  lemma MarkReadIdempotent(n: Notification)
    ensures MarkRead(n).Some? ==> MarkRead(MarkRead(n).value) == None
  {
  }

  /** The error kinds that reach the exception handlers. */
  datatype ErrorKind = ValidationError(messages: seq<string>) | StoreError(error: DbError) | Unexpected

  /** The exception handlers, as a total map from error kind to status. */
  function StatusOf(e: ErrorKind): (code: int)
    ensures code == 400 <==> e.ValidationError? || e == StoreError(InvalidParameters)
    ensures code == 404 <==> e == StoreError(UserNotFound) || e == StoreError(NotificationNotFound)
    ensures code == 500 <==> e.Unexpected?
  {
    match e
    case ValidationError(_) => 400
    case StoreError(UserNotFound) => 404
    case StoreError(NotificationNotFound) => 404
    case StoreError(InvalidParameters) => 400
    case Unexpected => 500
  }

  function Concat(messages: seq<string>): string
  {
    if |messages| == 0 then "" else messages[0] + Concat(messages[1..])
  }

  const USER_NOT_FOUND := "User not found"
  const NOTIFICATION_NOT_FOUND := "Notification not found"
  const INVALID_PARAMETERS := "Invalid parameters"
  const INTERNAL_ERROR := "Internal Server Error"

  /** The error text each handler puts in the failure body. */
  function ErrorBody(e: ErrorKind): string
  {
    match e
    case ValidationError(messages) => Concat(messages)
    case StoreError(UserNotFound) => USER_NOT_FOUND
    case StoreError(NotificationNotFound) => NOTIFICATION_NOT_FOUND
    case StoreError(InvalidParameters) => INVALID_PARAMETERS
    case Unexpected => INTERNAL_ERROR
  }

  /** A response: success with an optional payload, or failure with an error. */
  datatype Response =
    | Success(status: int, data: Option<seq<Notification>>)
    | Failure(status: int, error: string)

  function FailureOf(e: ErrorKind): (r: Response)
    ensures r.Failure? && r.status == StatusOf(e) && r.error == ErrorBody(e)
  {
    Failure(StatusOf(e), ErrorBody(e))
  }

  /** `/create` over the in-memory store: a rejected request touches no sink;
      an accepted one makes exactly the calls Dispatch lists, in that order. */
  method CreateNotification(db: FakeDb, smtp: FakeSmtp, raw: RawPayload, id: string, timestamp: int)
    returns (resp: Response)
    requires db.log == smtp.log
    modifies db, smtp, db.log
    ensures Validate(raw).Err? ==> && resp == FailureOf(ValidationError(Validate(raw).error))
                                   && db.documents == old(db.documents)
                                   && smtp.requests == old(smtp.requests)
                                   && db.log.calls == old(db.log.calls)
    ensures Validate(raw).Ok? ==>
      var effects := Dispatch(Validate(raw).value, id, timestamp);
      && resp == Success(201, None)
      && db.log.calls == old(db.log.calls) + effects
      && db.documents == old(db.documents) + Saves(effects)
      && smtp.requests == old(smtp.requests) + Sends(effects)
  {
    var v := Validate(raw);
    if v.Err? {
      return FailureOf(ValidationError(v.error));
    }
    var p := v.value;
    match p.key {
      case Registration =>
        smtp.SendEmail(EmailFor(p));
      case NewMessage =>
        db.SaveNotification(ToNotification(p, id, timestamp));
      case NewPost =>
        db.SaveNotification(ToNotification(p, id, timestamp));
      case NewLogin =>
        db.SaveNotification(ToNotification(p, id, timestamp));
        smtp.SendEmail(EmailFor(p));
    }
    return Success(201, None);
  }

  /** `/create` over the MongoDB store: as above, with the one save going
      through the store's save rule. */
  method CreateNotificationOnMongo(db: MongoDatabase, smtp: FakeSmtp, raw: RawPayload, id: string, timestamp: int)
    returns (resp: Response)
    requires db.Valid() && db.log == smtp.log
    modifies db, smtp, db.log
    ensures db.Valid()
    ensures Validate(raw).Err? ==> && resp == FailureOf(ValidationError(Validate(raw).error))
                                   && db.users == old(db.users)
                                   && smtp.requests == old(smtp.requests)
                                   && db.log.calls == old(db.log.calls)
    ensures Validate(raw).Ok? ==>
      var p := Validate(raw).value;
      var effects := Dispatch(p, id, timestamp);
      && resp == Success(201, None)
      && db.log.calls == old(db.log.calls) + effects
      && db.users == (if StoresRecord(p.key)
                      then Saved(old(db.users), ToNotification(p, id, timestamp), db.notificationsLimit)
                      else old(db.users))
      && smtp.requests == old(smtp.requests) + Sends(effects)
  {
    var v := Validate(raw);
    if v.Err? {
      return FailureOf(ValidationError(v.error));
    }
    var p := v.value;
    match p.key {
      case Registration =>
        smtp.SendEmail(EmailFor(p));
      case NewMessage =>
        db.SaveNotification(ToNotification(p, id, timestamp));
      case NewPost =>
        db.SaveNotification(ToNotification(p, id, timestamp));
      case NewLogin =>
        db.SaveNotification(ToNotification(p, id, timestamp));
        smtp.SendEmail(EmailFor(p));
    }
    return Success(201, None);
  }

  /** `/read` over the in-memory store: 404 when the user has no record with
      that id; otherwise success. An unread record is flipped and saved again.
      The fake hands out the stored object itself, so the flip also rewrites
      the stored record, and the save appends that same, flipped record. A
      record already read causes no save. */
  method ReadNotification(db: FakeDb, userId: string, notificationId: string) returns (resp: Response)
    modifies db, db.log
    ensures var found := Lookup(UserRecords(old(db.documents), userId), notificationId);
      && (found.Err? ==>
            && resp == FailureOf(StoreError(NotificationNotFound))
            && db.documents == old(db.documents)
            && db.log.calls == old(db.log.calls))
      && (found.Ok? && !found.value.is_new ==>
            && resp == Success(200, None)
            && db.documents == old(db.documents)
            && db.log.calls == old(db.log.calls))
      && (found.Ok? && found.value.is_new ==>
            var flipped := found.value.(is_new := false);
            && resp == Success(200, None)
            && db.documents == ReplaceFirstMatch(old(db.documents), userId, notificationId, flipped) + [flipped]
            && db.log.calls == old(db.log.calls) + [Save(flipped)])
  {
    var found := db.GetNotification(userId, notificationId);
    if found.Err? {
      return FailureOf(StoreError(found.error));
    }
    var flipped := MarkRead(found.value);
    if flipped.Some? {
      // `notification.is_new = False` writes through to the stored record.
      db.documents := ReplaceFirstMatch(db.documents, userId, notificationId, flipped.value);
      db.SaveNotification(flipped.value);
    }
    return Success(200, None);
  }

  /** After a read on the in-memory store, the record a later lookup finds is
      the flipped one, so reading the same notification again saves nothing. */
  lemma ReadThenReadAgain(docs: seq<Notification>, userId: string, notificationId: string)
    requires Lookup(UserRecords(docs, userId), notificationId).Ok?
    ensures var flipped := Lookup(UserRecords(docs, userId), notificationId).value.(is_new := false);
      var after := ReplaceFirstMatch(docs, userId, notificationId, flipped) + [flipped];
      && Lookup(UserRecords(after, userId), notificationId) == Ok(flipped)
      && MarkRead(Lookup(UserRecords(after, userId), notificationId).value) == None
  {
    var found := Lookup(UserRecords(docs, userId), notificationId).value;
    var flipped := found.(is_new := false);
    var replaced := ReplaceFirstMatch(docs, userId, notificationId, flipped);
    var k := FirstMatch(docs, userId, notificationId);
    FirstMatchIsLookup(docs, userId, notificationId);
    assert FirstMatch(replaced, userId, notificationId) == k by {
      FirstMatchStable(docs, replaced, userId, notificationId);
    }
    FirstMatchIsLookup(replaced, userId, notificationId);
    UserRecordsAppend(replaced, flipped, userId);
    LookupAppend(UserRecords(replaced, userId), [flipped], notificationId);
  }

  /** `/read` over the MongoDB store: the flipped record goes through the
      store's save rule, which overwrites the user's document. */
  method ReadNotificationOnMongo(db: MongoDatabase, userId: string, notificationId: string) returns (resp: Response)
    requires db.Valid()
    modifies db, db.log
    ensures db.Valid()
    ensures var found := Lookup(UserNotifications(old(db.users), userId), notificationId);
      && (found.Err? ==> resp == FailureOf(StoreError(NotificationNotFound))
                         && db.users == old(db.users)
                         && db.log.calls == old(db.log.calls))
      && (found.Ok? ==> resp == Success(200, None)
                        && db.users == (if found.value.is_new
                                        then Saved(old(db.users), found.value.(is_new := false), db.notificationsLimit)
                                        else old(db.users))
                        && db.log.calls == old(db.log.calls)
                           + (if found.value.is_new then [Save(found.value.(is_new := false))] else []))
  {
    var found := db.GetNotification(userId, notificationId);
    if found.Err? {
      return FailureOf(StoreError(found.error));
    }
    var flipped := MarkRead(found.value);
    if flipped.Some? {
      db.SaveNotification(flipped.value);
    }
    return Success(200, None);
  }

  /** On the MongoDB store, reading an unread notification makes the flip
      visible to the next lookup by the same id, and a second read saves
      nothing. */
  lemma ReadFlipVisible(docs: seq<Document>, userId: string, notificationId: string, limit: int)
    requires StoreInvariant(docs)
    requires Lookup(UserNotifications(docs, userId), notificationId).Ok?
    requires Lookup(UserNotifications(docs, userId), notificationId).value.is_new
    ensures var n := Lookup(UserNotifications(docs, userId), notificationId).value;
      var after := Saved(docs, n.(is_new := false), limit);
      && Lookup(UserNotifications(after, userId), notificationId) == Ok(n.(is_new := false))
      && MarkRead(Lookup(UserNotifications(after, userId), notificationId).value) == None
  {
    var n := Lookup(UserNotifications(docs, userId), notificationId).value;
    var flipped := n.(is_new := false);
    assert n.user_id == userId;
    assert Lookup(UserNotifications(docs, flipped.user_id), flipped.id).Ok?;
    SaveThenLookup(docs, flipped, limit);
  }

  /** `/list` over the in-memory store: the page `user[skip : skip + limit]`,
      or 400 "Invalid parameters" unless `0 <= skip < len(user)` and
      `limit > 0`. */
  method GetNotificationList(db: FakeDb, userId: string, skip: int, limit: int) returns (resp: Response)
    ensures var user := UserRecords(db.documents, userId);
      && (0 <= skip < |user| && limit > 0 ==>
            resp == Success(200, Some(user[skip..Min(skip + limit, |user|)])))
      && (!(0 <= skip < |user| && limit > 0) ==> resp == Failure(400, INVALID_PARAMETERS))
  {
    var page := db.GetNotifications(userId, skip, limit);
    if page.Err? {
      return FailureOf(StoreError(page.error));
    }
    return Success(200, Some(page.value));
  }

  /** `/list` over the MongoDB store: it never fails; out-of-range pages are
      empty and an in-range page has at most `limit` items. */
  method GetNotificationListOnMongo(db: MongoDatabase, userId: string, skip: int, limit: int) returns (resp: Response)
    requires db.Valid()
    ensures resp.Success? && resp.status == 200 && resp.data.Some?
    ensures resp.data.value == db.GetNotifications(userId, skip, limit)
    ensures 0 <= limit ==> |resp.data.value| <= limit
  {
    var page := db.GetNotifications(userId, skip, limit);
    return Success(200, Some(page));
  }
}
