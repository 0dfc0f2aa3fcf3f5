/** The unit tests' scenarios, replayed against the model: each builds fresh
    in-memory sinks, drives the endpoints, and states what the test asserts.
    Two further scenarios drive the MongoDB store end to end. */
module UnitScenarios {
  import opened Basics
  import opened Notifications
  import opened Mail
  import opened MongoStore
  import opened Fakes
  import opened Service
  import opened Calls

  function Request(userId: string, key: string, targetEmail: Option<string>): RawPayload
  {
    RawPayload(userId, key, None, targetEmail, None)
  }

  /** A store holding one record: its owner's records are that record, and
      it is what a lookup of its id under that owner finds. */
  lemma OneRecord(n: Notification)
    ensures UserRecords([n], n.user_id) == [n]
    ensures FirstMatch([n], n.user_id, n.id) == 0
    ensures Lookup([n], n.id) == Ok(n)
  {
    UserRecordsAppend([], n, n.user_id);
  }

  /** Registration: 201, exactly one email, addressed as requested and
      carrying the kind, and nothing stored. */
  method RegistrationSendsOneEmail(userId: string, id: string, timestamp: int)
    returns (resp: Response, sent: seq<SmtpRequest>, stored: seq<Notification>)
    requires |userId| == OBJECT_ID_LENGTH
    ensures resp == Success(201, None)
    ensures sent == [SmtpRequest(Some("reciever@mail.ru"), "registration")]
    ensures stored == []
  {
    var log := new CallLog();
    var db := new FakeDb(log);
    var smtp := new FakeSmtp(log);
    resp := CreateNotification(db, smtp, Request(userId, "registration", Some("reciever@mail.ru")), id, timestamp);
    sent, stored := smtp.requests, db.documents;
  }

  /** An unknown kind, with a well-formed or a short user id: 400, a failure,
      and neither sink is touched. */
  method InvalidPayloadRejected(userId: string, id: string, timestamp: int)
    returns (resp: Response, sent: seq<SmtpRequest>, stored: seq<Notification>)
    requires |userId| == 24 || |userId| == 23
    ensures resp.Failure? && resp.status == 400
    ensures sent == [] && stored == []
  {
    var log := new CallLog();
    var db := new FakeDb(log);
    var smtp := new FakeSmtp(log);
    resp := CreateNotification(db, smtp, Request(userId, "invalid", None), id, timestamp);
    sent, stored := smtp.requests, db.documents;
  }

  /** `new_message`: one record for the user and no email. */
  method NewMessageStoresOnly(userId: string, id: string, timestamp: int)
    returns (resp: Response, userRecords: seq<Notification>, sent: seq<SmtpRequest>)
    requires |userId| == OBJECT_ID_LENGTH
    ensures resp == Success(201, None)
    ensures |userRecords| == 1 && userRecords[0].is_new && userRecords[0].id == id
    ensures sent == []
  {
    var log := new CallLog();
    var db := new FakeDb(log);
    var smtp := new FakeSmtp(log);
    resp := CreateNotification(db, smtp, Request(userId, "new_message", None), id, timestamp);
    userRecords := db.GetUser(userId);
    sent := smtp.requests;
  }

  /** `new_login`: one record and one email, the record saved first. */
  method NewLoginStoresAndSends(userId: string, id: string, timestamp: int)
    returns (resp: Response, stored: seq<Notification>, sent: seq<SmtpRequest>, ghost calls: seq<Effect>)
    requires |userId| == OBJECT_ID_LENGTH
    ensures resp == Success(201, None)
    ensures |stored| == 1 && |sent| == 1
    ensures sent[0] == SmtpRequest(None, "new_login")
    ensures calls == [Save(stored[0]), Send(sent[0])]
  {
    var log := new CallLog();
    var db := new FakeDb(log);
    var smtp := new FakeSmtp(log);
    resp := CreateNotification(db, smtp, Request(userId, "new_login", None), id, timestamp);
    stored, sent := db.documents, smtp.requests;
    calls := log.calls;
  }

  /** The common set-up of the read tests: fresh sinks and one `new_message`
      created for the user. */
  method CreateOneMessage(userId: string, id: string, timestamp: int) returns (db: FakeDb, n: Notification)
    requires |userId| == OBJECT_ID_LENGTH
    ensures fresh(db) && fresh(db.log)
    ensures n == Notification(id, timestamp, true, userId, NewMessage, None, None)
    ensures db.documents == [n]
  {
    var log := new CallLog();
    db := new FakeDb(log);
    var smtp := new FakeSmtp(log);
    var request := Request(userId, "new_message", None);
    n := ToNotification(Validate(request).value, id, timestamp);
    var _ := CreateNotification(db, smtp, request, id, timestamp);
  }

  /** Reading a new notification: 200, and the in-memory store goes from one
      record to two, the second with `is_new` false. The first is the same
      object, so it reads as read too. */
  method ReadCorrectNotification(userId: string, id: string, timestamp: int)
    returns (resp: Response, countBefore: nat, countAfter: nat, first: Notification, second: Notification)
    requires |userId| == OBJECT_ID_LENGTH
    ensures resp == Success(200, None)
    ensures countBefore == 1 && countAfter == 2
    ensures !second.is_new && second.id == id
    ensures first == second
  {
    var db, n := CreateOneMessage(userId, id, timestamp);
    OneRecord(n);
    countBefore := |db.documents|;
    resp := ReadNotification(db, userId, db.documents[0].id);
    assert db.documents == [n.(is_new := false)] + [n.(is_new := false)];
    countAfter := |db.documents|;
    first, second := db.documents[0], db.documents[1];
  }

  /** Reading the same notification twice saves once: the second lookup
      finds the record already flipped. */
  method ReadTwiceSavesOnce(userId: string, id: string, timestamp: int) returns (resp: Response, count: nat)
    requires |userId| == OBJECT_ID_LENGTH
    ensures resp == Success(200, None)
    ensures count == 2
  {
    var db, n := CreateOneMessage(userId, id, timestamp);
    ghost var created := db.documents;
    OneRecord(n);
    ghost var flipped := n.(is_new := false);
    var _ := ReadNotification(db, userId, id);
    assert db.documents == ReplaceFirstMatch(created, userId, id, flipped) + [flipped];
    ReadThenReadAgain(created, userId, id);
    ghost var read := db.documents;
    assert Lookup(UserRecords(read, userId), id) == Ok(flipped);
    resp := ReadNotification(db, userId, id);
    assert db.documents == read;
    count := |db.documents|;
  }

  /** Reading another user's notification: 404 "Notification not found". */
  method ReadNotFound(userId: string, otherUser: string, id: string, timestamp: int) returns (resp: Response)
    requires |userId| == OBJECT_ID_LENGTH && otherUser != userId
    ensures resp == Failure(404, NOTIFICATION_NOT_FOUND)
  {
    var db, n := CreateOneMessage(userId, id, timestamp);
    assert db.documents == [] + [n];
    UserRecordsAppend([], n, otherUser);
    assert UserRecords(db.documents, otherUser) == [];
    resp := ReadNotification(db, otherUser, db.documents[0].id);
    assert resp == FailureOf(StoreError(NotificationNotFound));
  }

  method CreateThree(userId: string, db: FakeDb, smtp: FakeSmtp, ids: seq<string>, timestamp: int)
    requires |userId| == OBJECT_ID_LENGTH && |ids| == 3 && db.log == smtp.log
    modifies db, smtp, db.log
    ensures |UserRecords(db.documents, userId)| == |UserRecords(old(db.documents), userId)| + 3
  {
    for i := 0 to 3
      invariant |UserRecords(db.documents, userId)| == |UserRecords(old(db.documents), userId)| + i
    {
      ghost var before := db.documents;
      var _ := CreateNotification(db, smtp, Request(userId, "new_message", None), ids[i], timestamp + i);
      UserRecordsAppend(before, db.documents[|db.documents| - 1], userId);
    }
  }

  /** Three records, `skip = 1`, `limit = 1`: exactly one item. */
  method ListOnePage(userId: string, ids: seq<string>, timestamp: int) returns (resp: Response)
    requires |userId| == OBJECT_ID_LENGTH
    requires |ids| == 3
    ensures resp.Success? && resp.status == 200 && resp.data.Some? && |resp.data.value| == 1
  {
    var log := new CallLog();
    var db := new FakeDb(log);
    var smtp := new FakeSmtp(log);
    CreateThree(userId, db, smtp, ids, timestamp);
    resp := GetNotificationList(db, userId, 1, 1);
  }

  /** Three records, `skip = 3`: 400 "Invalid parameters". */
  method ListPastTheEnd(userId: string, ids: seq<string>, timestamp: int) returns (resp: Response)
    requires |userId| == OBJECT_ID_LENGTH
    requires |ids| == 3
    ensures resp == Failure(400, INVALID_PARAMETERS)
  {
    var log := new CallLog();
    var db := new FakeDb(log);
    var smtp := new FakeSmtp(log);
    CreateThree(userId, db, smtp, ids, timestamp);
    resp := GetNotificationList(db, userId, 3, 1);
  }

  /** On the MongoDB store: create, read, and look up again — the flip is
      visible, and the notification keeps its id and timestamp. */
  method MongoReadIsVisible(userId: string, id: string, timestamp: int) returns (found: Result<Notification, DbError>)
    requires |userId| == OBJECT_ID_LENGTH
    ensures found.Ok? && !found.value.is_new && found.value.id == id && found.value.timestamp == timestamp
  {
    var log := new CallLog();
    var db := new MongoDatabase(3, log);
    var smtp := new FakeSmtp(log);
    var request := Request(userId, "new_message", None);
    ghost var n := ToNotification(Validate(request).value, id, timestamp);
    var _ := CreateNotificationOnMongo(db, smtp, request, id, timestamp);
    SaveInsertsWhenAbsent([], n, 3);
    assert UserNotifications(db.users, userId) == [n];
    ghost var created := db.users;
    var _ := ReadNotificationOnMongo(db, userId, id);
    ReadFlipVisible(created, userId, id, 3);
    found := db.GetNotification(userId, id);
  }

  /** On the MongoDB store: a second, different notification for the same
      user is not stored, so looking it up fails. */
  method MongoSecondNotificationDropped(userId: string, id1: string, id2: string, timestamp: int)
    returns (found: Result<Notification, DbError>, documents: nat)
    requires |userId| == OBJECT_ID_LENGTH
    requires id1 != id2
    ensures found == Err(NotificationNotFound)
    ensures documents == 1
  {
    var log := new CallLog();
    var db := new MongoDatabase(3, log);
    var smtp := new FakeSmtp(log);
    var request := Request(userId, "new_message", None);
    ghost var n1 := ToNotification(Validate(request).value, id1, timestamp);
    var _ := CreateNotificationOnMongo(db, smtp, request, id1, timestamp);
    SaveInsertsWhenAbsent([], n1, 3);
    assert UserNotifications(db.users, userId) == [n1];
    assert |db.users| == 1;
    var _ := CreateNotificationOnMongo(db, smtp, request, id2, timestamp + 1);
    found := db.GetNotification(userId, id2);
    documents := |db.users|;
  }
}
