# Notification service — a verified model

This project models the core of a small notification service. Inbound
events are routed by their kind to a per-user notification store, to an
outbound email sink, or to both. The store supports lookup by id,
paginated listing, and a save that also carries the read flip.

The model has seven modules:

- `Basics`: Option and Result, and Python's slice semantics (`PySlice`).
- `Notifications`: the data model. The four kinds with their string values, the notification record, the store's error kinds, and first-match lookup by id.
- `Mail`: the email request record.
- `Calls`: the calls into the two sinks, the shared call log, and the filters that pick the saves and the emails out of a run of calls.
- `MongoStore`: the MongoDB-backed store.
  - The collection is a sequence of per-user documents.
  - Each document holds the literal wrapper `{$each: [dump], $sort: {timestamp: -1}, $slice: limit}`.
  - Reading a document reads `$each[0]` only.
  - Saving inserts a document only when the user has no records. It overwrites the document when the id matches, and otherwise changes nothing.
  - The collection invariant: every document converts, it is filed under its notification's user, and there is at most one document per user. Saving preserves this invariant.
- `Fakes`: the in-memory test doubles. `FakeDb` is an append-only list and `FakeSmtp` records every request.
- `Service`: request validation, `to_notification`, the kind dispatch and its policy table, the read flip, and the exception-to-status map. It also has the three endpoints. Each endpoint is written once for the in-memory store and once for the MongoDB store. Mail always goes to the recording sink.
- `UnitScenarios`: the unit tests replayed as methods, plus two end-to-end runs on the MongoDB store. The user ids are parameters of ObjectId length rather than the tests' `"x" * 24` and `"y" * 24`, so each scenario covers every such id.

Two behaviours of the code are worth stating up front:

- The stored `$sort: {timestamp: -1}, $slice: limit` directive reads like capped, timestamp-sorted retention, but the code never merges. It writes the wrapper literally, and it keeps one notification per user. A second notification with a different id is not stored (`SaveDropsOtherId`, `MongoSecondNotificationDropped`).
- Out-of-range pagination gives different results in the two stores. The MongoDB store returns an empty page. `FakeDb` fails with InvalidParameters. Both are modelled as written.

Both sinks append every call they receive to one shared, ghost call log (`Calls.CallLog`). This makes the order of calls across the store and the mail sink part of the endpoints' contracts.

## Model

| member | source | states |
|---|---|---|
| `Basics.PySlice` | notification_service/db.py:110 | for 0 <= start <= stop the slice is `s[min(start,n)..min(stop,n)]`; in every case it is a contiguous run of `s` starting at the normalised start |
| `Basics.SliceDrawnFrom` | tests/test_units.py:38 | every element a slice returns comes from the sliced list |
| `Notifications.ParseKey` | notification_service/db.py:9-15 | a parsed kind's string value is the parsed string |
| `Notifications.KeyName` | notification_service/db.py:9-15 | each kind's string value (no contract of its own; `ParseKeyName` proves it injective and inverted by parsing) |
| `Notifications.ParseKeyName` | notification_service/db.py:9-15 | parsing inverts the enum's string value and accepts exactly the four values |
| `Notifications.Lookup` | notification_service/db.py:92-97 | succeeds iff some record has the id; then it returns the first such record; otherwise NotificationNotFound |
| `Notifications.LookupSkip` | notification_service/db.py:93-95 | a record with a different id does not change the lookup's outcome |
| `Notifications.LookupAppend` | notification_service/db.py:92-97 | lookup in two runs of records: the first run's match wins, the second is searched only when the first has none |
| `MongoStore.Dump` | notification_service/db.py:124 | the dumped map has exactly the seven notification fields |
| `MongoStore.Wrap` | notification_service/db.py:123-127 | the literal wrapper a save writes, with `$each` holding the one dump, `$sort` on timestamp descending and `$slice` the limit (no contract of its own; `ConvertWrap` is its round trip) |
| `MongoStore.FromDict` | notification_service/db.py:153-168 | a successful conversion agrees with the dump of its result on every field |
| `MongoStore.Convert` | notification_service/db.py:150-168 | a successful conversion means `$each` is non-empty and `$each[0]` projects onto the result |
| `MongoStore.FromDictComplete` | notification_service/db.py:153-168 | every map that projects onto a notification converts to exactly that notification |
| `MongoStore.ConvertReadsFirst` | notification_service/db.py:153-159 | conversion depends on `$each[0]` alone, not on the document id, later elements, `$sort` or `$slice` |
| `MongoStore.ConvertWrap` | notification_service/db.py:132-168 | round trip: the document a save writes converts back to the saved notification |
| `MongoStore.RecordsOf` | notification_service/db.py:144-148 | a document is among the records iff it is in the collection and filed under the user; there are some iff such a document exists |
| `MongoStore.RecordsOfConcat` | notification_service/db.py:144-148 | the filter keeps collection order: the records of a concatenation are the records of each part, in order |
| `MongoStore.RecordsUnique` | notification_service/db.py:144-148 | with one document per user, a user's records are exactly that document |
| `MongoStore.AtMostOneRecord` | notification_service/db.py:116-142 | under the invariant a user never has more than one record |
| `MongoStore.UserNotifications` | notification_service/db.py:113-114 | every notification handed out for a user belongs to that user |
| `MongoStore.FirstIndexOf` | notification_service/db.py:119-120 | the index of the first document filed under the user, or the length when there is none |
| `MongoStore.UpdateFirst` | notification_service/db.py:119-130 | the first document filed under the user gets the new notifications field, every other document is unchanged, and length and ids are kept |
| `MongoStore.UpdateFirstIdempotent` | notification_service/db.py:117-130 | repeating the same update (the loop may issue it more than once) changes nothing further |
| `MongoStore.Saved` | notification_service/db.py:112-142 | saving preserves the collection invariant: every document converts and is filed under its user, and ids stay unique |
| `MongoStore.SaveInsertsWhenAbsent` | notification_service/db.py:132-142 | a user with no records gains exactly one document, holding exactly the new notification; earlier documents are unchanged |
| `MongoStore.SaveReplacesSameId` | notification_service/db.py:116-130 | when the id is already present, the collection keeps its size and the user now holds exactly the new notification |
| `MongoStore.SaveDropsOtherId` | notification_service/db.py:116-130 | when the user has records but none with the id, the collection is unchanged |
| `MongoStore.SaveKeepsOtherUsers` | notification_service/db.py:119-142 | no other user's records change |
| `MongoStore.SaveThenLookup` | notification_service/db.py:112-142 | after an insert or a replace, looking up the saved id returns the saved notification |
| `MongoStore.SavedByScan` | notification_service/db.py:116-142 | bridge for the scan loop in `SaveNotification`: `Saved` (which stops at the first match) agrees with the loop's test of every record for the id; what a save does is stated by `SaveInsertsWhenAbsent`, `SaveReplacesSameId` and `SaveDropsOtherId` |
| `MongoStore.MongoDatabase.constructor` | notification_service/db.py:78-87 | an empty collection that satisfies the invariant, with the given `$slice` limit |
| `MongoStore.MongoDatabase.GetNotification` | notification_service/db.py:89-97 | the scan over the raw `$each[0].id` returns the first match among the user's notifications; otherwise NotificationNotFound, never UserNotFound |
| `MongoStore.MongoDatabase.GetNotifications` | notification_service/db.py:99-110 | empty with no records or when skip >= count; when 0 <= skip < count and limit >= 0, exactly `notes[skip..min(skip+limit,count)]`; at most `limit` items when limit >= 0, and at most `count - skip` when 0 <= skip < count; every item is one of the user's |
| `MongoStore.InsertKeepsInvariant` | notification_service/db.py:132-142 | `insert_one` of a well-formed document for a user who has none keeps every document well-formed and the user ids unique |
| `MongoStore.UpdateKeepsInvariant` | notification_service/db.py:117-130 | `update_one` rewriting the user's first document with a well-formed update keeps the collection invariant |
| `MongoStore.MongoDatabase.SaveNotification` | notification_service/db.py:112-142 | the collection becomes `Saved(old, n)`, the invariant still holds, and one save is logged |
| `Fakes.UserRecords` | tests/test_units.py:44-49 | exactly the records that belong to the user, and no more than the list holds |
| `Fakes.UserRecordsAppend` | tests/test_units.py:41-49 | an appended record extends its owner's records at the end and no one else's: insertion order is kept |
| `Fakes.FirstMatch` | tests/test_units.py:23-31 | the position of the stored record the lookup hands out: the first record of the user with the id, or the length when there is none |
| `Fakes.FirstMatchIsLookup` | tests/test_units.py:23-31 | the lookup succeeds iff FirstMatch is a position of the list, and then it returns the stored record at that position, the very object stored |
| `Fakes.ReplaceFirstMatch` | notification_service/service.py:160-161 | a write through the handed-out reference: the record at FirstMatch becomes the new value and every other record is unchanged |
| `Fakes.FakeDb.constructor` | tests/test_units.py:19-21 | the store starts empty |
| `Fakes.FakeDb.GetUser` | tests/test_units.py:44-49 | the loop collects exactly the user's records, in insertion order |
| `Fakes.FakeDb.GetNotification` | tests/test_units.py:23-31 | the first of the user's records with the id; otherwise NotificationNotFound, also when only another user has the id |
| `Fakes.FakeDb.GetNotifications` | tests/test_units.py:33-39 | succeeds iff 0 <= skip < len(user) and limit > 0; then it returns `user[skip..min(skip+limit,len)]`, between 1 and `limit` items; otherwise InvalidParameters |
| `Fakes.FakeDb.SaveNotification` | tests/test_units.py:41-42 | appends exactly the one notification and logs one save; nothing else changes |
| `Fakes.FakeSmtp.constructor` | tests/test_units.py:52-54 | no requests recorded yet |
| `Fakes.FakeSmtp.SendEmail` | tests/test_units.py:56-57 | appends the request unchanged and logs one email |
| `Calls.CallLog.constructor` | notification_service/service.py:130-141 | the shared call log starts empty |
| `Calls.Saves` | notification_service/service.py:130-141 | the saved notifications among some calls: n is among them iff `Save(n)` is one of the calls |
| `Calls.Sends` | notification_service/service.py:130-141 | the emails among some calls: e is among them iff `Send(e)` is one of the calls |
| `Calls.FiltersKeepOrder` | notification_service/service.py:130-141 | both filters keep call order: on a concatenation of calls they give the concatenation of the results |
| `Service.Validate` | notification_service/service.py:38-56 | accepts iff user_id has length 24, the key names a kind, and a given target_id has length 24; an accepted payload carries the raw fields unchanged; a rejection carries 1 to 3 messages |
| `Service.ValidationMessages` | notification_service/service.py:44-56 | one message per failing field |
| `Service.ToNotification` | notification_service/service.py:58-69 | the new record is unread, has the given id and timestamp, and copies user_id, key, target_id and data |
| `Service.EmailFor` | notification_service/service.py:132 | the email goes to target_email, and its message is the kind's string value |
| `Service.StoresRecord` | notification_service/service.py:115-119 | the policy table: every kind but registration stores a record |
| `Service.SendsEmail` | notification_service/service.py:115-119 | the policy table: registration and new_login send an email |
| `Service.Dispatch` | notification_service/service.py:130-141 | the calls the create endpoint makes, in order: one or two, each the new record's save or the request's email; `DispatchFollowsPolicy` proves it keeps the policy table |
| `Service.DispatchFollowsPolicy` | notification_service/service.py:130-141 | exactly one save iff the kind stores (all but registration); exactly one email iff the kind mails (registration, new_login); the save is the new record and the email is EmailFor; new_login saves first, then sends |
| `Service.MarkRead` | notification_service/service.py:160-162 | a save is needed iff the record is unread; the saved record is the same with is_new false |
| `Service.MarkReadIdempotent` | notification_service/service.py:159-163 | a record that was just flipped needs no second save |
| `Service.StatusOf` | notification_service/service.py:185-203 | the status map is total: 400 iff validation error or InvalidParameters; 404 iff UserNotFound or NotificationNotFound; 500 iff anything else |
| `Service.ErrorBody` | notification_service/service.py:187-203 | the error text of each handler (no contract of its own; `FailureOf` puts it in the response) |
| `Service.FailureOf` | notification_service/service.py:99-102 | a failure response with the status and error text of its handler |
| `Service.CreateNotification` | notification_service/service.py:111-143 | a rejected payload makes no call and gets the validation failure; an accepted one gets 201, the shared call log grows by exactly Dispatch, in its order (new_login saves, then sends), and the store and the mail log grow by its saves and sends |
| `Service.CreateNotificationOnMongo` | notification_service/service.py:111-143 | the same, call order included, with the one save going through the MongoDB save rule; the invariant is kept |
| `Service.ReadNotification` | notification_service/service.py:145-163 | 404 and no change when the lookup fails; 200 and no change for a record already read; for an unread one, 200, the stored record the lookup found is flipped in place and the same flipped record is appended, with one save logged |
| `Service.ReadThenReadAgain` | notification_service/service.py:159-163 | on the in-memory store, after a read the next lookup of the id finds the flipped record, so a second read saves nothing |
| `Service.ReadNotificationOnMongo` | notification_service/service.py:145-163 | 404 and no change when the lookup fails; otherwise 200, with the flipped record saved if it was unread and no save if it was read |
| `Service.ReadFlipVisible` | notification_service/service.py:159-163 | on the MongoDB store, after reading an unread notification, a lookup by the same id returns it with is_new false, and a second read saves nothing |
| `Service.GetNotificationList` | notification_service/service.py:165-183 | 200 with `user[skip..min(skip+limit,len)]` if 0 <= skip < len and limit > 0; otherwise 400 "Invalid parameters" |
| `Service.GetNotificationListOnMongo` | notification_service/service.py:165-183 | always 200 with the store's page unchanged; at most `limit` items when `limit >= 0` |
| `UnitScenarios.RegistrationSendsOneEmail` | tests/test_units.py:72-85 | 201, exactly one email `("reciever@mail.ru", "registration")`, nothing stored |
| `UnitScenarios.InvalidPayloadRejected` | tests/test_units.py:87-101 | an unknown kind with a 24- or 23-character user id gets 400 and a failure; neither sink is touched |
| `UnitScenarios.NewMessageStoresOnly` | tests/test_units.py:103-121 | new_message: one unread record for the user, no email |
| `UnitScenarios.NewLoginStoresAndSends` | tests/test_units.py:103-123 | new_login: one record and one email, the save logged before the email |
| `UnitScenarios.CreateOneMessage` | tests/test_units.py:126-132 | the read tests' set-up: fresh sinks holding exactly the one new, unread record for the user |
| `UnitScenarios.ReadCorrectNotification` | tests/test_units.py:125-141 | reading goes from one document to two; the second has is_new false, and the first is the same record; 200 |
| `UnitScenarios.ReadTwiceSavesOnce` | notification_service/service.py:159-163 | reading the same new notification twice leaves two records: the second read saves nothing |
| `UnitScenarios.ReadNotFound` | tests/test_units.py:143-155 | reading under another user gives 404 "Notification not found" |
| `UnitScenarios.CreateThree` | tests/test_units.py:163-165 | three creations add three records for the user |
| `UnitScenarios.ListOnePage` | tests/test_units.py:157-171 | three records, skip 1, limit 1: success with exactly one item |
| `UnitScenarios.ListPastTheEnd` | tests/test_units.py:173-186 | three records, skip 3: 400 "Invalid parameters" |
| `UnitScenarios.MongoReadIsVisible` | notification_service/service.py:159-162 | on the MongoDB store, create then read: the next lookup returns the notification read, with its id and timestamp |
| `UnitScenarios.MongoSecondNotificationDropped` | notification_service/db.py:116-130 | on the MongoDB store, a second new_message with a different id is not stored: its lookup fails and the collection still holds one document |

## Left out

- The MongoDB client (Motor), the asynchronous cursor in `get_records`, and the server's own treatment of the stored `$sort`/`$slice`. The collection is a plain sequence. `insert_one` appends a document; `update_one` rewrites the first document filed under the user.
- `Smtp.send_email` and the email headers it builds: network I/O. The mail sink is the recording one.
- The FastAPI routing and test client, JSON responses, and pydantic's parsing and serialisation. Validation is a function and responses are a small datatype. Unknown fields in a request are ignored by the service and are not modelled.
- `ObjectId()` and `datetime.utcnow()`: the id and the timestamp are parameters.
- async/await, and races between concurrent saves.
- notification_service/main.py and tests/test_system.py are not part of this model.
- The contents of `data`: opaque, represented by a string map.
- `Notifications.DbError`: UserNotFound is declared and has a 404 handler, but no store raises it. The model keeps it only for the status map.
- `Service.ReadNotification`: Python object aliasing is modelled on values. The record the lookup hands out is the stored object itself, so the flip rewrites it in place (`ReplaceFirstMatch`) and the save appends the same flipped value. The model does not follow identities further: two positions that hold the same object are two equal values. The only write the service makes through an alias is the flip, which is idempotent, so the two copies stay equal in every run the service can produce.
- `Service.Validate`: an explicit `null` sent for target_id is not modelled; an absent target_id is accepted. The exact text pydantic renders for a validation error is not modelled either; the model keeps one message per failing field.
- `MongoStore.FromDict`: accepts only values of exactly the right type. It does not model pydantic's lax coercions (a `"true"` string read as a boolean, say), which can only matter for documents this code did not write.
- `MongoStore.MongoDatabase.GetNotifications`: the contract pins the page exactly only for skip >= 0 and limit >= 0; for negative values it gives only bounds. The body follows Python slicing in full. With general lists, skip 0 and limit -1 would return all but the last item. Under the one-document-per-user invariant that page is empty.
