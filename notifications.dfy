/** The shared data model of the store: notification kinds, the notification
    record, the store's exception kinds, and lookup by id. */
module Notifications {
  import opened Basics

  /** The closed set of notification kinds (a string-valued enum). */
  datatype NotificationKey = Registration | NewMessage | NewPost | NewLogin

  /** The enum's string value. */
  function KeyName(k: NotificationKey): string
  {
    match k
    case Registration => "registration"
    case NewMessage => "new_message"
    case NewPost => "new_post"
    case NewLogin => "new_login"
  }

  /** Parsing a string into the enum; anything but the four values is rejected. */
  function ParseKey(s: string): (r: Option<NotificationKey>)
    ensures r.Some? ==> KeyName(r.value) == s
  {
    if s == "registration" then Some(Registration)
    else if s == "new_message" then Some(NewMessage)
    else if s == "new_post" then Some(NewPost)
    else if s == "new_login" then Some(NewLogin)
    else None
  }

  /** Parsing accepts exactly the enum's string values, and inverts KeyName. */
  lemma ParseKeyName(k: NotificationKey, s: string)
    ensures ParseKey(KeyName(k)) == Some(k)
    ensures ParseKey(s).Some? <==> exists k' :: KeyName(k') == s
  {
  }

  /** The free-form `data` payload. Its contents are never inspected, so any
      value type would do; a string map stands for it. */
  type Data = map<string, string>

  datatype Notification = Notification(
    id: string,
    timestamp: int,
    is_new: bool,
    user_id: string,
    key: NotificationKey,
    target_id: Option<string>,
    data: Option<Data>)

  /** The store's exception kinds. */
  datatype DbError = UserNotFound | NotificationNotFound | InvalidParameters

  /** First-match lookup by notification id in a user's records, failing with
      NotificationNotFound when no record carries that id. */
  function Lookup(s: seq<Notification>, notificationId: string): (r: Result<Notification, DbError>)
    ensures r.Ok? <==> exists i :: 0 <= i < |s| && s[i].id == notificationId
    ensures r.Ok? ==> r.value.id == notificationId && r.value in s
    ensures r.Ok? ==> exists i :: 0 <= i < |s| && s[i] == r.value &&
                        forall j :: 0 <= j < i ==> s[j].id != notificationId
    ensures r.Err? ==> r.error == NotificationNotFound
  {
    if |s| == 0 then Err(NotificationNotFound)
    else if s[0].id == notificationId then Ok(s[0])
    else
      var r := Lookup(s[1..], notificationId);
      assert forall i :: 0 < i < |s| ==> s[i] == s[1..][i - 1];
      r
  }

  /** Lookup only looks past a record whose id differs. */
  lemma {:induction false} LookupSkip(s: seq<Notification>, i: nat, notificationId: string)
    requires i < |s| && s[i].id != notificationId
    ensures Lookup(s[i..], notificationId) == Lookup(s[i + 1..], notificationId)
  {
    assert s[i..][1..] == s[i + 1..];
  }

  /** Lookup in two runs of records: the first run's match wins, and the
      second run is searched only when the first has none. */
  lemma {:induction false} LookupAppend(a: seq<Notification>, b: seq<Notification>, notificationId: string)
    ensures Lookup(a + b, notificationId)
         == if Lookup(a, notificationId).Ok? then Lookup(a, notificationId) else Lookup(b, notificationId)
  {
    if |a| == 0 {
      assert a + b == b;
    } else {
      assert (a + b)[0] == a[0];
      assert (a + b)[1..] == a[1..] + b;
      LookupAppend(a[1..], b, notificationId);
    }
  }
}
