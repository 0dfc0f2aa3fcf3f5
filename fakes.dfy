/** The in-memory test doubles the unit tests wire into the service: an
    append-only notification list standing for the database, and a mail sink
    that records every request it is given. */
module Fakes {
  import opened Basics
  import opened Notifications
  import opened Mail
  import opened Calls

  /** The records filed under `userId`, in insertion order. */
  function UserRecords(docs: seq<Notification>, userId: string): (r: seq<Notification>)
    ensures |r| <= |docs|
    ensures forall x :: x in r <==> x in docs && x.user_id == userId
  {
    if |docs| == 0 then []
    else
      var init := UserRecords(docs[..|docs| - 1], userId);
      var last := docs[|docs| - 1];
      assert docs == docs[..|docs| - 1] + [last];
      init + (if last.user_id == userId then [last] else [])
  }

  /** Appending a record extends its owner's records at the end and leaves
      every other user's records alone: the filter keeps insertion order. */
  lemma UserRecordsAppend(docs: seq<Notification>, n: Notification, userId: string)
    ensures UserRecords(docs + [n], userId)
         == UserRecords(docs, userId) + (if n.user_id == userId then [n] else [])
  {
    assert (docs + [n])[..|docs|] == docs;
  }

  /** The position in `docs` of the record `get_notification` hands out: the
      first record filed under the user with the id, or `|docs|` when there is
      none. The fake returns that stored object itself, not a copy. */
  function FirstMatch(docs: seq<Notification>, userId: string, notificationId: string): (k: nat)
    ensures k <= |docs|
    ensures k < |docs| ==> docs[k].user_id == userId && docs[k].id == notificationId
    ensures forall j :: 0 <= j < k ==> !(docs[j].user_id == userId && docs[j].id == notificationId)
  {
    if |docs| == 0 then 0
    else
      var init := docs[..|docs| - 1];
      var k := FirstMatch(init, userId, notificationId);
      assert forall j :: 0 <= j < |init| ==> docs[j] == init[j];
      if k < |init| then k
      else if docs[|docs| - 1].user_id == userId && docs[|docs| - 1].id == notificationId then |init|
      else |docs|
  }

  /** The lookup the fake performs finds exactly the stored record at
      FirstMatch: the handed-out notification and the stored one are the same. */
  lemma {:induction false} FirstMatchIsLookup(docs: seq<Notification>, userId: string, notificationId: string)
    ensures var found := Lookup(UserRecords(docs, userId), notificationId);
      && (found.Ok? <==> FirstMatch(docs, userId, notificationId) < |docs|)
      && (found.Ok? ==> found.value == docs[FirstMatch(docs, userId, notificationId)])
  {
    if |docs| > 0 {
      var init := docs[..|docs| - 1];
      var last := docs[|docs| - 1];
      assert docs == init + [last];
      var k := FirstMatch(init, userId, notificationId);
      var before := UserRecords(init, userId);
      var tail := if last.user_id == userId then [last] else [];
      FirstMatchIsLookup(init, userId, notificationId);
      UserRecordsAppend(init, last, userId);
      assert UserRecords(docs, userId) == before + tail;
      LookupAppend(before, tail, notificationId);
      if k < |init| {
        assert docs[k] == init[k];
      } else if tail != [] {
        assert tail[1..] == [];
      }
    }
  }

  /** Two lists that agree up to a position k where both hold a match, have
      the same first match. */
  lemma FirstMatchStable(docs: seq<Notification>, other: seq<Notification>, userId: string, notificationId: string)
    requires FirstMatch(docs, userId, notificationId) < |docs| == |other|
    requires var k := FirstMatch(docs, userId, notificationId);
      && other[k].user_id == userId && other[k].id == notificationId
      && forall j :: 0 <= j < k ==> other[j] == docs[j]
    ensures FirstMatch(other, userId, notificationId) == FirstMatch(docs, userId, notificationId)
  {
  }

  /** `docs` after a write through the reference `get_notification` hands
      out: the record at FirstMatch becomes `n`, and nothing else changes. */
  function ReplaceFirstMatch(docs: seq<Notification>, userId: string, notificationId: string, n: Notification)
    : (r: seq<Notification>)
    ensures |r| == |docs|
    ensures var k := FirstMatch(docs, userId, notificationId);
      && (k < |docs| ==> r[k] == n)
      && (forall j :: 0 <= j < |docs| && j != k ==> r[j] == docs[j])
  {
    var k := FirstMatch(docs, userId, notificationId);
    if k < |docs| then docs[k := n] else docs
  }

  class FakeDb {
    var documents: seq<Notification>
    /** The call trace this store shares with the mail sink. */
    const log: CallLog

    constructor (log: CallLog)
      ensures documents == [] && this.log == log
    {
      documents := [];
      this.log := log;
    }

    /** `_get_user`: a scan that collects the user's records. */
    method GetUser(userId: string) returns (records: seq<Notification>)
      ensures records == UserRecords(documents, userId)
    {
      records := [];
      for i := 0 to |documents|
        invariant records == UserRecords(documents[..i], userId)
      {
        assert documents[..i + 1] == documents[..i] + [documents[i]];
        UserRecordsAppend(documents[..i], documents[i], userId);
        if documents[i].user_id == userId {
          records := records + [documents[i]];
        }
      }
      assert documents[..|documents|] == documents;
    }

    /** The first of the user's records with the id; NotificationNotFound when
        there is none, also when the id belongs to another user's record. */
    method GetNotification(userId: string, notificationId: string) returns (r: Result<Notification, DbError>)
      ensures r == Lookup(UserRecords(documents, userId), notificationId)
    {
      var records := GetUser(userId);
      for i := 0 to |records|
        invariant Lookup(records, notificationId) == Lookup(records[i..], notificationId)
      {
        if records[i].id == notificationId {
          return Ok(records[i]);
        }
        LookupSkip(records, i, notificationId);
      }
      return Err(NotificationNotFound);
    }

    /** Pagination that fails with InvalidParameters unless
        `0 <= skip < len(user)` and `limit > 0`. */
    method GetNotifications(userId: string, skip: int, limit: int) returns (r: Result<seq<Notification>, DbError>)
      ensures var user := UserRecords(documents, userId);
        && (r.Ok? <==> 0 <= skip < |user| && limit > 0)
        && (r.Ok? ==> r.value == user[skip..Min(skip + limit, |user|)] && 0 < |r.value| <= limit)
        && (r.Err? ==> r.error == InvalidParameters)
    {
      var user := GetUser(userId);
      if 0 <= skip < |user| && limit > 0 {
        return Ok(PySlice(user, skip, skip + limit));
      }
      return Err(InvalidParameters);
    }

    /** Saving appends, whatever is already stored. */
    method SaveNotification(n: Notification)
      modifies this, log
      ensures documents == old(documents) + [n]
      ensures log.calls == old(log.calls) + [Save(n)]
    {
      documents := documents + [n];
      log.calls := log.calls + [Save(n)];
    }
  }

  class FakeSmtp {
    var requests: seq<SmtpRequest>
    /** The call trace this sink shares with the store. */
    const log: CallLog

    constructor (log: CallLog)
      ensures requests == [] && this.log == log
    {
      requests := [];
      this.log := log;
    }

    /** Sending records the request unchanged. */
    method SendEmail(request: SmtpRequest)
      modifies this, log
      ensures requests == old(requests) + [request]
      ensures log.calls == old(log.calls) + [Send(request)]
    {
      requests := requests + [request];
      log.calls := log.calls + [Send(request)];
    }
  }
}
