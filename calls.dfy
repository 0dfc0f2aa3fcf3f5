/** The calls the service makes into its two sinks. Both sinks append to one
    shared trace, so the order of calls across the store and the mail sink is
    part of what the endpoints promise. */
module Calls {
  import opened Notifications
  import opened Mail

  /** One call into a sink. */
  datatype Effect = Save(notification: Notification) | Send(request: SmtpRequest)

  /** Every call made into a sink, in call order. The trace is ghost: it
      records what happens and is never read by the program. */
  class CallLog {
    ghost var calls: seq<Effect>

    constructor ()
      ensures calls == []
    {
      calls := [];
    }
  }

  /** The notifications saved among a list of effects. */
  function Saves(effects: seq<Effect>): (r: seq<Notification>)
    ensures |r| <= |effects|
    ensures forall n :: n in r <==> Save(n) in effects
  {
    if |effects| == 0 then []
    else
      assert effects == [effects[0]] + effects[1..];
      (if effects[0].Save? then [effects[0].notification] else []) + Saves(effects[1..])
  }

  /** The emails sent among a list of effects. */
  function Sends(effects: seq<Effect>): (r: seq<SmtpRequest>)
    ensures |r| <= |effects|
    ensures forall e :: e in r <==> Send(e) in effects
  {
    if |effects| == 0 then []
    else
      assert effects == [effects[0]] + effects[1..];
      (if effects[0].Send? then [effects[0].request] else []) + Sends(effects[1..])
  }

  /** Both filters keep call order: the saves and emails of two consecutive
      runs of calls are those of the first run followed by those of the
      second. */
  lemma {:induction false} FiltersKeepOrder(a: seq<Effect>, b: seq<Effect>)
    ensures Saves(a + b) == Saves(a) + Saves(b)
    ensures Sends(a + b) == Sends(a) + Sends(b)
  {
    if |a| > 0 {
      assert (a + b)[1..] == a[1..] + b;
      FiltersKeepOrder(a[1..], b);
    } else {
      assert a + b == b;
    }
  }
}
