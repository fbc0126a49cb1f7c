/** The two routes of backend/routes/notificationRoute.js: `/subscribe` adds a
    push subscription to the registry unless its endpoint is already there, and
    `/sendNotification` sends a reminder to every stored subscription in turn. */
module NotificationRoute {
  import opened Js
  import opened SubscriptionStore
  import opened WebPush
  import opened Http

  const AlreadySubscribed: string := "Already subscribed!"
  const SubscriptionSaved: string := "Subscription saved!"
  const NotificationSent: string := "Notification sent to all subscribers!"

  // ---------------------------------------------------------------------------
  // /subscribe

  /** The file after one `/subscribe` of `sub`: the list as read (empty when
      the read fails) gets `sub` appended and is written back, unless an entry
      with the same endpoint was read. */
  function Subscribed(contents: seq<Subscription>, sub: Subscription, io: FileIo): seq<Subscription>
  {
    var seen := if io.readOk then contents else [];
    if HasEndpoint(seen, sub.endpoint) || !io.writeOk then contents
    else seen + [sub]
  }

  /** The message `/subscribe` replies with (with status 200) for a body that
      carries a subscription. */
  function SubscribeReply(contents: seq<Subscription>, sub: Subscription, readOk: bool): string
  {
    var seen := if readOk then contents else [];
    if HasEndpoint(seen, sub.endpoint) then AlreadySubscribed else SubscriptionSaved
  }

  /** `POST /subscribe` with body `{subscription: sub}`. */
  method Subscribe(ex: Exchange, file: SubscriptionFile, sub: Subscription, io: FileIo)
    modifies ex, file
    ensures file.contents == Subscribed(old(file.contents), sub, io)
    ensures ex.response == Some(Response(200, MessageJson(SubscribeReply(old(file.contents), sub, io.readOk))))
    ensures ex.user == old(ex.user) && ex.nextCalls == old(ex.nextCalls) && ex.unhandled == old(ex.unhandled)
  {
    var subscriptions := file.ReadSubscriptions(io.readOk);
    var subscriptionExists := HasEndpoint(subscriptions, sub.endpoint);
    if subscriptionExists {
      ex.Reply(200, MessageJson(AlreadySubscribed));
      return;
    }
    subscriptions := subscriptions + [sub];
    file.SaveSubscriptions(subscriptions, io.writeOk);
    ex.Reply(200, MessageJson(SubscriptionSaved));
  }

  /** When an entry with the endpoint is read, the reply says so and the file
      is not written; otherwise the reply says the subscription was saved. */
  lemma SubscribeReplyIff(contents: seq<Subscription>, sub: Subscription, io: FileIo)
    requires io.readOk
    ensures SubscribeReply(contents, sub, io.readOk) == AlreadySubscribed <==> HasEndpoint(contents, sub.endpoint)
    ensures HasEndpoint(contents, sub.endpoint) ==> Subscribed(contents, sub, io) == contents
  {
  }

  /** With a successful read, the stored entries stay where they were, in
      order, and at most one entry is added: `sub` itself, at the end. */
  lemma SubscribeAppends(contents: seq<Subscription>, sub: Subscription, io: FileIo)
    requires io.readOk
    ensures var r := Subscribed(contents, sub, io);
      r == contents || (r == contents + [sub] && !HasEndpoint(contents, sub.endpoint))
    ensures var r := Subscribed(contents, sub, io);
      |contents| <= |r| <= |contents| + 1 && r[..|contents|] == contents
    ensures io.writeOk ==> HasEndpoint(Subscribed(contents, sub, io), sub.endpoint)
  {
    var r := Subscribed(contents, sub, io);
    if !HasEndpoint(contents, sub.endpoint) && io.writeOk {
      assert r[|contents|] == sub;
    }
  }

  /** A failed read makes the handler see an empty registry: a successful
      write then replaces every stored entry by `sub` alone. */
  lemma SubscribeAfterFailedRead(contents: seq<Subscription>, sub: Subscription)
    ensures Subscribed(contents, sub, FileIo(false, true)) == [sub]
    ensures SubscribeReply(contents, sub, false) == SubscriptionSaved
  {
    assert !HasEndpoint([], sub.endpoint);
  }

  lemma DistinctSnoc(subs: seq<Subscription>, x: Subscription)
    requires DistinctEndpoints(subs) && !HasEndpoint(subs, x.endpoint)
    ensures DistinctEndpoints(subs + [x])
  {
    var s := subs + [x];
    forall i, j | 0 <= i < j < |s| ensures s[i].endpoint != s[j].endpoint {
      assert s[i] == subs[i];
      if j < |subs| {
        assert s[j] == subs[j];
      }
    }
  }

  /** `/subscribe` keeps the registry free of repeated endpoints. */
  lemma SubscribeKeepsDistinct(contents: seq<Subscription>, sub: Subscription, io: FileIo)
    requires DistinctEndpoints(contents)
    ensures DistinctEndpoints(Subscribed(contents, sub, io))
  {
    var seen := if io.readOk then contents else [];
    if !HasEndpoint(seen, sub.endpoint) && io.writeOk {
      DistinctSnoc(seen, sub);
    }
  }

  /** Subscribing twice with the same endpoint is subscribing once: the
      second call is answered "Already subscribed!" and changes nothing, and
      the registry holds exactly one entry with the endpoint. */
  lemma SubscribeIdempotent(contents: seq<Subscription>, sub: Subscription, again: Subscription, io1: FileIo, io2: FileIo)
    requires DistinctEndpoints(contents)
    requires again.endpoint == sub.endpoint
    requires io1.readOk && io1.writeOk && io2.readOk
    ensures var once := Subscribed(contents, sub, io1);
      Subscribed(once, again, io2) == once && SubscribeReply(once, again, io2.readOk) == AlreadySubscribed
    ensures CountEndpoint(Subscribed(contents, sub, io1), sub.endpoint) == 1
  {
    SubscribeAppends(contents, sub, io1);
    SubscribeKeepsDistinct(contents, sub, io1);
    DistinctCountsOne(Subscribed(contents, sub, io1), sub.endpoint);
  }

  // ---------------------------------------------------------------------------
  // /sendNotification

  /** The delivery attempts for `subs`, one per entry and in list order, each
      carrying the reminder payload. */
  function Attempts(subs: seq<Subscription>, message: Value): (a: seq<(Subscription, Payload)>)
    ensures |a| == |subs|
    ensures forall i :: 0 <= i < |subs| ==> a[i] == (subs[i], ReminderPayload(message))
  {
    seq(|subs|, i requires 0 <= i < |subs| => (subs[i], ReminderPayload(message)))
  }

  /** The file after the first `n` sends of the loop over `subs`; the `i`-th
      send's removal (if any) performs file I/O `ioAt(i)`. */
  function AfterSends(contents: seq<Subscription>, subs: seq<Subscription>, deliver: (Subscription, Payload) -> Delivery,
                      message: Value, ioAt: nat -> FileIo, n: nat): seq<Subscription>
    requires n <= |subs|
    decreases n
  {
    if n == 0 then contents
    else
      var s := subs[n - 1];
      AfterSend(AfterSends(contents, subs, deliver, message, ioAt, n - 1), s, deliver(s, ReminderPayload(message)), ioAt(n - 1))
  }

  /** `POST /sendNotification` with body `{message}`: the list is read once,
      then each entry is sent the reminder in turn, each send awaited before the
      next; the reply is always 200. */
  method SendNotification(ex: Exchange, file: SubscriptionFile, push: PushService, message: Value,
                          readOk: bool, ioAt: nat -> FileIo)
    modifies ex, file, push
    ensures var subs := old(file.ReadSubscriptions(readOk));
      push.sent == old(push.sent) + Attempts(subs, message)
    ensures var subs := old(file.ReadSubscriptions(readOk));
      file.contents == AfterSends(old(file.contents), subs, push.deliver, message, ioAt, |subs|)
    ensures ex.response == Some(Response(200, MessageJson(NotificationSent)))
    ensures ex.user == old(ex.user) && ex.nextCalls == old(ex.nextCalls) && ex.unhandled == old(ex.unhandled)
  {
    var subscriptions := file.ReadSubscriptions(readOk);
    for i := 0 to |subscriptions|
      invariant push.sent == old(push.sent) + Attempts(subscriptions[..i], message)
      invariant file.contents == AfterSends(old(file.contents), subscriptions, push.deliver, message, ioAt, i)
      invariant unchanged(ex)
    {
      SendPushNotification(push, file, subscriptions[i], message, ioAt(i));
      assert subscriptions[..i + 1] == subscriptions[..i] + [subscriptions[i]];
    }
    assert subscriptions[..|subscriptions|] == subscriptions;
    ex.Reply(200, MessageJson(NotificationSent));
  }

  lemma AbsentInSubset(a: seq<Subscription>, b: seq<Subscription>, endpoint: string)
    requires !HasEndpoint(a, endpoint)
    requires forall x :: x in b ==> x in a
    ensures !HasEndpoint(b, endpoint)
  {
    forall k | 0 <= k < |b| ensures b[k].endpoint != endpoint {
      assert b[k] in a;
    }
  }

  /** The send loop never adds an entry and keeps the registry free of
      repeated endpoints. */
  lemma {:induction false} SendsOnlyShrink(contents: seq<Subscription>, subs: seq<Subscription>,
                                           deliver: (Subscription, Payload) -> Delivery, message: Value,
                                           ioAt: nat -> FileIo, n: nat)
    requires n <= |subs|
    ensures forall x :: x in AfterSends(contents, subs, deliver, message, ioAt, n) ==> x in contents
    ensures DistinctEndpoints(contents) ==> DistinctEndpoints(AfterSends(contents, subs, deliver, message, ioAt, n))
    decreases n
  {
    if n > 0 {
      SendsOnlyShrink(contents, subs, deliver, message, ioAt, n - 1);
      var s := subs[n - 1];
      AfterSendShrinks(AfterSends(contents, subs, deliver, message, ioAt, n - 1), s, deliver(s, ReminderPayload(message)), ioAt(n - 1));
    }
  }

  /** When no delivery is answered 410 Gone, the loop leaves the file as it
      was, whatever the file I/O would have done. */
  lemma {:induction false} SendsWithoutGone(contents: seq<Subscription>, subs: seq<Subscription>,
                                            deliver: (Subscription, Payload) -> Delivery, message: Value,
                                            ioAt: nat -> FileIo, n: nat)
    requires n <= |subs|
    requires forall i :: 0 <= i < n ==> !Gone(deliver(subs[i], ReminderPayload(message)))
    ensures AfterSends(contents, subs, deliver, message, ioAt, n) == contents
    decreases n
  {
    if n > 0 {
      SendsWithoutGone(contents, subs, deliver, message, ioAt, n - 1);
    }
  }

  /** A subscription answered 410 Gone whose removal could write the file is
      absent from the file once the loop is over. */
  lemma {:induction false} SendsRemoveGone(contents: seq<Subscription>, subs: seq<Subscription>,
                                           deliver: (Subscription, Payload) -> Delivery, message: Value,
                                           ioAt: nat -> FileIo, k: nat, n: nat)
    requires k < n <= |subs|
    requires Gone(deliver(subs[k], ReminderPayload(message))) && ioAt(k).writeOk
    ensures !HasEndpoint(AfterSends(contents, subs, deliver, message, ioAt, n), subs[k].endpoint)
    decreases n
  {
    var prev := AfterSends(contents, subs, deliver, message, ioAt, n - 1);
    var s := subs[n - 1];
    if k < n - 1 {
      SendsRemoveGone(contents, subs, deliver, message, ioAt, k, n - 1);
      AfterSendShrinks(prev, s, deliver(s, ReminderPayload(message)), ioAt(n - 1));
      AbsentInSubset(prev, AfterSends(contents, subs, deliver, message, ioAt, n), subs[k].endpoint);
    }
  }
}
