/** Sending one push message and dropping subscriptions the push service
    reports as gone (backend/webpush/webpush.js). The push service is an oracle
    that answers each delivery attempt; the model records every attempt. */
module WebPush {
  import opened Js
  import opened SubscriptionStore

  /** The JSON payload `{title, body}` of a push message. */
  datatype Payload = Payload(title: string, body: Value)

  /** The payload of a reminder carrying `message`. */
  function ReminderPayload(message: Value): (p: Payload)
    ensures p.title == "Task Reminder" && p.body == message
  {
    Payload("Task Reminder", message)
  }

  /** The push service's answer: delivered, or an error that may carry an HTTP
      status code. */
  datatype Delivery = Delivered | Rejected(statusCode: Option<int>)

  /** `error.statusCode === 410`: the endpoint is gone for good. */
  predicate Gone(d: Delivery)
  {
    d == Rejected(Some(410))
  }

  /** `subscriptions.filter((sub) => sub.endpoint !== endpoint)`. */
  function WithoutEndpoint(subs: seq<Subscription>, endpoint: string): (r: seq<Subscription>)
    ensures |r| + CountEndpoint(subs, endpoint) == |subs|
    ensures !HasEndpoint(r, endpoint)
    decreases |subs|
  {
    if subs == [] then []
    else
      var rest := WithoutEndpoint(subs[1..], endpoint);
      var r := (if subs[0].endpoint != endpoint then [subs[0]] else []) + rest;
      assert forall i :: 0 <= i < |rest| ==> rest[i] == r[|r| - |rest| + i];
      r
  }

  /** The filter keeps exactly the entries with another endpoint. */
  lemma {:induction false} WithoutEndpointMembers(subs: seq<Subscription>, endpoint: string, x: Subscription)
    ensures x in WithoutEndpoint(subs, endpoint) <==> x in subs && x.endpoint != endpoint
    decreases |subs|
  {
    if subs != [] {
      WithoutEndpointMembers(subs[1..], endpoint, x);
      assert subs == [subs[0]] + subs[1..];
    }
  }

  /** The filter distributes over concatenation, so it keeps the original
      order of the entries it keeps. */
  lemma {:induction false} WithoutEndpointAppend(a: seq<Subscription>, b: seq<Subscription>, endpoint: string)
    ensures WithoutEndpoint(a + b, endpoint) == WithoutEndpoint(a, endpoint) + WithoutEndpoint(b, endpoint)
    decreases |a|
  {
    if a == [] {
      assert a + b == b;
    } else {
      assert (a + b)[0] == a[0];
      assert (a + b)[1..] == a[1..] + b;
      WithoutEndpointAppend(a[1..], b, endpoint);
    }
  }

  /** A list without the endpoint is left as it is. */
  lemma {:induction false} WithoutAbsentEndpoint(subs: seq<Subscription>, endpoint: string)
    requires !HasEndpoint(subs, endpoint)
    ensures WithoutEndpoint(subs, endpoint) == subs
    decreases |subs|
  {
    if subs != [] {
      assert forall k :: 0 <= k < |subs| - 1 ==> subs[1..][k] == subs[k + 1];
      WithoutAbsentEndpoint(subs[1..], endpoint);
      assert subs[0].endpoint != endpoint;
      assert subs == [subs[0]] + subs[1..];
    }
  }

  /** Removing an endpoint twice is removing it once. */
  lemma WithoutEndpointIdempotent(subs: seq<Subscription>, endpoint: string)
    ensures WithoutEndpoint(WithoutEndpoint(subs, endpoint), endpoint) == WithoutEndpoint(subs, endpoint)
  {
    WithoutAbsentEndpoint(WithoutEndpoint(subs, endpoint), endpoint);
  }

  lemma DistinctTail(subs: seq<Subscription>)
    requires subs != [] && DistinctEndpoints(subs)
    ensures DistinctEndpoints(subs[1..]) && !HasEndpoint(subs[1..], subs[0].endpoint)
  {
    var rest := subs[1..];
    forall i, j | 0 <= i < j < |rest| ensures rest[i].endpoint != rest[j].endpoint {
      assert rest[i] == subs[i + 1] && rest[j] == subs[j + 1];
    }
    assert forall k :: 0 <= k < |rest| ==> rest[k] == subs[k + 1];
  }

  lemma DistinctCons(x: Subscription, rest: seq<Subscription>)
    requires DistinctEndpoints(rest)
    requires forall y :: y in rest ==> y.endpoint != x.endpoint
    ensures DistinctEndpoints([x] + rest)
  {
    var s := [x] + rest;
    forall i, j | 0 <= i < j < |s| ensures s[i].endpoint != s[j].endpoint {
      assert s[j] == rest[j - 1];
      if i > 0 {
        assert s[i] == rest[i - 1];
      }
    }
  }

  /** Removal keeps the registry free of repeated endpoints. */
  lemma {:induction false} WithoutEndpointKeepsDistinct(subs: seq<Subscription>, endpoint: string)
    requires DistinctEndpoints(subs)
    ensures DistinctEndpoints(WithoutEndpoint(subs, endpoint))
    decreases |subs|
  {
    if subs != [] {
      DistinctTail(subs);
      WithoutEndpointKeepsDistinct(subs[1..], endpoint);
      var rest := WithoutEndpoint(subs[1..], endpoint);
      if subs[0].endpoint != endpoint {
        forall y | y in rest ensures y.endpoint != subs[0].endpoint {
          WithoutEndpointMembers(subs[1..], endpoint, y);
          var k :| 0 <= k < |subs[1..]| && subs[1..][k] == y;
        }
        DistinctCons(subs[0], rest);
      }
    }
  }

  /** The file after one `sendPushNotification` for `sub`, given the push
      service's answer and the file I/O of the removal it may trigger. */
  function AfterSend(contents: seq<Subscription>, sub: Subscription, d: Delivery, io: FileIo): seq<Subscription>
  {
    if Gone(d) && io.writeOk then WithoutEndpoint(if io.readOk then contents else [], sub.endpoint)
    else contents
  }

  /** A send never adds an entry and never breaks the registry's invariant;
      only a 410 answer changes the file. */
  lemma AfterSendShrinks(contents: seq<Subscription>, sub: Subscription, d: Delivery, io: FileIo)
    ensures forall x :: x in AfterSend(contents, sub, d, io) ==> x in contents
    ensures DistinctEndpoints(contents) ==> DistinctEndpoints(AfterSend(contents, sub, d, io))
    ensures !Gone(d) ==> AfterSend(contents, sub, d, io) == contents
    ensures Gone(d) && io.readOk && io.writeOk ==>
      AfterSend(contents, sub, d, io) == WithoutEndpoint(contents, sub.endpoint)
  {
    forall x | x in AfterSend(contents, sub, d, io) ensures x in contents {
      if Gone(d) && io.writeOk {
        WithoutEndpointMembers(if io.readOk then contents else [], sub.endpoint, x);
      }
    }
    if DistinctEndpoints(contents) && Gone(d) && io.writeOk && io.readOk {
      WithoutEndpointKeepsDistinct(contents, sub.endpoint);
    }
  }

  /** `removeExpiredSubscription(subscription)`: read the list, drop every
      entry with the subscription's endpoint, save the rest. */
  method RemoveExpiredSubscription(file: SubscriptionFile, sub: Subscription, io: FileIo)
    modifies file
    ensures file.contents ==
      if io.writeOk then WithoutEndpoint(old(file.ReadSubscriptions(io.readOk)), sub.endpoint)
      else old(file.contents)
  {
    var subscriptions := file.ReadSubscriptions(io.readOk);
    var updated := WithoutEndpoint(subscriptions, sub.endpoint);
    file.SaveSubscriptions(updated, io.writeOk);
  }

  /** The push service: it answers each delivery attempt and keeps a record of
      every message handed to it. */
  class PushService {
    const deliver: (Subscription, Payload) -> Delivery
    var sent: seq<(Subscription, Payload)>

    constructor (deliver: (Subscription, Payload) -> Delivery)
      ensures this.deliver == deliver && sent == []
    {
      this.deliver := deliver;
      sent := [];
    }

    /** `webPush.sendNotification(subscription, payload)`. */
    method SendNotification(sub: Subscription, payload: Payload) returns (d: Delivery)
      modifies this
      ensures sent == old(sent) + [(sub, payload)]
      ensures d == deliver(sub, payload)
    {
      sent := sent + [(sub, payload)];
      d := deliver(sub, payload);
    }
  }

  /** `sendPushNotification(subscription, message)`: one delivery attempt with
      the reminder payload; a 410 answer removes the subscription, any other
      failure is only logged, and nothing is thrown to the caller. */
  method SendPushNotification(push: PushService, file: SubscriptionFile, sub: Subscription, message: Value, io: FileIo)
    modifies push, file
    ensures push.sent == old(push.sent) + [(sub, ReminderPayload(message))]
    ensures file.contents == AfterSend(old(file.contents), sub, push.deliver(sub, ReminderPayload(message)), io)
  {
    var payload := ReminderPayload(message);
    var d := push.SendNotification(sub, payload);
    if Gone(d) {
      RemoveExpiredSubscription(file, sub, io);
    }
  }
}
