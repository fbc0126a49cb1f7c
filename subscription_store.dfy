/** The persisted list of push subscriptions: `readSubscriptions` and
    `saveSubscriptions` of backend/routes/notificationRoute.js. The JSON file is
    a sequence field; whether a file read or write fails is an input of the call
    that performs it. */
module SubscriptionStore {

  datatype Keys = Keys(p256dh: string, auth: string)

  /** A browser push subscription `{endpoint, keys}`. */
  datatype Subscription = Subscription(endpoint: string, keys: Keys)

  /** Whether the file read and the file write of one operation succeed. */
  datatype FileIo = FileIo(readOk: bool, writeOk: bool)

  predicate HasEndpoint(subs: seq<Subscription>, endpoint: string)
  {
    exists i :: 0 <= i < |subs| && subs[i].endpoint == endpoint
  }

  /** The registry's invariant: no endpoint is stored twice. */
  predicate DistinctEndpoints(subs: seq<Subscription>)
  {
    forall i, j :: 0 <= i < j < |subs| ==> subs[i].endpoint != subs[j].endpoint
  }

  /** How many stored entries carry `endpoint`. */
  function CountEndpoint(subs: seq<Subscription>, endpoint: string): (n: nat)
    ensures n <= |subs|
    ensures n > 0 <==> HasEndpoint(subs, endpoint)
    decreases |subs|
  {
    if subs == [] then 0
    else
      var rest := CountEndpoint(subs[1..], endpoint);
      assert forall i :: 0 < i < |subs| ==> subs[i] == subs[1..][i - 1];
      assert HasEndpoint(subs[1..], endpoint) ==> HasEndpoint(subs, endpoint);
      (if subs[0].endpoint == endpoint then 1 else 0) + rest
  }

  /** A list that is free of repeated endpoints holds each of its endpoints
      exactly once. */
  lemma {:induction false} DistinctCountsOne(subs: seq<Subscription>, endpoint: string)
    requires DistinctEndpoints(subs) && HasEndpoint(subs, endpoint)
    ensures CountEndpoint(subs, endpoint) == 1
    decreases |subs|
  {
    var rest := subs[1..];
    assert DistinctEndpoints(rest) by {
      forall i, j | 0 <= i < j < |rest| ensures rest[i].endpoint != rest[j].endpoint {
        assert rest[i] == subs[i + 1] && rest[j] == subs[j + 1];
      }
    }
    assert forall k :: 0 <= k < |rest| ==> rest[k] == subs[k + 1];
    if subs[0].endpoint != endpoint {
      var k :| 0 <= k < |subs| && subs[k].endpoint == endpoint;
      assert rest[k - 1] == subs[k];
      DistinctCountsOne(rest, endpoint);
    }
  }

  /** The JSON file of subscriptions. */
  class SubscriptionFile {
    var contents: seq<Subscription>

    constructor (initial: seq<Subscription>)
      ensures contents == initial
    {
      contents := initial;
    }

    /** `readSubscriptions()`: the stored list, or the empty list when reading
        or parsing the file fails. */
    function ReadSubscriptions(readOk: bool): (subs: seq<Subscription>)
      reads this
      ensures readOk ==> subs == contents
      ensures !readOk ==> subs == []
    {
      if readOk then contents else []
    }

    /** `saveSubscriptions(subs)`: the whole list replaces the file; a failed
        write is logged, leaves the file as it was and is not thrown. */
    method SaveSubscriptions(subs: seq<Subscription>, writeOk: bool)
      modifies this
      ensures contents == if writeOk then subs else old(contents)
    {
      if writeOk {
        contents := subs;
      }
    }
  }
}
