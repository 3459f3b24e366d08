/** Services and characteristics of a connected device as the streaming screen
    enumerates them, and the notification subscriptions that enumeration makes. */
module Gatt {
  import opened Ble

  datatype Characteristic = Characteristic(
    uuid: string, isNotifiable: bool, isReadable: bool,
    isWritableWithResponse: bool, isWritableWithoutResponse: bool)

  /** A service with the result of asking it for its characteristics: `None` when
      that request was rejected. */
  datatype ServiceListing = ServiceListing(uuid: string, characteristics: Option<seq<Characteristic>>)

  /** Some service in `services` could not list its characteristics. */
  predicate EnumerationFails(services: seq<ServiceListing>)
  {
    exists i :: 0 <= i < |services| && services[i].characteristics.None?
  }

  lemma EnumerationExtends(services: seq<ServiceListing>, i: nat)
    requires i < |services| && !EnumerationFails(services[..i]) && services[i].characteristics.Some?
    ensures !EnumerationFails(services[..i + 1])
  {
    var extended := services[..i + 1];
    forall k | 0 <= k < |extended| ensures extended[k].characteristics.Some? {
      if k < i {
        assert extended[k] == services[..i][k];
      }
    }
  }

  /** The subscriptions made for one service: one per notifiable characteristic, in order. */
  function MonitorsFor(deviceId: string, serviceUUID: string, cs: seq<Characteristic>): (r: seq<Monitoring>)
    ensures |r| <= |cs|
    ensures forall m :: m in r ==> m.deviceId == deviceId && m.serviceUUID == serviceUUID
  {
    if cs == [] then []
    else
      var n := |cs| - 1;
      MonitorsFor(deviceId, serviceUUID, cs[..n])
        + (if cs[n].isNotifiable then [Monitoring(deviceId, serviceUUID, cs[n].uuid)] else [])
  }

  /** The subscriptions made while walking `services` in order; the walk ends at the
      first service whose characteristics cannot be listed. */
  function Subscriptions(deviceId: string, services: seq<ServiceListing>): (r: seq<Monitoring>)
    ensures forall m :: m in r ==> m.deviceId == deviceId
  {
    if services == [] then []
    else
      var n := |services| - 1;
      var earlier := Subscriptions(deviceId, services[..n]);
      if EnumerationFails(services[..n]) then earlier
      else match services[n].characteristics
        case None => earlier
        case Some(cs) => earlier + MonitorsFor(deviceId, services[n].uuid, cs)
  }

  /** Every characteristic of every service, in order (services that failed to
      list contribute nothing). */
  function AllCharacteristics(services: seq<ServiceListing>): seq<Characteristic>
  {
    if services == [] then []
    else
      (match services[0].characteristics
       case None => []
       case Some(cs) => cs)
      + AllCharacteristics(services[1..])
  }

  /** How many characteristics in `cs` are notifiable. */
  function CountNotifiable(cs: seq<Characteristic>): nat
  {
    if cs == [] then 0 else (if cs[0].isNotifiable then 1 else 0) + CountNotifiable(cs[1..])
  }

  lemma {:induction false} CountNotifiableAppend(a: seq<Characteristic>, b: seq<Characteristic>)
    ensures CountNotifiable(a + b) == CountNotifiable(a) + CountNotifiable(b)
  {
    if a == [] {
      assert a + b == b;
    } else {
      assert (a + b)[0] == a[0] && (a + b)[1..] == a[1..] + b;
      CountNotifiableAppend(a[1..], b);
    }
  }

  /** One subscription per notifiable characteristic of the service. */
  lemma {:induction false} MonitorsForCount(deviceId: string, serviceUUID: string, cs: seq<Characteristic>)
    ensures |MonitorsFor(deviceId, serviceUUID, cs)| == CountNotifiable(cs)
  {
    if cs != [] {
      var n := |cs| - 1;
      assert cs == cs[..n] + [cs[n]];
      MonitorsForCount(deviceId, serviceUUID, cs[..n]);
      CountNotifiableAppend(cs[..n], [cs[n]]);
    }
  }

  lemma {:induction false} AllCharacteristicsSnoc(services: seq<ServiceListing>, s: ServiceListing)
    ensures AllCharacteristics(services + [s])
      == AllCharacteristics(services) + AllCharacteristics([s])
  {
    if services != [] {
      assert (services + [s])[1..] == services[1..] + [s];
      AllCharacteristicsSnoc(services[1..], s);
    } else {
      assert services + [s] == [s];
    }
  }

  /** When every service lists its characteristics, the walk subscribes exactly
      once per notifiable characteristic across all services. */
  lemma {:induction false} SubscriptionCount(deviceId: string, services: seq<ServiceListing>)
    requires !EnumerationFails(services)
    ensures |Subscriptions(deviceId, services)| == CountNotifiable(AllCharacteristics(services))
  {
    if services != [] {
      var n := |services| - 1;
      var init, last := services[..n], services[n];
      assert services == init + [last];
      assert !EnumerationFails(init) by {
        forall i | 0 <= i < |init| ensures init[i].characteristics.Some? {
          assert init[i] == services[i];
        }
      }
      assert last.characteristics.Some?;
      SubscriptionCount(deviceId, init);
      MonitorsForCount(deviceId, last.uuid, last.characteristics.value);
      AllCharacteristicsSnoc(init, last);
      assert AllCharacteristics([last]) == last.characteristics.value + [];
      assert last.characteristics.value + [] == last.characteristics.value;
      CountNotifiableAppend(AllCharacteristics(init), last.characteristics.value);
    }
  }

  /** Once a service fails to list its characteristics, the later services add no
      subscriptions. */
  lemma {:induction false} SubscriptionsStopAtFailure(deviceId: string, services: seq<ServiceListing>, i: nat)
    requires i < |services| && services[i].characteristics.None?
    ensures Subscriptions(deviceId, services) == Subscriptions(deviceId, services[..i])
  {
    var n := |services| - 1;
    if n == i {
      assert services[..n][..i] == services[..i];
    } else {
      var init := services[..n];
      assert init[i] == services[i];
      assert EnumerationFails(init);
      SubscriptionsStopAtFailure(deviceId, init, i);
      assert init[..i] == services[..i];
    }
  }

  /** Every subscription is for the given device and names a notifiable
      characteristic of the service it is registered under. */
  lemma {:induction false} MonitorsForSound(deviceId: string, serviceUUID: string, cs: seq<Characteristic>, m: Monitoring)
    requires m in MonitorsFor(deviceId, serviceUUID, cs)
    ensures m.deviceId == deviceId && m.serviceUUID == serviceUUID
    ensures exists c :: c in cs && c.isNotifiable && c.uuid == m.characteristicUUID
  {
    var n := |cs| - 1;
    if m in MonitorsFor(deviceId, serviceUUID, cs[..n]) {
      MonitorsForSound(deviceId, serviceUUID, cs[..n], m);
      var c :| c in cs[..n] && c.isNotifiable && c.uuid == m.characteristicUUID;
      assert c in cs;
    } else {
      assert cs[n] in cs;
    }
  }

  /** Every notifiable characteristic gets a subscription. */
  lemma {:induction false} MonitorsForComplete(deviceId: string, serviceUUID: string, cs: seq<Characteristic>, k: nat)
    requires k < |cs| && cs[k].isNotifiable
    ensures Monitoring(deviceId, serviceUUID, cs[k].uuid) in MonitorsFor(deviceId, serviceUUID, cs)
  {
    var n := |cs| - 1;
    if k < n {
      assert cs[..n][k] == cs[k];
      MonitorsForComplete(deviceId, serviceUUID, cs[..n], k);
    }
  }
}
