/** The air-quality data screen: it subscribes to every notifiable characteristic
    of the connected device and shows the incoming samples, newest first. */
module Streaming {
  import opened Ble
  import opened SampleBuffer
  import opened Gatt

  /** A notification value the callback accepts: present and not the empty string
      (the callback tests the value for truthiness). */
  predicate Truthy(value: Option<string>): (r: bool)
    ensures r <==> value != None && value != Some("")
  {
    value.Some? && value.value != ""
  }

  class AirQualityData {
    const page: MonitorPage
    const bleManager: BleManager

    var isStreaming: bool
    var streamData: seq<Sample>

    /** Streaming never outlives the connected device, and the buffer stays within capacity. */
    ghost predicate Valid()
      reads this, page
    {
      (isStreaming ==> page.connectedDevice.Some?) && |streamData| <= Capacity
    }

    constructor (page: MonitorPage, bleManager: BleManager)
      ensures this.page == page && this.bleManager == bleManager
      ensures !isStreaming && streamData == [] && Valid()
    {
      this.page := page;
      this.bleManager := bleManager;
      isStreaming := false;
      streamData := [];
    }

    /** Enumerate the services of the connected device and subscribe to every
        notifiable characteristic. `services` is the result of asking for the
        services: `None` when that request was rejected. Returns the notices shown
        and the number of subscriptions made. */
    method StartDataStreaming(services: Option<seq<ServiceListing>>) returns (notices: seq<Notice>, monitoringCount: nat)
      requires Valid()
      modifies this, bleManager
      ensures Valid()
      ensures bleManager.scanning == old(bleManager.scanning)
      ensures old(page.connectedDevice).None? ==>
        notices == [] && monitoringCount == 0 && unchanged(this) && unchanged(bleManager)
      ensures old(page.connectedDevice).Some? ==> streamData == []
      ensures old(page.connectedDevice).Some? && services.None? ==>
        !isStreaming && notices == [Error] && monitoringCount == 0
        && bleManager.monitors == old(bleManager.monitors)
      ensures old(page.connectedDevice).Some? && services.Some? ==>
        var subscribed := Subscriptions(old(page.connectedDevice).value.id, services.value);
        && bleManager.monitors == old(bleManager.monitors) + subscribed
        && monitoringCount == |subscribed|
        && isStreaming == !EnumerationFails(services.value)
        && (!EnumerationFails(services.value) ==>
              monitoringCount == CountNotifiable(AllCharacteristics(services.value)))
        && notices == (if EnumerationFails(services.value) then [Error]
                       else if monitoringCount == 0 then [Info] else [Success])
    {
      if page.connectedDevice.None? {
        return [], 0;
      }
      var deviceId := page.connectedDevice.value.id;
      isStreaming := true;
      streamData := [];
      monitoringCount := 0;
      if services.None? {
        notices := [Error];
        isStreaming := false;
        return;
      }
      var ls := services.value;
      var i := 0;
      while i < |ls|
        invariant 0 <= i <= |ls|
        invariant !EnumerationFails(ls[..i])
        invariant bleManager.monitors == old(bleManager.monitors) + Subscriptions(deviceId, ls[..i])
        invariant monitoringCount == |Subscriptions(deviceId, ls[..i])|
        invariant isStreaming && streamData == [] && page.connectedDevice.Some?
        invariant bleManager.scanning == old(bleManager.scanning)
      {
        var service := ls[i];
        if service.characteristics.None? {
          SubscriptionsStopAtFailure(deviceId, ls, i);
          assert EnumerationFails(ls);
          notices := [Error];
          isStreaming := false;
          return;
        }
        var cs := service.characteristics.value;
        ghost var before := bleManager.monitors;
        ghost var counted := monitoringCount;
        var j := 0;
        while j < |cs|
          invariant 0 <= j <= |cs|
          invariant bleManager.monitors == before + MonitorsFor(deviceId, service.uuid, cs[..j])
          invariant monitoringCount == counted + |MonitorsFor(deviceId, service.uuid, cs[..j])|
          invariant isStreaming && streamData == [] && page.connectedDevice.Some?
          invariant bleManager.scanning == old(bleManager.scanning)
        {
          assert cs[..j + 1][..j] == cs[..j];
          if cs[j].isNotifiable {
            monitoringCount := monitoringCount + 1;
            bleManager.MonitorCharacteristicForDevice(deviceId, service.uuid, cs[j].uuid);
          }
          j := j + 1;
        }
        assert cs[..|cs|] == cs;
        assert ls[..i + 1][..i] == ls[..i];
        EnumerationExtends(ls, i);
        i := i + 1;
      }
      assert ls[..|ls|] == ls;
      SubscriptionCount(deviceId, ls);
      notices := if monitoringCount == 0 then [Info] else [Success];
    }

    /** Stop streaming. The registered callbacks stay in place, and the samples
        already shown are kept. */
    method StopDataStreaming() returns (notices: seq<Notice>)
      requires Valid()
      modifies this`isStreaming
      ensures Valid()
      ensures !isStreaming && notices == [Info]
    {
      isStreaming := false;
      notices := [Info];
    }

    /** One invocation of the notification callback registered as `monitor`. An
        error or a missing or empty value is ignored; anything else is put in front
        of the buffer, whether or not streaming is still on. */
    method OnNotification(monitor: Monitoring, error: bool, value: Option<string>, timestamp: nat)
      requires Valid() && monitor in bleManager.monitors
      modifies this`streamData
      ensures Valid()
      ensures error || !Truthy(value) ==> streamData == old(streamData)
      ensures !error && Truthy(value) ==>
        streamData == Prepend(old(streamData),
          Sample(monitor.characteristicUUID, monitor.serviceUUID, value.value, timestamp))
    {
      if error {
        return;
      }
      if Truthy(value) {
        var newData := Sample(monitor.characteristicUUID, monitor.serviceUUID, value.value, timestamp);
        streamData := Prepend(streamData, newData);
      }
    }

    /** Disconnect the device, first stopping the stream if it runs. `released`
        says whether the adapter released the connection. */
    method DisconnectDevice(released: bool) returns (notices: seq<Notice>)
      requires Valid()
      modifies this, page, bleManager
      ensures Valid()
      ensures bleManager.scanning == old(bleManager.scanning)
      ensures old(page.connectedDevice).None? ==>
        notices == [] && unchanged(this) && unchanged(page) && unchanged(bleManager)
      ensures old(page.connectedDevice).Some? ==>
        && !isStreaming
        && notices == (if old(isStreaming) then [Info] else []) + (if released then [Success] else [Error])
      ensures old(page.connectedDevice).Some? && released ==>
        && page.connectedDevice.None? && streamData == []
        && bleManager.monitors == WithoutDevice(old(bleManager.monitors), old(page.connectedDevice).value.id)
      ensures old(page.connectedDevice).Some? && !released ==>
        && page.connectedDevice == old(page.connectedDevice) && streamData == old(streamData)
        && bleManager.monitors == old(bleManager.monitors)
    {
      notices := [];
      if page.connectedDevice.Some? {
        if isStreaming {
          notices := StopDataStreaming();
        }
        if released {
          bleManager.DropLink(page.connectedDevice.value.id);
          page.connectedDevice := None;
          streamData := [];
          notices := notices + [Success];
        } else {
          notices := notices + [Error];
        }
      }
    }

    /** The effect that runs when the connected device or the streaming flag
        changes: streaming without a device is switched off and its samples dropped. */
    method StopIfDeviceGone()
      requires |streamData| <= Capacity
      modifies this
      ensures Valid()
      ensures old(page.connectedDevice.None? && isStreaming) ==> !isStreaming && streamData == []
      ensures !old(page.connectedDevice.None? && isStreaming) ==> unchanged(this)
    {
      if page.connectedDevice.None? && isStreaming {
        isStreaming := false;
        streamData := [];
      }
    }

    /** The adapter reports that the watched device disconnected. Without an error
        the device is cleared, its callbacks are gone, and the effect above runs. */
    method OnDeviceDisconnected(error: bool)
      requires Valid()
      modifies this, page, bleManager
      ensures Valid()
      ensures error ==> unchanged(this) && unchanged(page) && unchanged(bleManager)
      ensures !error ==>
        && page.connectedDevice.None? && !isStreaming
        && streamData == (if old(isStreaming) then [] else old(streamData))
        && bleManager.monitors == (if old(page.connectedDevice).Some?
                                   then WithoutDevice(old(bleManager.monitors), old(page.connectedDevice).value.id)
                                   else old(bleManager.monitors))
        && bleManager.scanning == old(bleManager.scanning)
    {
      if error {
        return;
      }
      if page.connectedDevice.Some? {
        bleManager.DropLink(page.connectedDevice.value.id);
      }
      page.connectedDevice := None;
      StopIfDeviceGone();
    }
  }
}
