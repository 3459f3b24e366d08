/** A client of both screens that walks the round trip the app is built for:
    scan, connect, stream three notifications, disconnect. */
module Scenario {
  import opened Ble
  import opened DeviceList
  import opened Discovery
  import opened SampleBuffer
  import opened Gatt
  import opened Streaming

  const C1 := Characteristic("C1", true, true, false, false)
  const C2 := Characteristic("C2", true, false, false, false)
  const C3 := Characteristic("C3", false, true, true, false)

  /** One service whose first two characteristics are notifiable. */
  lemma SensorSubscriptions()
    ensures !EnumerationFails([ServiceListing("S", Some([C1, C2, C3]))])
    ensures Subscriptions("X", [ServiceListing("S", Some([C1, C2, C3]))])
      == [Monitoring("X", "S", "C1"), Monitoring("X", "S", "C2")]
  {
    var services := [ServiceListing("S", Some([C1, C2, C3]))];
    assert services[..0] == [];
    assert [C1, C2, C3][..2] == [C1, C2] && [C1, C2][..1] == [C1] && [C1][..0] == [];
    assert MonitorsFor("X", "S", [C1]) == [Monitoring("X", "S", "C1")];
    assert MonitorsFor("X", "S", [C1, C2]) == [Monitoring("X", "S", "C1"), Monitoring("X", "S", "C2")];
  }

  /** Scan, see the sensor twice, connect to it. */
  method ScanAndConnect(page: MonitorPage, ble: BleManager) returns (device: DeviceRecord)
    requires page.connectedDevice == None && ble.monitors == [] && !ble.scanning
    modifies page, ble
    ensures page.connectedDevice == Some(device) && device.id == "X" && ble.monitors == []
  {
    var settings := new BluetoothSettings(page, ble);
    settings.OnStateChange(PoweredOn);
    var notices := settings.ScanForDevices();
    assert notices == [] && settings.isScanning && ble.scanning;

    // The same sensor advertises twice; the second, louder report is ignored.
    var adv := Advertisement("X", Some("Sensor1"), Some(-60), Some(true), None);
    settings.OnScanResult(false, Some(adv));
    var louder := Advertisement("X", Some("Sensor1"), Some(-40), Some(true), None);
    settings.OnScanResult(false, Some(louder));
    assert settings.devices == [Record(adv)];

    device := settings.devices[0];
    notices := settings.Connect(device, Established);
    assert !settings.isScanning && !ble.scanning && settings.connectingDeviceId == None;
  }

  method RoundTrip(t1: nat, t2: nat, t3: nat)
  {
    var page := new MonitorPage();
    var ble := new BleManager();
    var device := ScanAndConnect(page, ble);

    var screen := new AirQualityData(page, ble);
    var services := [ServiceListing("S", Some([C1, C2, C3]))];
    SensorSubscriptions();
    var notices, count := screen.StartDataStreaming(Some(services));
    assert count == 2 && notices == [Success] && screen.isStreaming;

    var m1 := Monitoring("X", "S", "C1");
    assert m1 in ble.monitors;
    screen.OnNotification(m1, false, Some("AQ=="), t1);
    screen.OnNotification(m1, false, Some("Ag=="), t2);
    screen.OnNotification(m1, false, Some("Aw=="), t3);
    assert |screen.streamData| == 3;
    assert screen.streamData[0] == Sample("C1", "S", "Aw==", t3);
    assert screen.streamData[2] == Sample("C1", "S", "AQ==", t1);

    notices := screen.DisconnectDevice(true);
    assert notices == [Info, Success];
    assert screen.streamData == [] && page.connectedDevice == None && !screen.isStreaming;
    assert ble.monitors == [];
  }
}
