/** The Bluetooth settings screen: it scans for devices, lists each one once, and
    connects to the one the user picks. */
module Discovery {
  import opened Ble
  import opened DeviceList

  /** How an attempt to connect ends: the connection is refused, the connection is
      made but service discovery fails, or both steps succeed. */
  datatype ConnectAttempt = ConnectRejected | DiscoveryRejected | Established

  /** How long a scan runs before it is stopped, in milliseconds. */
  const ScanWindowMs: nat := 10000

  class BluetoothSettings {
    const page: MonitorPage
    const bleManager: BleManager

    var bluetoothState: AdapterState
    var isScanning: bool
    var devices: seq<DeviceRecord>
    var connectingDeviceId: Option<string>

    /** The devices reported by scan callbacks since the current scan started. */
    ghost var discoveries: seq<Advertisement>

    ghost predicate Valid()
      reads this
    {
      devices == FirstSeen(discoveries)
    }

    constructor (page: MonitorPage, bleManager: BleManager)
      ensures this.page == page && this.bleManager == bleManager
      ensures bluetoothState == Unknown && !isScanning && devices == [] && connectingDeviceId == None
      ensures discoveries == [] && Valid()
    {
      this.page := page;
      this.bleManager := bleManager;
      bluetoothState := Unknown;
      isScanning := false;
      devices := [];
      connectingDeviceId := None;
      discoveries := [];
    }

    /** The adapter reports its state (on subscription and on every change). */
    method OnStateChange(state: AdapterState)
      modifies this`bluetoothState
      ensures bluetoothState == state
    {
      bluetoothState := state;
    }

    /** Start a scan. Unless the adapter is powered on this only reports an error.
        The timer that ends the scan after `ScanWindowMs` is `OnScanTimeout`. */
    method ScanForDevices() returns (notices: seq<Notice>)
      requires Valid()
      modifies this, bleManager
      ensures Valid()
      ensures old(bluetoothState) != PoweredOn ==>
        notices == [Error] && unchanged(this) && unchanged(bleManager)
      ensures old(bluetoothState) == PoweredOn ==>
        && notices == []
        && isScanning && devices == [] && discoveries == []
        && bluetoothState == old(bluetoothState) && connectingDeviceId == old(connectingDeviceId)
        && bleManager.scanning && bleManager.monitors == old(bleManager.monitors)
    {
      if bluetoothState != PoweredOn {
        notices := [Error];
        return;
      }
      isScanning := true;
      devices := [];
      discoveries := [];
      bleManager.StartDeviceScan();
      notices := [];
    }

    /** One invocation of the scan callback, with its error slot and its device slot. */
    method OnScanResult(error: bool, device: Option<Advertisement>)
      requires Valid()
      modifies this
      ensures Valid()
      ensures bluetoothState == old(bluetoothState) && connectingDeviceId == old(connectingDeviceId)
      ensures error ==> !isScanning && devices == old(devices) && discoveries == old(discoveries)
      ensures !error && device.None? ==> unchanged(this)
      ensures !error && device.Some? ==>
        && isScanning == old(isScanning)
        && devices == AddIfNew(old(devices), device.value)
        && discoveries == old(discoveries) + [device.value]
    {
      if error {
        isScanning := false;
        return;
      }
      if device.Some? {
        FirstSeenSnoc(discoveries, device.value);
        devices := AddIfNew(devices, device.value);
        discoveries := discoveries + [device.value];
      }
    }

    /** The timer armed by `ScanForDevices` fires after `ScanWindowMs`: the adapter
        scan is stopped and the screen leaves the scanning state. */
    method OnScanTimeout()
      modifies this`isScanning, bleManager
      ensures !isScanning && !bleManager.scanning && bleManager.monitors == old(bleManager.monitors)
    {
      bleManager.StopDeviceScan();
      isScanning := false;
    }

    /** The user taps Connect on a listed device; the button is disabled while any
        attempt is in flight. */
    method BeginConnect(device: DeviceRecord)
      requires connectingDeviceId == None && device in devices
      modifies this`connectingDeviceId
      ensures connectingDeviceId == Some(device.id)
    {
      connectingDeviceId := Some(device.id);
    }

    /** The attempt for `device` ends. Only when both steps succeed is the device
        made the connected one and the scan stopped; on every outcome the in-flight
        marker is cleared. */
    method FinishConnect(device: DeviceRecord, attempt: ConnectAttempt) returns (notices: seq<Notice>)
      requires connectingDeviceId == Some(device.id)
      modifies this`isScanning, this`connectingDeviceId, page, bleManager
      ensures connectingDeviceId == None
      ensures attempt == Established ==>
        && page.connectedDevice == Some(device) && notices == [Success]
        && !isScanning && !bleManager.scanning
      ensures attempt != Established ==>
        && page.connectedDevice == old(page.connectedDevice) && notices == [Error]
        && isScanning == old(isScanning) && bleManager.scanning == old(bleManager.scanning)
      ensures bleManager.monitors == old(bleManager.monitors)
    {
      if attempt == Established {
        page.connectedDevice := Some(device);
        notices := [Success];
        bleManager.StopDeviceScan();
        isScanning := false;
      } else {
        notices := [Error];
      }
      connectingDeviceId := None;
    }

    /** A whole connect attempt with no other event in between. */
    method Connect(device: DeviceRecord, attempt: ConnectAttempt) returns (notices: seq<Notice>)
      requires connectingDeviceId == None && device in devices
      modifies this`isScanning, this`connectingDeviceId, page, bleManager
      ensures connectingDeviceId == None
      ensures attempt == Established <==> page.connectedDevice == Some(device) && notices == [Success]
      ensures attempt == Established ==> !isScanning && !bleManager.scanning
      ensures bleManager.monitors == old(bleManager.monitors)
      ensures attempt != Established ==>
        && page.connectedDevice == old(page.connectedDevice) && notices == [Error]
        && isScanning == old(isScanning) && bleManager.scanning == old(bleManager.scanning)
    {
      BeginConnect(device);
      notices := FinishConnect(device, attempt);
    }
  }
}
