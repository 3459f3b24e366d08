/** Types shared by the two screens, the adapter facade they both drive, and the
    page that owns the connected device. */
module Ble {

  datatype Option<+T> = None | Some(value: T)

  /** Power and availability state of the platform radio, as the adapter reports it. */
  datatype AdapterState = Unknown | Resetting | Unsupported | Unauthorized | PoweredOff | PoweredOn

  /** The kind of toast or alert a handler shows; message texts are not modelled. */
  datatype Notice = Success | Info | Error

  /** The `BluetoothDevice` record that both screens keep for a peripheral. */
  datatype DeviceRecord = DeviceRecord(id: string, name: Option<string>, rssi: Option<int>, isConnectable: Option<bool>)

  /** A peripheral as a scan callback reports it; it carries more than the record keeps. */
  datatype Advertisement = Advertisement(
    id: string, name: Option<string>, rssi: Option<int>, isConnectable: Option<bool>,
    manufacturerData: Option<string>)

  /** One notification callback registered with the adapter for a characteristic of a device. */
  datatype Monitoring = Monitoring(deviceId: string, serviceUUID: string, characteristicUUID: string)

  /** The registrations that survive when the link to device `id` is released or lost. */
  function WithoutDevice(monitors: seq<Monitoring>, id: string): (r: seq<Monitoring>)
    ensures forall m :: m in r <==> m in monitors && m.deviceId != id
    ensures |r| <= |monitors|
  {
    if monitors == [] then []
    else if monitors[0].deviceId == id then WithoutDevice(monitors[1..], id)
    else [monitors[0]] + WithoutDevice(monitors[1..], id)
  }

  /** The adapter facade shared by both screens. Only the state the screens can
      observe is kept: whether a device scan runs, and which notification
      callbacks are registered. */
  class BleManager {
    var scanning: bool
    var monitors: seq<Monitoring>

    constructor ()
      ensures !scanning && monitors == []
    {
      scanning := false;
      monitors := [];
    }

    method StartDeviceScan()
      modifies this
      ensures scanning && monitors == old(monitors)
    {
      scanning := true;
    }

    /** Stopping is idempotent. */
    method StopDeviceScan()
      modifies this
      ensures !scanning && monitors == old(monitors)
    {
      scanning := false;
    }

    method MonitorCharacteristicForDevice(deviceId: string, serviceUUID: string, characteristicUUID: string)
      modifies this
      ensures monitors == old(monitors) + [Monitoring(deviceId, serviceUUID, characteristicUUID)]
      ensures scanning == old(scanning)
    {
      monitors := monitors + [Monitoring(deviceId, serviceUUID, characteristicUUID)];
    }

    /** The link to device `id` is gone (released by the app or dropped by the
        peripheral): the adapter invalidates every callback registered for it. */
    method DropLink(id: string)
      modifies this
      ensures monitors == WithoutDevice(old(monitors), id)
      ensures scanning == old(scanning)
    {
      monitors := WithoutDevice(monitors, id);
    }
  }

  /** The monitor page: it owns the connected device that both screens read and set. */
  class MonitorPage {
    var connectedDevice: Option<DeviceRecord>

    constructor ()
      ensures connectedDevice == None
    {
      connectedDevice := None;
    }
  }
}
