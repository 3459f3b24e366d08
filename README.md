# Air-quality monitor: device discovery and streaming session, in Dafny

This project models the two screens of the air-quality monitor app that hold
sequential logic.

- The Bluetooth settings screen (`components/BluetoothSettings.tsx`) scans for
  peripherals. It lists each peripheral once, by id, in the order first seen.
  It connects to the peripheral the user picks, with a single in-flight marker.
- The air-quality data screen (`components/AirQualityData.tsx`) subscribes to
  every notifiable characteristic of the connected device. It keeps the incoming
  samples newest first, at most 100 of them. It also handles stop, disconnect and
  a disconnection reported by the adapter.

Each screen is a class. Its fields are the component's state variables, and its
methods are the event handlers. The connected device belongs to the monitor page
(`pages/AirQualityMonitorPage.tsx`), which both screens read and set. It is the
class `Ble.MonitorPage`.

The BLE library is modelled as the class `Ble.BleManager`. It holds only what the
screens can observe: whether a device scan runs, and which notification callbacks
are registered. Services, characteristics and advertisements are input data. The
outcomes of asynchronous calls are parameters:
- `ConnectAttempt` covers `connectToDevice` followed by service discovery.
- `Option<seq<ServiceListing>>` covers the service list; each listing holds its
  own `Option` for the characteristics request.
- `released` covers `cancelDeviceConnection`.

Toasts and alerts become a returned list of `Notice` tags (success, info, error).

Modules:
- `Ble`: shared types, the adapter facade and the monitor page.
- `DeviceList`: the de-duplicating list updater, a reference definition of the
  list a scan builds, and lemmas connecting them.
- `Discovery`: the class `BluetoothSettings`.
- `SampleBuffer`: the bounded newest-first buffer, with an independent
  description of its contents.
- `Gatt`: services and characteristics, the subscriptions that enumeration
  makes, and how many there are.
- `Streaming`: the class `AirQualityData`.
- `Scenario`: a client that scans, connects, streams three notifications and
  disconnects. It uses only the contracts above.

Where the code's behaviour may look unintended, the model follows the code:
- A failed `cancelDeviceConnection` leaves both `connectedDevice` and
  `streamData` as they were.
- With zero notifiable characteristics, `isStreaming` stays true and only an
  info notice is shown.
- A notification that arrives after `stopDataStreaming` is still put in the
  buffer. The callback does not test `isStreaming`, and `cancelTransaction('all')`
  is not modelled.

## Model

| member | source | states |
|---|---|---|
| `DeviceList.Record` | components/BluetoothSettings.tsx:56-61 | a new entry carries the advertisement's id, name, rssi and isConnectable, and nothing else |
| `DeviceList.Find` | components/BluetoothSettings.tsx:54 | finds an entry exactly when the id is listed; what it finds has that id and is the first listed entry with it |
| `DeviceList.Discover` | components/BluetoothSettings.tsx:45-66 | running the updater once per callback only appends, at most one entry per callback; the ids listed afterwards are the earlier ones plus every advertised id; unique ids are preserved |
| `DeviceList.AddIfNew` | components/BluetoothSettings.tsx:53-64 | the old list is a prefix of the new one, which is at most one longer; it is the same length exactly when the id was already listed; a new entry is the advertisement's id, name, rssi and isConnectable; the id set gains the id; unique ids are preserved |
| `DeviceList.FirstSeenSnoc` | components/BluetoothSettings.tsx:53-64 | one updater step on the reference list of the callbacks so far gives the reference list of those callbacks plus the new one |
| `DeviceList.FirstSeenIds` | components/BluetoothSettings.tsx:53-64 | the list built from any callbacks holds exactly the advertised ids |
| `DeviceList.FirstSeenUnique` | components/BluetoothSettings.tsx:53-64 | the list built from any callbacks has at most one entry per id |
| `DeviceList.FirstSeenPrefix` | components/BluetoothSettings.tsx:56-61 | later callbacks only append, so the list so far stays a prefix |
| `DeviceList.RepeatIgnored` | components/BluetoothSettings.tsx:54-63 | an advertisement whose id was seen before leaves the list unchanged; name, rssi and isConnectable are never updated |
| `DeviceList.FirstSeenComplete` | components/BluetoothSettings.tsx:56-61 | the first advertisement of every id is in the list, with its own fields |
| `DeviceList.FirstSeenSound` | components/BluetoothSettings.tsx:56-61 | every entry is the record of the first advertisement that carried its id |
| `DeviceList.DiscoverIsFirstSeen` | components/BluetoothSettings.tsx:45-66 | running the updater once per callback, in order, yields the reference list of first-seen devices |
| `DeviceList.ScanResult` | components/BluetoothSettings.tsx:42-66 | from the emptied list of a new scan, any callbacks give one entry per distinct id, in first-seen order |
| `Discovery.BluetoothSettings.constructor` | components/BluetoothSettings.tsx:21-24 | initial state: Unknown, not scanning, no devices, no attempt in flight |
| `Discovery.BluetoothSettings.OnStateChange` | components/BluetoothSettings.tsx:26-29 | records the adapter state |
| `Discovery.BluetoothSettings.ScanForDevices` | components/BluetoothSettings.tsx:36-45 | unless the adapter is PoweredOn: only an error notice, no state change and no adapter call; otherwise isScanning is set, the list is emptied and the adapter scan starts |
| `Discovery.BluetoothSettings.OnScanResult` | components/BluetoothSettings.tsx:45-66 | an error stops isScanning and keeps the list; a device runs the de-duplicating updater; the list stays the first-seen list of this scan's callbacks |
| `Discovery.BluetoothSettings.OnScanTimeout` | components/BluetoothSettings.tsx:68-71 | stops the adapter scan and clears isScanning |
| `Discovery.BluetoothSettings.BeginConnect` | components/BluetoothSettings.tsx:74-75 | only for a listed device (a Connect button exists only for those) and only while no attempt is in flight (every button is disabled then); the marker becomes the device's id |
| `Discovery.BluetoothSettings.FinishConnect` | components/BluetoothSettings.tsx:77-91 | the device becomes the connected one, with a success notice and the scan stopped, exactly when connecting and discovery both succeed; otherwise an error notice and no change to the connected device or the scan; the marker is cleared on every outcome |
| `Discovery.BluetoothSettings.Connect` | components/BluetoothSettings.tsx:74-92 | a whole attempt: connected, with a success notice, if and only if both steps succeed, and then the scan is stopped; a failure reports an error and leaves the connected device and the scan as they were; the marker ends cleared |
| `Ble.BleManager.constructor` | pages/AirQualityMonitorPage.tsx:14 | the adapter starts with no scan running and no callbacks registered |
| `Ble.BleManager.StartDeviceScan` | components/BluetoothSettings.tsx:45 | the adapter scan runs |
| `Ble.BleManager.StopDeviceScan` | components/BluetoothSettings.tsx:69 | the adapter scan is stopped; stopping twice is harmless |
| `Ble.BleManager.MonitorCharacteristicForDevice` | components/AirQualityData.tsx:91-94 | registers one callback for the device, service and characteristic |
| `Ble.BleManager.DropLink` | components/AirQualityData.tsx:163 | releasing the link removes every callback of that device and only those |
| `Ble.WithoutDevice` | components/AirQualityData.tsx:163 | the registrations kept are exactly those of other devices |
| `Ble.MonitorPage.constructor` | pages/AirQualityMonitorPage.tsx:15 | the page starts with no connected device |
| `SampleBuffer.SliceTo` | components/AirQualityData.tsx:109 | `slice(0, n)` yields a prefix of length min(length, n) |
| `SampleBuffer.Prepend` | components/AirQualityData.tsx:109 | the new sample is at index 0, the length is min(old length + 1, 100), and the rest is a prefix of the old buffer, so the oldest are dropped first |
| `SampleBuffer.PrependIsSlice` | components/AirQualityData.tsx:109 | one update keeps the first 100 of the new sample followed by the old buffer |
| `SampleBuffer.PrependAllNewestFirst` | components/AirQualityData.tsx:95-110 | after any run of notifications the buffer is the newest 100 samples of the whole history, newest first |
| `SampleBuffer.NotificationsFromEmpty` | components/AirQualityData.tsx:95-110 | from the emptied buffer of a new stream, n notifications leave min(n, 100) samples and index k holds the k-th newest |
| `Gatt.MonitorsFor` | components/AirQualityData.tsx:86-113 | the subscriptions of one service are at most one per characteristic, each for the given device and service |
| `Gatt.Subscriptions` | components/AirQualityData.tsx:76-115 | every subscription made by the walk over the services is for the given device |
| `Gatt.MonitorsForCount` | components/AirQualityData.tsx:86-89 | a service gets one subscription per notifiable characteristic |
| `Gatt.MonitorsForSound` | components/AirQualityData.tsx:86-94 | every subscription names the device, the service and a notifiable characteristic of that service |
| `Gatt.MonitorsForComplete` | components/AirQualityData.tsx:86-94 | every notifiable characteristic gets a subscription |
| `Gatt.SubscriptionCount` | components/AirQualityData.tsx:74-115 | when every service lists its characteristics, the count of subscriptions is the count of notifiable characteristics across all services |
| `Gatt.SubscriptionsStopAtFailure` | components/AirQualityData.tsx:76-137 | a service whose characteristics cannot be listed ends the walk, and later services add nothing |
| `Streaming.Truthy` | components/AirQualityData.tsx:100 | a value is accepted exactly when it is neither missing nor the empty string, the two falsy string values |
| `Streaming.AirQualityData.constructor` | components/AirQualityData.tsx:32-33 | not streaming, empty buffer |
| `Streaming.AirQualityData.StartDataStreaming` | components/AirQualityData.tsx:63-139 | with no connected device nothing changes; otherwise the buffer is emptied, one callback is registered per notifiable characteristic, and the count returned equals the number of notifiable characteristics; if enumeration fails: error notice and not streaming; zero subscriptions: info notice and still streaming; otherwise success notice and streaming |
| `Streaming.AirQualityData.StopDataStreaming` | components/AirQualityData.tsx:141-152 | streaming off with an info notice; buffer, connected device and callbacks unchanged |
| `Streaming.AirQualityData.OnNotification` | components/AirQualityData.tsx:95-110 | an error, or a missing or empty value, leaves the buffer unchanged; otherwise the sample with the callback's characteristic and service goes in front of the buffer, whether or not streaming is on |
| `Streaming.AirQualityData.DisconnectDevice` | components/AirQualityData.tsx:156-181 | no device: no-op; otherwise streaming is stopped first; a successful release clears the device, the buffer and the device's callbacks, with a success notice; a failed release changes neither device nor buffer and reports an error |
| `Streaming.AirQualityData.StopIfDeviceGone` | components/AirQualityData.tsx:55-61 | streaming without a device is turned off and the buffer emptied; any other state is left as it is; afterwards streaming implies a device |
| `Streaming.AirQualityData.OnDeviceDisconnected` | components/AirQualityData.tsx:40-47 | with an error nothing changes; otherwise the device is cleared, its callbacks are gone, streaming is off, and the buffer is emptied if it was streaming |

## Left out

- JSX rendering and the style sheets of both screens: presentation only.
- Toast, alert and console texts: only the kind of each notice is kept.
- The adapter-state subscription of the data screen (`components/AirQualityData.tsx:31`, `:36-38`): the state is only displayed there.
- Effect subscription and cleanup mechanics: only the state changes they trigger are modelled.
- `cancelTransaction('all')` in `stopDataStreaming`: a foreign call with no effect the model can observe.
- `BleManager` internals and `destroy()`: the library is the abstract `BleManager` class.
- Interleaving inside `startDataStreaming` and `disconnectDevice`: each runs as one step. A notification that arrives between the awaits of `startDataStreaming` is not modelled.
- `Discovery.BluetoothSettings.OnScanTimeout`: timers are not tracked. The timeout is an event that may fire at any time, so the model allows more schedules than the 10-second timer does.
- `Ble.BleManager.DropLink`: dropping the link's callbacks is the adapter's documented behaviour on release or link loss, not code of this app.
- The `Date` timestamp of a sample is an opaque natural number.
- `App.tsx` and `pages/PermissionLoadingPage.tsx`: the permission request and a static loading screen.
- The view selection of `pages/AirQualityMonitorPage.tsx:23-32`: only the connected device it owns is modelled. The page unmounts whichever screen is hidden, which discards that screen's state; a new `BluetoothSettings` or `AirQualityData` object stands for a remount, as `Scenario` does. Taken alone, each class therefore keeps state that a remount would reset: `streamData` after `OnDeviceDisconnected` while not streaming, and `devices` after a connection.
