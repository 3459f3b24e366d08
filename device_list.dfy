/** The discovered-device list of the settings screen: the updater that one scan
    callback applies, and the list it builds over a whole scan. */
module DeviceList {
  import opened Ble

  /** The fields of an advertisement that the list keeps. */
  function Record(a: Advertisement): (r: DeviceRecord)
    ensures r.id == a.id && r.name == a.name && r.rssi == a.rssi && r.isConnectable == a.isConnectable
  {
    DeviceRecord(a.id, a.name, a.rssi, a.isConnectable)
  }

  function Ids(devices: seq<DeviceRecord>): set<string>
  {
    set i | 0 <= i < |devices| :: devices[i].id
  }

  function AdvertisedIds(advs: seq<Advertisement>): set<string>
  {
    set i | 0 <= i < |advs| :: advs[i].id
  }

  predicate UniqueIds(devices: seq<DeviceRecord>)
  {
    forall i, j :: 0 <= i < j < |devices| ==> devices[i].id != devices[j].id
  }

  /** No entry before index `k` has id `id`. */
  predicate IdAbsent(devices: seq<DeviceRecord>, k: nat, id: string)
    requires k <= |devices|
  {
    forall j :: 0 <= j < k ==> devices[j].id != id
  }

  /** `existingDevices.find(d => d.id === id)`: the first entry with that id. */
  function Find(devices: seq<DeviceRecord>, id: string): (r: Option<DeviceRecord>)
    ensures r.None? <==> id !in Ids(devices)
    ensures r.Some? ==> r.value.id == id
    ensures r.Some? ==> exists k :: 0 <= k < |devices| && devices[k] == r.value && IdAbsent(devices, k, id)
  {
    if devices == [] then None
    else if devices[0].id == id then Some(devices[0])
    else
      assert Ids(devices) == {devices[0].id} + Ids(devices[1..]) by {
        assert forall i :: 0 < i < |devices| ==> devices[i] == devices[1..][i - 1];
      }
      Find(devices[1..], id)
  }

  /** The `setDevices` updater run for one reported device: a device whose id is
      already listed leaves the list as it is, a new one is appended. */
  function AddIfNew(devices: seq<DeviceRecord>, a: Advertisement): (r: seq<DeviceRecord>)
    ensures devices <= r && |r| <= |devices| + 1
    ensures |r| == |devices| <==> a.id in Ids(devices)
    ensures |r| == |devices| + 1 ==> r[|devices|] == Record(a)
    ensures Ids(r) == Ids(devices) + {a.id}
    ensures UniqueIds(devices) ==> UniqueIds(r)
  {
    var r := if Find(devices, a.id).None? then devices + [Record(a)] else devices;
    assert Ids(r) == Ids(devices) + {a.id} by {
      if r != devices {
        assert r[|devices|].id == a.id;
        assert forall i :: 0 <= i < |devices| ==> r[i] == devices[i];
      }
    }
    r
  }

  /** The list after the scan callbacks for `advs` have run, in order, starting from `devices`. */
  function Discover(devices: seq<DeviceRecord>, advs: seq<Advertisement>): (r: seq<DeviceRecord>)
    ensures devices <= r && |r| <= |devices| + |advs|
    ensures Ids(r) == Ids(devices) + AdvertisedIds(advs)
    ensures UniqueIds(devices) ==> UniqueIds(r)
    decreases |advs|
  {
    if advs == [] then devices else Discover(AddIfNew(devices, advs[0]), advs[1..])
  }

  /** Advertisement `i` is the first one in `advs` that carries its id. */
  predicate IsFirst(advs: seq<Advertisement>, i: nat)
    requires i < |advs|
  {
    forall j :: 0 <= j < i ==> advs[j].id != advs[i].id
  }

  /** Reference definition: the records of the first advertisement of every id, in
      the order those first advertisements arrived. */
  function FirstSeen(advs: seq<Advertisement>): seq<DeviceRecord>
  {
    if advs == [] then []
    else
      var n := |advs| - 1;
      FirstSeen(advs[..n]) + (if IsFirst(advs, n) then [Record(advs[n])] else [])
  }

  lemma AdvertisedIdsSnoc(advs: seq<Advertisement>, a: Advertisement)
    ensures AdvertisedIds(advs + [a]) == AdvertisedIds(advs) + {a.id}
  {
    var s := advs + [a];
    assert s[|advs|] == a;
    assert forall i :: 0 <= i < |advs| ==> s[i] == advs[i];
  }

  lemma IsFirstLast(advs: seq<Advertisement>, a: Advertisement)
    ensures IsFirst(advs + [a], |advs|) <==> a.id !in AdvertisedIds(advs)
  {
    var s := advs + [a];
    if !IsFirst(s, |advs|) {
      var j :| 0 <= j < |advs| && s[j].id == a.id;
      assert advs[j].id == a.id;
    }
    if a.id in AdvertisedIds(advs) {
      var j :| 0 <= j < |advs| && advs[j].id == a.id;
      assert s[j].id == a.id;
    }
  }

  /** The list holds exactly the ids that were advertised. */
  lemma {:induction false} FirstSeenIds(advs: seq<Advertisement>)
    ensures Ids(FirstSeen(advs)) == AdvertisedIds(advs)
  {
    if advs != [] {
      var n := |advs| - 1;
      var init, a := advs[..n], advs[n];
      assert advs == init + [a];
      FirstSeenIds(init);
      AdvertisedIdsSnoc(init, a);
      IsFirstLast(init, a);
      var prev := FirstSeen(init);
      var tail := if IsFirst(advs, n) then [Record(a)] else [];
      var r := prev + tail;
      assert forall i :: 0 <= i < |prev| ==> r[i] == prev[i];
      if tail != [] {
        assert r[|prev|] == Record(a);
      }
      assert Ids(r) == Ids(prev) + (if tail == [] then {} else {a.id});
    }
  }

  /** The step that relates the updater to the reference definition. */
  lemma FirstSeenSnoc(advs: seq<Advertisement>, a: Advertisement)
    ensures FirstSeen(advs + [a]) == AddIfNew(FirstSeen(advs), a)
  {
    var s := advs + [a];
    assert s[..|advs|] == advs;
    FirstSeenIds(advs);
    IsFirstLast(advs, a);
  }

  /** At most one entry per id. */
  lemma {:induction false} FirstSeenUnique(advs: seq<Advertisement>)
    ensures UniqueIds(FirstSeen(advs))
  {
    if advs != [] {
      var n := |advs| - 1;
      assert advs == advs[..n] + [advs[n]];
      FirstSeenUnique(advs[..n]);
      FirstSeenSnoc(advs[..n], advs[n]);
    }
  }

  /** Whatever callbacks run after `advs`, the list built so far stays a prefix. */
  lemma {:induction false} FirstSeenPrefix(advs: seq<Advertisement>, more: seq<Advertisement>)
    ensures FirstSeen(advs) <= FirstSeen(advs + more)
    decreases |more|
  {
    if more == [] {
      assert advs + more == advs;
    } else {
      var n := |more| - 1;
      assert advs + more == (advs + more[..n]) + [more[n]];
      FirstSeenPrefix(advs, more[..n]);
      FirstSeenSnoc(advs + more[..n], more[n]);
      var mid := FirstSeen(advs + more[..n]);
      assert FirstSeen(advs) <= mid <= FirstSeen(advs + more);
    }
  }

  /** A repeated advertisement changes nothing: neither the entries nor their
      name, rssi or connectability. */
  lemma RepeatIgnored(advs: seq<Advertisement>, a: Advertisement)
    requires a.id in AdvertisedIds(advs)
    ensures FirstSeen(advs + [a]) == FirstSeen(advs)
  {
    FirstSeenSnoc(advs, a);
    FirstSeenIds(advs);
  }

  /** Every first advertisement is listed, with its own fields. */
  lemma {:induction false} FirstSeenComplete(advs: seq<Advertisement>, i: nat)
    requires i < |advs| && IsFirst(advs, i)
    ensures Record(advs[i]) in FirstSeen(advs)
  {
    var n := |advs| - 1;
    var init := advs[..n];
    assert advs == init + [advs[n]];
    FirstSeenSnoc(init, advs[n]);
    if i < n {
      assert IsFirst(init, i);
      FirstSeenComplete(init, i);
    } else {
      assert FirstSeen(advs) == FirstSeen(init) + [Record(advs[n])];
    }
  }

  /** Every entry is the record of the first advertisement that carried its id;
      `i` is that advertisement's position. */
  lemma {:induction false} FirstSeenSound(advs: seq<Advertisement>, k: nat) returns (i: nat)
    requires k < |FirstSeen(advs)|
    ensures i < |advs| && IsFirst(advs, i) && FirstSeen(advs)[k] == Record(advs[i])
  {
    var n := |advs| - 1;
    var init := advs[..n];
    var prev := FirstSeen(init);
    var r := FirstSeen(advs);
    assert r == prev + (if IsFirst(advs, n) then [Record(advs[n])] else []);
    if k < |prev| {
      i := FirstSeenSound(init, k);
      assert r[k] == prev[k];
      assert advs[i] == init[i];
      assert forall j :: 0 <= j < i ==> advs[j] == init[j];
    } else {
      i := n;
    }
  }

  /** Running the updater once per callback builds the reference list. */
  lemma {:induction false} DiscoverIsFirstSeen(advs: seq<Advertisement>, more: seq<Advertisement>)
    ensures Discover(FirstSeen(advs), more) == FirstSeen(advs + more)
    decreases |more|
  {
    if more == [] {
      assert advs + more == advs;
    } else {
      FirstSeenSnoc(advs, more[0]);
      assert advs + more == (advs + [more[0]]) + more[1..];
      DiscoverIsFirstSeen(advs + [more[0]], more[1..]);
    }
  }

  /** A scan starts from an empty list, so after any callbacks the list is the
      reference list: one entry per advertised id, first-seen order. */
  lemma ScanResult(advs: seq<Advertisement>)
    ensures Discover([], advs) == FirstSeen(advs)
    ensures UniqueIds(Discover([], advs))
    ensures Ids(Discover([], advs)) == AdvertisedIds(advs)
  {
    DiscoverIsFirstSeen([], advs);
    assert [] + advs == advs;
    FirstSeenUnique(advs);
    FirstSeenIds(advs);
  }
}
