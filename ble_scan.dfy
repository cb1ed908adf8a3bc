/** The scan helpers of the BLE test module, `scan_devices_sync` and
    `scan_devices_async`: start a scan, let the device-found callback
    collect devices for one waiting period, and retry up to `max_retries`
    times until some device has been found.

    What the controller reports is an input: `rounds[r]` holds the batches
    the callback receives while the r-th scan runs (a round past the end of
    `rounds` delivers nothing). */
module BleScan {
  import opened Discovery

  /** The nested `device_found_callback`: walk the batch, keep the devices
      whose name starts with `OB` or `Sync`, and append each whose address
      is not listed yet. */
  method DeviceFoundCallback(discovered: seq<Device>, deviceList: seq<Device>) returns (updated: seq<Device>)
    ensures updated == MergeFound(discovered, deviceList)
    ensures updated == discovered + Appended(discovered, deviceList)
    ensures UniqueAddresses(discovered) ==> UniqueAddresses(updated)
    ensures AllSupported(discovered) ==> AllSupported(updated)
  {
    updated := discovered;
    var i := 0;
    while i < |deviceList|
      invariant 0 <= i <= |deviceList|
      invariant updated == MergeFound(discovered, deviceList[..i])
    {
      var device := deviceList[i];
      assert deviceList[..i + 1] == deviceList[..i] + [device];
      MergeSnoc(discovered, deviceList[..i], device);
      if Supported(device) && device.address !in AddressSet(updated) {
        updated := updated + [device];
      }
      i := i + 1;
    }
    assert deviceList[..i] == deviceList;
    MergeAppendsExactly(discovered, deviceList);
    if UniqueAddresses(discovered) {
      MergeKeepsUnique(discovered, deviceList);
    }
    if AllSupported(discovered) {
      MergeKeepsSupported(discovered, deviceList);
    }
  }

  /** The list after the callback has received each batch in turn. */
  function MergeAll(known: seq<Device>, batches: seq<seq<Device>>): seq<Device>
    decreases |batches|
  {
    if batches == [] then known else MergeAll(MergeFound(known, batches[0]), batches[1..])
  }

  function Round(rounds: seq<seq<seq<Device>>>, r: nat): seq<seq<Device>>
  {
    if r < |rounds| then rounds[r] else []
  }

  /** The list after the first n scans. */
  function AfterRounds(rounds: seq<seq<seq<Device>>>, n: nat): seq<Device>
  {
    if n == 0 then [] else MergeAll(AfterRounds(rounds, n - 1), Round(rounds, n - 1))
  }

  /** The addresses the callback would list from some batches: every
      address of a device in them that passes the name filter. */
  function FoundAddresses(batches: seq<seq<Device>>): set<string>
    decreases |batches|
  {
    if batches == [] then {} else SupportedAddresses(batches[0]) + FoundAddresses(batches[1..])
  }

  /** The addresses found in the first n scans. */
  function RoundAddresses(rounds: seq<seq<seq<Device>>>, n: nat): set<string>
  {
    if n == 0 then {} else RoundAddresses(rounds, n - 1) + FoundAddresses(Round(rounds, n - 1))
  }

  lemma {:induction false} MergeAllAddresses(known: seq<Device>, batches: seq<seq<Device>>)
    ensures AddressSet(MergeAll(known, batches)) == AddressSet(known) + FoundAddresses(batches)
    decreases |batches|
  {
    if batches != [] {
      MergeAddresses(known, batches[0]);
      MergeAllAddresses(MergeFound(known, batches[0]), batches[1..]);
    }
  }

  lemma {:induction false} MergeAllKeeps(known: seq<Device>, batches: seq<seq<Device>>)
    requires UniqueAddresses(known) && AllSupported(known)
    ensures UniqueAddresses(MergeAll(known, batches)) && AllSupported(MergeAll(known, batches))
    decreases |batches|
  {
    if batches != [] {
      MergeKeepsUnique(known, batches[0]);
      MergeKeepsSupported(known, batches[0]);
      MergeAllKeeps(MergeFound(known, batches[0]), batches[1..]);
    }
  }

  /** After n scans the list holds exactly the addresses found in them, all
      distinct and all passing the filter; in particular it is empty exactly
      when no scan reported a device whose name starts with `OB` or `Sync`. */
  lemma {:induction false} AfterRoundsLists(rounds: seq<seq<seq<Device>>>, n: nat)
    ensures AddressSet(AfterRounds(rounds, n)) == RoundAddresses(rounds, n)
    ensures UniqueAddresses(AfterRounds(rounds, n)) && AllSupported(AfterRounds(rounds, n))
    ensures AfterRounds(rounds, n) == [] <==> RoundAddresses(rounds, n) == {}
  {
    if n > 0 {
      AfterRoundsLists(rounds, n - 1);
      MergeAllAddresses(AfterRounds(rounds, n - 1), Round(rounds, n - 1));
      MergeAllKeeps(AfterRounds(rounds, n - 1), Round(rounds, n - 1));
    }
    var ds := AfterRounds(rounds, n);
    if ds != [] {
      assert ds[0].address in AddressSet(ds);
    }
  }

  /** One scan round: the callback receives each batch of the round. */
  method ScanRound(discovered: seq<Device>, batches: seq<seq<Device>>) returns (updated: seq<Device>)
    ensures updated == MergeAll(discovered, batches)
  {
    updated := discovered;
    var b := 0;
    while b < |batches|
      invariant 0 <= b <= |batches|
      invariant MergeAll(updated, batches[b..]) == MergeAll(discovered, batches)
    {
      assert batches[b..] == [batches[b]] + batches[b + 1..];
      updated := DeviceFoundCallback(updated, batches[b]);
      b := b + 1;
    }
    assert batches[b..] == [];
  }

  /** `scan_devices_sync`: at most `maxRetries` scans; the loop stops after
      the first scan that leaves the list non-empty, so an empty result
      means every scan found nothing. */
  method ScanDevicesSync(maxRetries: nat, rounds: seq<seq<seq<Device>>>) returns (devices: seq<Device>, scans: nat)
    ensures scans <= maxRetries
    ensures devices == AfterRounds(rounds, scans)
    ensures devices != [] ==> 0 < scans && AfterRounds(rounds, scans - 1) == []
    ensures devices == [] ==> scans == maxRetries && RoundAddresses(rounds, maxRetries) == {}
    ensures UniqueAddresses(devices) && AllSupported(devices)
  {
    devices := [];
    scans := 0;
    for retry := 0 to maxRetries
      invariant scans == retry
      invariant devices == AfterRounds(rounds, retry) == []
    {
      devices := ScanRound(devices, Round(rounds, retry));
      scans := scans + 1;
      if devices != [] {
        break;
      }
    }
    AfterRoundsLists(rounds, scans);
  }

  /** `scan_devices_async` awaits the same scan and wait in each round and
      keeps the same list, so it ends as the synchronous helper does. */
  method ScanDevicesAsync(maxRetries: nat, rounds: seq<seq<seq<Device>>>) returns (devices: seq<Device>, scans: nat)
    ensures scans <= maxRetries
    ensures devices == AfterRounds(rounds, scans)
    ensures devices != [] ==> 0 < scans && AfterRounds(rounds, scans - 1) == []
    ensures devices == [] ==> scans == maxRetries && RoundAddresses(rounds, maxRetries) == {}
    ensures UniqueAddresses(devices) && AllSupported(devices)
  {
    devices, scans := ScanDevicesSync(maxRetries, rounds);
  }
}
