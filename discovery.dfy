/** The discovered-device list that both device-found callbacks keep: the
    GUI demo's `deviceFoundCallback` and the BLE test module's nested
    `device_found_callback`. Each callback walks one batch of advertisements,
    keeps those whose name starts with `OB` or `Sync`, and appends a device
    only when its address is not listed yet. */
module Discovery {

  /** One advertisement as the BLE scanner reports it. */
  datatype Device = Device(name: string, address: string, rssi: int)

  predicate StartsWith(s: string, prefix: string)
  {
    |prefix| <= |s| && s[..|prefix|] == prefix
  }

  /** The name filter of both callbacks. */
  predicate Supported(d: Device)
  {
    StartsWith(d.name, "OB") || StartsWith(d.name, "Sync")
  }

  function AddressSet(ds: seq<Device>): set<string>
  {
    set d | d in ds :: d.address
  }

  predicate UniqueAddresses(ds: seq<Device>)
  {
    forall i, j :: 0 <= i < j < |ds| ==> ds[i].address != ds[j].address
  }

  predicate AllSupported(ds: seq<Device>)
  {
    forall d :: d in ds ==> Supported(d)
  }

  /** One turn of the callback's loop: the device is appended when it passes
      the name filter and its address is not in the list yet. */
  function Admit(known: seq<Device>, d: Device): seq<Device>
  {
    if Supported(d) && d.address !in AddressSet(known) then known + [d] else known
  }

  /** The list after one callback has walked the whole batch. */
  function MergeFound(known: seq<Device>, batch: seq<Device>): seq<Device>
    decreases |batch|
  {
    if batch == [] then known else MergeFound(Admit(known, batch[0]), batch[1..])
  }

  /** The addresses of the batch's devices that pass the name filter. */
  function SupportedAddresses(batch: seq<Device>): set<string>
  {
    set d | d in batch && Supported(d) :: d.address
  }

  /** The batch's device at position i is the one a callback should add: it
      passes the filter, its address was not known, and no earlier device of
      the batch that passes the filter has the same address. */
  predicate FirstNewAt(known: seq<Device>, batch: seq<Device>, i: nat)
    requires i < |batch|
  {
    && Supported(batch[i])
    && batch[i].address !in AddressSet(known)
    && batch[i].address !in SupportedAddresses(batch[..i])
  }

  /** The devices a callback should append, in batch order: a reference
      definition independent of the loop in MergeFound. */
  function Appended(known: seq<Device>, batch: seq<Device>): seq<Device>
    decreases |batch|
  {
    if batch == [] then []
    else
      var n := |batch| - 1;
      Appended(known, batch[..n]) + (if FirstNewAt(known, batch, n) then [batch[n]] else [])
  }

  /** Walking a batch one device longer is one more turn of the loop. */
  lemma {:induction false} MergeSnoc(known: seq<Device>, batch: seq<Device>, d: Device)
    ensures MergeFound(known, batch + [d]) == Admit(MergeFound(known, batch), d)
    decreases |batch|
  {
    if batch == [] {
      assert [d][1..] == [];
    } else {
      assert (batch + [d])[1..] == batch[1..] + [d];
      MergeSnoc(Admit(known, batch[0]), batch[1..], d);
    }
  }

  /** After a callback the list holds the old addresses plus exactly the
      addresses of the batch's devices that pass the filter. */
  lemma {:induction false} MergeAddresses(known: seq<Device>, batch: seq<Device>)
    ensures AddressSet(MergeFound(known, batch)) == AddressSet(known) + SupportedAddresses(batch)
    decreases |batch|
  {
    if batch != [] {
      var next := Admit(known, batch[0]);
      MergeAddresses(next, batch[1..]);
      assert AddressSet(next) == AddressSet(known) + (if Supported(batch[0]) then {batch[0].address} else {});
      assert batch == [batch[0]] + batch[1..];
      assert SupportedAddresses(batch) == (if Supported(batch[0]) then {batch[0].address} else {}) + SupportedAddresses(batch[1..]);
    }
  }

  /** A callback keeps every entry it had, in place, and appends exactly the
      devices Appended names, in batch order. */
  lemma {:induction false} MergeAppendsExactly(known: seq<Device>, batch: seq<Device>)
    ensures MergeFound(known, batch) == known + Appended(known, batch)
    decreases |batch|
  {
    if batch != [] {
      var n := |batch| - 1;
      var front := batch[..n];
      assert batch == front + [batch[n]];
      MergeSnoc(known, front, batch[n]);
      MergeAppendsExactly(known, front);
      MergeAddresses(known, front);
      assert SupportedAddresses(batch[..n]) == SupportedAddresses(front);
    }
  }

  /** A callback never lists an address twice, also when the batch itself
      repeats an address. */
  lemma {:induction false} MergeKeepsUnique(known: seq<Device>, batch: seq<Device>)
    requires UniqueAddresses(known)
    ensures UniqueAddresses(MergeFound(known, batch))
    decreases |batch|
  {
    if batch != [] {
      var next := Admit(known, batch[0]);
      if next != known {
        forall i | 0 <= i < |known|
          ensures known[i].address != batch[0].address
        {
          assert known[i] in known;
        }
      }
      MergeKeepsUnique(next, batch[1..]);
    }
  }

  /** Only devices that pass the name filter ever enter the list. */
  lemma {:induction false} MergeKeepsSupported(known: seq<Device>, batch: seq<Device>)
    requires AllSupported(known)
    ensures AllSupported(MergeFound(known, batch))
    decreases |batch|
  {
    if batch != [] {
      MergeKeepsSupported(Admit(known, batch[0]), batch[1..]);
    }
  }

  /** A batch whose filtered addresses are all listed already adds nothing. */
  lemma {:induction false} MergeOfKnownIsIdentity(known: seq<Device>, batch: seq<Device>)
    requires SupportedAddresses(batch) <= AddressSet(known)
    ensures MergeFound(known, batch) == known
    decreases |batch|
  {
    if batch != [] {
      assert batch[0] in batch;
      assert SupportedAddresses(batch[1..]) <= SupportedAddresses(batch) by {
        forall d | d in batch[1..] ensures d in batch { }
      }
      MergeOfKnownIsIdentity(known, batch[1..]);
    }
  }

  /** Delivering the same batch twice lists what delivering it once does. */
  lemma MergeIdempotent(known: seq<Device>, batch: seq<Device>)
    ensures MergeFound(MergeFound(known, batch), batch) == MergeFound(known, batch)
  {
    MergeAddresses(known, batch);
    MergeOfKnownIsIdentity(MergeFound(known, batch), batch);
  }
}
