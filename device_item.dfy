/** The text of one row of the GUI demo's device list,
    `Name: {name}, Address: {address}, RSSI: {rssi}`, and the address that
    `connect_device` cuts back out of it. */
module DeviceItem {
  import opened PyText
  import opened Discovery

  const NAME_LABEL: string := "Name: "
  const ADDRESS_LABEL: string := "Address: "
  const ADDRESS_SEPARATOR: string := ", Address: "
  const RSSI_MARK: string := ", RSSI:"
  const RSSI_SEPARATOR: string := ", RSSI: "

  /** The item text `deviceFoundCallback` emits for a newly listed device. */
  function ItemText(d: Device): string
  {
    NAME_LABEL + d.name + ADDRESS_SEPARATOR + d.address + RSSI_SEPARATOR + IntToString(d.rssi)
  }

  /** The address `connect_device` slices out of a clicked item's text: from
      just past the first `Address: ` to the first `, RSSI:`, with Python's
      behaviour when either is missing (`find` gives -1). */
  function ParseAddress(text: string): string
  {
    Slice(text, Find(text, ADDRESS_LABEL) + |ADDRESS_LABEL|, Find(text, RSSI_MARK))
  }

  /** The texts emitted for the given devices, one per device, in order. */
  function ItemTexts(ds: seq<Device>): (r: seq<string>)
    ensures |r| == |ds|
    ensures forall i :: 0 <= i < |ds| ==> r[i] == ItemText(ds[i])
  {
    seq(|ds|, i requires 0 <= i < |ds| => ItemText(ds[i]))
  }

  lemma ItemTextsAppend(a: seq<Device>, b: seq<Device>)
    ensures ItemTexts(a + b) == ItemTexts(a) + ItemTexts(b)
  {
  }

  /** The device fields that the parse cannot be confused by. */
  predicate Parseable(d: Device)
  {
    !Contains(d.name, ADDRESS_LABEL) && !Contains(d.name, RSSI_MARK) && !Contains(d.address, RSSI_MARK)
  }

  /** In an item text, `Address: ` first occurs right after the name. */
  lemma FindAddressLabel(d: Device)
    requires !Contains(d.name, ADDRESS_LABEL)
    ensures Find(ItemText(d), ADDRESS_LABEL) == |NAME_LABEL| + |d.name| + 2
  {
    var t := ItemText(d);
    var rest := ADDRESS_SEPARATOR + d.address + RSSI_SEPARATOR + IntToString(d.rssi);
    assert t == NAME_LABEL + d.name + rest;
    var p := |NAME_LABEL| + |d.name| + 2;
    assert t[p..p + |ADDRESS_LABEL|] == ADDRESS_LABEL;
    forall q | 0 <= q < p
      ensures !OccursAt(t, ADDRESS_LABEL, q)
    {
      if q + |ADDRESS_LABEL| > |t| {
      } else if q < |NAME_LABEL| {
        MismatchRulesOut(t, ADDRESS_LABEL, q, q);
      } else if q + |ADDRESS_LABEL| <= |NAME_LABEL| + |d.name| {
        InsidePart(NAME_LABEL, d.name, rest, ADDRESS_LABEL, q);
      } else if q < |NAME_LABEL| + |d.name| {
        // the window covers the comma that follows the name
        MismatchRulesOut(t, ADDRESS_LABEL, q, |NAME_LABEL| + |d.name|);
      } else {
        MismatchRulesOut(t, ADDRESS_LABEL, q, q);
      }
    }
    FindAt(t, ADDRESS_LABEL, p);
  }

  /** No `, RSSI:` starts inside the name part of an item text, up to the
      comma that follows the name. */
  lemma NoRssiMarkInName(d: Device, q: int)
    requires !Contains(d.name, RSSI_MARK)
    requires 0 <= q <= |NAME_LABEL| + |d.name|
    ensures !OccursAt(ItemText(d), RSSI_MARK, q)
  {
    var t := ItemText(d);
    var nameEnd := |NAME_LABEL| + |d.name|;
    var rest := ADDRESS_SEPARATOR + d.address + RSSI_SEPARATOR + IntToString(d.rssi);
    assert t == NAME_LABEL + d.name + rest;
    if q + |RSSI_MARK| > |t| {
    } else if q < |NAME_LABEL| {
      MismatchRulesOut(t, RSSI_MARK, q, q);
    } else if q + |RSSI_MARK| <= nameEnd {
      InsidePart(NAME_LABEL, d.name, rest, RSSI_MARK, q);
    } else if q < nameEnd {
      // the window covers the comma that follows the name at a later offset
      MismatchRulesOut(t, RSSI_MARK, q, nameEnd);
    } else {
      MismatchRulesOut(t, RSSI_MARK, q, q + 2);
    }
  }

  /** No `, RSSI:` starts after the name's comma and before the one that
      follows the address. */
  lemma NoRssiMarkInAddress(d: Device, q: int)
    requires !Contains(d.address, RSSI_MARK)
    requires |NAME_LABEL| + |d.name| < q < |NAME_LABEL| + |d.name| + |ADDRESS_SEPARATOR| + |d.address|
    ensures !OccursAt(ItemText(d), RSSI_MARK, q)
  {
    var t := ItemText(d);
    var front := NAME_LABEL + d.name + ADDRESS_SEPARATOR;
    var p := |front| + |d.address|;
    var tail := RSSI_SEPARATOR + IntToString(d.rssi);
    assert t == front + d.address + tail;
    if q + |RSSI_MARK| > |t| {
    } else if q < |front| {
      MismatchRulesOut(t, RSSI_MARK, q, q);
    } else if q + |RSSI_MARK| <= p {
      InsidePart(front, d.address, tail, RSSI_MARK, q);
    } else {
      // the window covers the comma that follows the address at a later offset
      MismatchRulesOut(t, RSSI_MARK, q, p);
    }
  }

  /** In an item text, `, RSSI:` first occurs right after the address. */
  lemma FindRssiMark(d: Device)
    requires !Contains(d.name, RSSI_MARK) && !Contains(d.address, RSSI_MARK)
    ensures Find(ItemText(d), RSSI_MARK) == |NAME_LABEL| + |d.name| + |ADDRESS_SEPARATOR| + |d.address|
  {
    var t := ItemText(d);
    var nameEnd := |NAME_LABEL| + |d.name|;
    var p := nameEnd + |ADDRESS_SEPARATOR| + |d.address|;
    assert t == (NAME_LABEL + d.name + ADDRESS_SEPARATOR) + d.address + (RSSI_SEPARATOR + IntToString(d.rssi));
    assert t[p..p + |RSSI_MARK|] == RSSI_MARK;
    forall q | 0 <= q < p
      ensures !OccursAt(t, RSSI_MARK, q)
    {
      if q <= nameEnd {
        NoRssiMarkInName(d, q);
      } else {
        NoRssiMarkInAddress(d, q);
      }
    }
    FindAt(t, RSSI_MARK, p);
  }

  /** Parsing an emitted item text gives back exactly the device's address. */
  lemma ParseItemText(d: Device)
    requires Parseable(d)
    ensures ParseAddress(ItemText(d)) == d.address
  {
    var t := ItemText(d);
    FindAddressLabel(d);
    FindRssiMark(d);
    var start := |NAME_LABEL| + |d.name| + |ADDRESS_SEPARATOR|;
    assert t == (NAME_LABEL + d.name + ADDRESS_SEPARATOR) + d.address + (RSSI_SEPARATOR + IntToString(d.rssi));
    assert t[start..start + |d.address|] == d.address;
  }
}
