/**
 * Generation-2 boot order: a list of opaque boot-source records. Setting a
 * boot source moves every record of that kind to the front, stably; reading
 * the boot source classifies the first record.
 */
module BootGen2 {
  import opened Wrappers
  import opened Errors

  /** BootSourceType values of a boot-source record. */
  const BOOT_SOURCE_TYPE_DRIVE: int := 1
  const BOOT_SOURCE_TYPE_NETWORK: int := 2

  /** ResourceSubType of the resource a record is associated with. */
  datatype ResourceSubType = DiskDrive | DvdDrive | OtherSubType(name: string)

  /**
   * What the hypervisor's object lookups reveal about one record: its
   * BootSourceType, and the subtype of the first resource in its
   * logical-identity association, None when that association is empty.
   */
  datatype BootSourceRecord = BootSourceRecord(sourceType: int, logicalIdentity: Option<ResourceSubType>)

  /** A boot-source handle (a WMI object path). */
  type Device = string

  /** The lookup from a handle to its record. */
  type Classifier = Device -> BootSourceRecord

  /**
   * The loop of _set_boot_device_gen2 can classify the record without indexing
   * an empty association list: a network record when the source is Pxe, or
   * any record with an associated resource.
   */
  predicate Resolvable(source: string, rec: BootSourceRecord)
  {
    (source == "Pxe" && rec.sourceType == BOOT_SOURCE_TYPE_NETWORK) || rec.logicalIdentity.Some?
  }

  /** A record is collected for `source`: network for Pxe, disk for Hdd, dvd for Cd. */
  predicate IsMatch(source: string, rec: BootSourceRecord)
  {
    || (source == "Pxe" && rec.sourceType == BOOT_SOURCE_TYPE_NETWORK)
    || (source == "Hdd" && rec.logicalIdentity == Some(DiskDrive))
    || (source == "Cd" && rec.logicalIdentity == Some(DvdDrive))
  }

  /** A drive subtype is only ever associated with a drive-typed record. */
  predicate DriveConsistent(rec: BootSourceRecord)
  {
    rec.logicalIdentity == Some(DiskDrive) || rec.logicalIdentity == Some(DvdDrive) ==>
      rec.sourceType == BOOT_SOURCE_TYPE_DRIVE
  }

  predicate AllResolvable(source: string, devices: seq<Device>, classify: Classifier)
  {
    forall d :: d in devices ==> Resolvable(source, classify(d))
  }

  /**
   * The devices whose match with `source` is `want`, in their original order.
   * Select(.., true) is the matching part, Select(.., false) the rest.
   */
  function Select(source: string, devices: seq<Device>, classify: Classifier, want: bool): (r: seq<Device>)
    decreases |devices|
  {
    if devices == [] then []
    else
      var last := devices[|devices| - 1];
      Select(source, devices[..|devices| - 1], classify, want)
        + (if IsMatch(source, classify(last)) == want then [last] else [])
  }

  /** `[d for d in devices if d not in collected]` */
  function Uncollected(devices: seq<Device>, collected: seq<Device>): (r: seq<Device>)
    decreases |devices|
  {
    if devices == [] then []
    else
      var last := devices[|devices| - 1];
      Uncollected(devices[..|devices| - 1], collected) + (if last !in collected then [last] else [])
  }

  /**
   * _set_boot_device_gen2 on the value of BootSourceOrder: the collected
   * devices followed by every old device not collected, or IndexError when
   * some record cannot be classified.
   */
  function SetBootOrderGen2(source: string, devices: seq<Device>, classify: Classifier)
    : (r: Result<seq<Device>, Exception>)
    ensures r.Failure? <==> !AllResolvable(source, devices, classify)
    ensures r.Failure? ==> r.error == IndexError
  {
    if AllResolvable(source, devices, classify) then
      var collected := Select(source, devices, classify, true);
      Success(collected + Uncollected(devices, collected))
    else
      Failure(IndexError)
  }

  /** The first loop of _set_boot_device_gen2: collect the matching devices in order. */
  method CollectMatching(source: string, devices: seq<Device>, classify: Classifier)
    returns (r: Result<seq<Device>, Exception>)
    ensures AllResolvable(source, devices, classify) ==> r == Success(Select(source, devices, classify, true))
    ensures !AllResolvable(source, devices, classify) ==> r == Failure(IndexError)
  {
    var collected: seq<Device> := [];
    var i := 0;
    while i < |devices|
      invariant 0 <= i <= |devices|
      invariant AllResolvable(source, devices[..i], classify)
      invariant collected == Select(source, devices[..i], classify, true)
    {
      var device := devices[i];
      var record := classify(device);
      assert devices[..i + 1][..i] == devices[..i];
      if source == "Pxe" && record.sourceType == BOOT_SOURCE_TYPE_NETWORK {
        collected := collected + [device];
      } else {
        if record.logicalIdentity.None? {
          assert !Resolvable(source, classify(devices[i]));
          return Failure(IndexError);
        }
        var subType := record.logicalIdentity.value;
        if (source == "Hdd" && subType == DiskDrive) || (source == "Cd" && subType == DvdDrive) {
          collected := collected + [device];
        }
      }
      i := i + 1;
    }
    assert devices[..i] == devices;
    r := Success(collected);
  }

  /** The reading of the first record made by _get_boot_device_gen2. */
  function GetBootDeviceGen2(devices: seq<Device>, classify: Classifier): (r: Result<Option<string>, Exception>)
    ensures devices == [] ==> r == Success(None)
    ensures r.Success? && r.value.Some? ==> r.value.value in {"Pxe", "Hdd", "Cd"}
    ensures r.Failure? <==>
      devices != [] && classify(devices[0]).sourceType == BOOT_SOURCE_TYPE_DRIVE
      && classify(devices[0]).logicalIdentity.None?
    ensures r.Failure? ==> r.error == IndexError
    ensures devices != [] && classify(devices[0]).sourceType == BOOT_SOURCE_TYPE_NETWORK ==>
      r == Success(Some("Pxe"))
    ensures devices != [] && classify(devices[0]) == BootSourceRecord(BOOT_SOURCE_TYPE_DRIVE, Some(DiskDrive)) ==>
      r == Success(Some("Hdd"))
    ensures devices != [] && classify(devices[0]) == BootSourceRecord(BOOT_SOURCE_TYPE_DRIVE, Some(DvdDrive)) ==>
      r == Success(Some("Cd"))
    ensures forall name: string ::
      (devices != [] && classify(devices[0]) == BootSourceRecord(BOOT_SOURCE_TYPE_DRIVE, Some(OtherSubType(name))))
      ==> r == Success(None)
    ensures (devices != [] && classify(devices[0]).sourceType != BOOT_SOURCE_TYPE_NETWORK
             && classify(devices[0]).sourceType != BOOT_SOURCE_TYPE_DRIVE) ==>
      r == Success(None)
  {
    if devices == [] then Success(None)
    else
      var rec := classify(devices[0]);
      if rec.sourceType == BOOT_SOURCE_TYPE_NETWORK then Success(Some("Pxe"))
      else if rec.sourceType == BOOT_SOURCE_TYPE_DRIVE then
        match rec.logicalIdentity
        case None => Failure(IndexError)
        case Some(DiskDrive) => Success(Some("Hdd"))
        case Some(DvdDrive) => Success(Some("Cd"))
        case Some(OtherSubType(_)) => Success(None)
      else Success(None)
  }

  // ---------------------------------------------------------------- lemmas

  lemma {:induction false} SelectMembership(source: string, devices: seq<Device>, classify: Classifier, want: bool, d: Device)
    ensures d in Select(source, devices, classify, want) <==> d in devices && IsMatch(source, classify(d)) == want
    decreases |devices|
  {
    if devices != [] {
      var init := devices[..|devices| - 1];
      SelectMembership(source, init, classify, want, d);
      assert devices == init + [devices[|devices| - 1]];
    }
  }

  lemma {:induction false} SelectLength(source: string, devices: seq<Device>, classify: Classifier)
    ensures |Select(source, devices, classify, true)| + |Select(source, devices, classify, false)| == |devices|
    ensures multiset(Select(source, devices, classify, true)) + multiset(Select(source, devices, classify, false))
      == multiset(devices)
    decreases |devices|
  {
    if devices != [] {
      var init := devices[..|devices| - 1];
      SelectLength(source, init, classify);
      assert devices == init + [devices[|devices| - 1]];
    }
  }

  lemma {:induction false} SelectConcat(source: string, a: seq<Device>, b: seq<Device>, classify: Classifier, want: bool)
    ensures Select(source, a + b, classify, want)
      == Select(source, a, classify, want) + Select(source, b, classify, want)
    decreases |b|
  {
    if b == [] {
      assert a + b == a;
    } else {
      var initB := b[..|b| - 1];
      SelectConcat(source, a, initB, classify, want);
      assert (a + b)[..|a + b| - 1] == a + initB;
    }
  }

  /** A list whose every device has the wanted match is its own selection. */
  lemma {:induction false} SelectAll(source: string, devices: seq<Device>, classify: Classifier, want: bool)
    requires forall d :: d in devices ==> IsMatch(source, classify(d)) == want
    ensures Select(source, devices, classify, want) == devices
    ensures Select(source, devices, classify, !want) == []
    decreases |devices|
  {
    if devices != [] {
      var init := devices[..|devices| - 1];
      SelectAll(source, init, classify, want);
      assert devices == init + [devices[|devices| - 1]];
    }
  }

  /** The comprehension over "not yet collected" keeps exactly the devices that do not match. */
  lemma {:induction false} UncollectedIsRest(source: string, devices: seq<Device>, collected: seq<Device>, classify: Classifier)
    requires forall d :: d in devices ==> (d in collected <==> IsMatch(source, classify(d)))
    ensures Uncollected(devices, collected) == Select(source, devices, classify, false)
    decreases |devices|
  {
    if devices != [] {
      var init := devices[..|devices| - 1];
      UncollectedIsRest(source, init, collected, classify);
    }
  }

  /**
   * The second pass of _set_boot_device_gen2 is a filter of the complement:
   * a successful set gives the matching devices, then the others, each part in
   * its original order.
   */
  lemma {:induction false} SetIsStablePartition(source: string, devices: seq<Device>, classify: Classifier)
    requires AllResolvable(source, devices, classify)
    ensures SetBootOrderGen2(source, devices, classify)
      == Success(Select(source, devices, classify, true) + Select(source, devices, classify, false))
  {
    var collected := Select(source, devices, classify, true);
    forall d | d in devices
      ensures d in collected <==> IsMatch(source, classify(d))
    {
      SelectMembership(source, devices, classify, true, d);
    }
    UncollectedIsRest(source, devices, collected, classify);
  }

  /** A successful set only reorders: same length, same multiset of devices. */
  lemma {:induction false} SetPermutes(source: string, devices: seq<Device>, classify: Classifier)
    requires SetBootOrderGen2(source, devices, classify).Success?
    ensures |SetBootOrderGen2(source, devices, classify).value| == |devices|
    ensures multiset(SetBootOrderGen2(source, devices, classify).value) == multiset(devices)
  {
    SetIsStablePartition(source, devices, classify);
    SelectLength(source, devices, classify);
  }

  /** When nothing matches, the order is unchanged. */
  lemma {:induction false} SetWithoutMatchKeepsOrder(source: string, devices: seq<Device>, classify: Classifier)
    requires AllResolvable(source, devices, classify)
    requires forall d :: d in devices ==> !IsMatch(source, classify(d))
    ensures SetBootOrderGen2(source, devices, classify) == Success(devices)
  {
    SetIsStablePartition(source, devices, classify);
    SelectAll(source, devices, classify, false);
    assert Select(source, devices, classify, true) == [];
    assert [] + devices == devices;
  }

  /** When something matches, a matching device comes first. */
  lemma {:induction false} SetPutsMatchFirst(source: string, devices: seq<Device>, classify: Classifier, d: Device)
    requires AllResolvable(source, devices, classify)
    requires d in devices && IsMatch(source, classify(d))
    ensures var r := SetBootOrderGen2(source, devices, classify).value;
      r != [] && IsMatch(source, classify(r[0]))
  {
    SetIsStablePartition(source, devices, classify);
    var m := Select(source, devices, classify, true);
    SelectMembership(source, devices, classify, true, d);
    assert m != [];
    SelectMembership(source, devices, classify, true, m[0]);
  }

  /** Every device of a selection has the wanted match. */
  lemma SelectSound(source: string, devices: seq<Device>, classify: Classifier, want: bool)
    ensures forall d :: d in Select(source, devices, classify, want) ==> IsMatch(source, classify(d)) == want
  {
    forall d | d in Select(source, devices, classify, want) ensures IsMatch(source, classify(d)) == want {
      SelectMembership(source, devices, classify, want, d);
    }
  }

  /** Setting the same boot source twice is the same as setting it once. */
  lemma {:induction false} SetIdempotent(source: string, devices: seq<Device>, classify: Classifier)
    requires SetBootOrderGen2(source, devices, classify).Success?
    ensures var r := SetBootOrderGen2(source, devices, classify).value;
      SetBootOrderGen2(source, r, classify) == Success(r)
  {
    SetIsStablePartition(source, devices, classify);
    var m := Select(source, devices, classify, true);
    var o := Select(source, devices, classify, false);
    var r := m + o;
    assert AllResolvable(source, r, classify) by {
      forall d | d in r ensures Resolvable(source, classify(d)) {
        SelectMembership(source, devices, classify, true, d);
        SelectMembership(source, devices, classify, false, d);
      }
    }
    SelectSound(source, devices, classify, true);
    SelectSound(source, devices, classify, false);
    assert Select(source, r, classify, true) == m by {
      SelectConcat(source, m, o, classify, true);
      SelectAll(source, m, classify, true);
      SelectAll(source, o, classify, false);
      assert m + [] == m;
    }
    assert Select(source, r, classify, false) == o by {
      SelectConcat(source, m, o, classify, false);
      SelectAll(source, m, classify, true);
      SelectAll(source, o, classify, false);
      assert [] + o == o;
    }
    SetIsStablePartition(source, r, classify);
  }

  /**
   * Reading and setting classify records by the same rule: for a record whose
   * drive subtype implies a drive type, the read gives `source` exactly when
   * set would collect the record for `source`.
   */
  lemma {:induction false} GetAgreesWithMatch(source: string, devices: seq<Device>, classify: Classifier)
    requires devices != [] && DriveConsistent(classify(devices[0]))
    requires source in {"Pxe", "Hdd", "Cd"}
    ensures GetBootDeviceGen2(devices, classify) == Success(Some(source)) <==> IsMatch(source, classify(devices[0]))
  {
  }

  /** A successful set for a source some device matches is read back as that source. */
  lemma {:induction false} GetAfterSetGen2(source: string, devices: seq<Device>, classify: Classifier, d: Device)
    requires source in {"Pxe", "Hdd", "Cd"}
    requires AllResolvable(source, devices, classify)
    requires forall e :: e in devices ==> DriveConsistent(classify(e))
    requires d in devices && IsMatch(source, classify(d))
    ensures GetBootDeviceGen2(SetBootOrderGen2(source, devices, classify).value, classify) == Success(Some(source))
  {
    SetPutsMatchFirst(source, devices, classify, d);
    SetPermutes(source, devices, classify);
    var r := SetBootOrderGen2(source, devices, classify).value;
    assert r[0] in multiset(devices);
    GetAgreesWithMatch(source, r, classify);
  }
}
