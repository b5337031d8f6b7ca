/**
 * The HyperV systems driver: dispatch on the VM's hardware generation, boot
 * mode, NIC inventory, and the VM whose boot order the set operations persist.
 */
module HyperVDriver {
  import opened Wrappers
  import opened Errors
  import opened BootGen1
  import opened BootGen2

  /** Hardware generation reported for a VM; the hypervisor may report a value other than 1 and 2. */
  datatype Generation = Gen1 | Gen2 | OtherGeneration(code: int)

  /** get_boot_mode: UEFI exactly for generation 2, Legacy for every other generation. */
  function GetBootMode(gen: Generation): (mode: string)
    ensures mode == "UEFI" <==> gen == Gen2
    ensures mode == "UEFI" || mode == "Legacy"
  {
    if gen == Gen2 then "UEFI" else "Legacy"
  }

  /**
   * The two generation tests differ: a generation that is neither 1 nor 2 gets
   * the generation-2 boot-device logic but reports Legacy boot mode.
   */
  lemma {:induction false} OtherGenerationMixesPaths(gen: Generation, bootOrder: seq<BootDevice>,
                                                     bootSourceOrder: seq<Device>, classify: Classifier)
    requires gen.OtherGeneration?
    ensures GetBootDevice(gen, bootOrder, bootSourceOrder, classify) == GetBootDeviceGen2(bootSourceOrder, classify)
    ensures GetBootMode(gen) == "Legacy"
  {
  }

  /**
   * get_boot_device: the boot source of a VM with the given generation, read
   * from its generation-1 BootOrder or its generation-2 BootSourceOrder.
   */
  function GetBootDevice(gen: Generation, bootOrder: seq<BootDevice>, bootSourceOrder: seq<Device>,
                         classify: Classifier): (r: Result<Option<string>, Exception>)
    ensures gen == Gen1 ==>
      (r.Success? <==> GetBootDeviceGen1(bootOrder).Success?) &&
      (r.Success? ==> r.value == Some(GetBootDeviceGen1(bootOrder).value)) &&
      (r.Failure? ==> r.error == GetBootDeviceGen1(bootOrder).error)
    ensures gen != Gen1 ==> r == GetBootDeviceGen2(bootSourceOrder, classify)
    ensures r.Success? && r.value.Some? ==> r.value.value in {"Pxe", "Hdd", "Cd"}
  {
    if gen == Gen1 then
      match GetBootDeviceGen1(bootOrder)
      case Success(name) =>
        assert name in BootOrderMap;
        Success(Some(name))
      case Failure(e) => Failure(e)
    else
      GetBootDeviceGen2(bootSourceOrder, classify)
  }

  /** A network adapter as the hypervisor lists it. */
  datatype VmNic = VmNic(elementName: string, address: string)

  /** A NIC as the driver reports it: {"id": ..., "mac": ...}. */
  datatype NicInfo = NicInfo(id: string, mac: string)

  /** get_nics: one entry per adapter, in the hypervisor's order. */
  function GetNics(nics: seq<VmNic>): (r: seq<NicInfo>)
    ensures |r| == |nics|
    ensures forall i :: 0 <= i < |nics| ==> r[i].id == nics[i].elementName && r[i].mac == nics[i].address
  {
    seq(|nics|, i requires 0 <= i < |nics| => NicInfo(nics[i].elementName, nics[i].address))
  }

  /**
   * The settings of one VM as the hypervisor stores them: its generation
   * (fixed at creation), its generation-1 BootOrder and its generation-2
   * BootSourceOrder. The set operations write the new order back here.
   */
  class VirtualMachine {
    const generation: Generation
    var bootOrder: seq<BootDevice>
    var bootSourceOrder: seq<Device>

    constructor (generation: Generation, bootOrder: seq<BootDevice>, bootSourceOrder: seq<Device>)
      ensures this.generation == generation
      ensures this.bootOrder == bootOrder && this.bootSourceOrder == bootSourceOrder
    {
      this.generation := generation;
      this.bootOrder := bootOrder;
      this.bootSourceOrder := bootSourceOrder;
    }

    /**
     * _set_boot_device_gen1: remove the token from its first position, insert
     * it at the front and persist; on ValueError nothing is persisted.
     */
    method SetBootDeviceGen1(source: string) returns (err: Option<Exception>)
      modifies this
      ensures var r := SetBootOrderGen1(old(bootOrder), source);
        && (r.Success? ==> err == None && bootOrder == r.value)
        && (r.Failure? ==> err == Some(r.error) && bootOrder == old(bootOrder))
      ensures bootSourceOrder == old(bootSourceOrder)
    {
      var order := bootOrder;
      if source !in BootOrderMap {
        return Some(ValueError);
      }
      var device := BootOrderMap[source];
      if device !in order {
        return Some(ValueError);
      }
      var i := FirstIndex(order, device);
      order := order[..i] + order[i + 1..];
      order := [device] + order;
      bootOrder := order;
      err := None;
    }

    /**
     * _set_boot_device_gen2: collect the matching devices, append every old
     * device not collected and persist; on IndexError nothing is persisted.
     */
    method SetBootDeviceGen2(source: string, classify: Classifier) returns (err: Option<Exception>)
      modifies this
      ensures var r := SetBootOrderGen2(source, old(bootSourceOrder), classify);
        && (r.Success? ==> err == None && bootSourceOrder == r.value)
        && (r.Failure? ==> err == Some(r.error) && bootSourceOrder == old(bootSourceOrder))
      ensures bootOrder == old(bootOrder)
    {
      var oldBootDevices := bootSourceOrder;
      var collected := CollectMatching(source, oldBootDevices, classify);
      if collected.Failure? {
        return Some(collected.error);
      }
      var newBootDevices := collected.value;
      newBootDevices := newBootDevices + Uncollected(oldBootDevices, newBootDevices);
      bootSourceOrder := newBootDevices;
      err := None;
    }

    /**
     * set_boot_device: the generation-1 path for generation 1, the
     * generation-2 path for every other generation. On success the boot
     * source reads back as the one set (for generation 2, when some device
     * matches and drive subtypes only sit on drive records).
     */
    method SetBootDevice(source: string, classify: Classifier) returns (err: Option<Exception>)
      modifies this
      ensures generation == Gen1 ==>
        var r := SetBootOrderGen1(old(bootOrder), source);
        && (r.Success? ==> err == None && bootOrder == r.value)
        && (r.Failure? ==> err == Some(r.error) && bootOrder == old(bootOrder))
        && bootSourceOrder == old(bootSourceOrder)
      ensures generation != Gen1 ==>
        var r := SetBootOrderGen2(source, old(bootSourceOrder), classify);
        && (r.Success? ==> err == None && bootSourceOrder == r.value)
        && (r.Failure? ==> err == Some(r.error) && bootSourceOrder == old(bootSourceOrder))
        && bootOrder == old(bootOrder)
      ensures generation == Gen1 && err.None? ==> GetBootDevice(generation, bootOrder, bootSourceOrder, classify) == Success(Some(source))
      ensures generation != Gen1 && err.None? && source in {"Pxe", "Hdd", "Cd"}
        && (forall e :: e in old(bootSourceOrder) ==> DriveConsistent(classify(e)))
        && (exists d :: d in old(bootSourceOrder) && IsMatch(source, classify(d)))
        ==> GetBootDevice(generation, bootOrder, bootSourceOrder, classify) == Success(Some(source))
    {
      if generation == Gen1 {
        ghost var before := bootOrder;
        err := SetBootDeviceGen1(source);
        if err.None? {
          GetAfterSetGen1(before, source);
        }
      } else {
        ghost var before := bootSourceOrder;
        err := SetBootDeviceGen2(source, classify);
        if err.None? && source in {"Pxe", "Hdd", "Cd"}
          && (forall e :: e in before ==> DriveConsistent(classify(e)))
          && (exists d :: d in before && IsMatch(source, classify(d)))
        {
          ghost var d :| d in before && IsMatch(source, classify(d));
          GetAfterSetGen2(source, before, classify, d);
        }
      }
    }
  }
}
