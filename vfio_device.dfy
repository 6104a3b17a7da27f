/** The VFIO passthrough device: an IOMMU group attached to and detached
    from a VM sandbox as one unit, guarded by a shared attach count, and
    saved and restored across runtime restarts. */
module VfioDriver {
  import opened VfioConfig
  import opened PcieSlots
  import opened VfioPersist

  // ----- the device receiver (the VM sandbox) -----

  /** One call made to the device receiver, with the device's ID and its
      group members as the receiver sees them. */
  datatype ReceiverCall =
    | AppendCall(deviceId: string, devs: seq<Option<VfioDev>>)
    | HotplugAddCall(deviceId: string, devs: seq<Option<VfioDev>>, kind: string)
    | HotplugRemoveCall(deviceId: string, devs: seq<Option<VfioDev>>, kind: string)

  /** The receiver, observed through the calls made to it. Whether a call
      fails is decided by `outcome`, from the call and its position in the
      log. */
  class DeviceReceiver {
    var calls: seq<ReceiverCall>
    const outcome: (nat, ReceiverCall) -> Option<Error>

    constructor (outcome: (nat, ReceiverCall) -> Option<Error>)
      ensures calls == [] && this.outcome == outcome
    {
      calls := [];
      this.outcome := outcome;
    }

    /** Registers the device to be present when the VM boots. */
    method AppendDevice(deviceId: string, devs: seq<Option<VfioDev>>) returns (err: Option<Error>)
      modifies this`calls
      ensures calls == old(calls) + [AppendCall(deviceId, devs)]
      ensures err == outcome(|old(calls)|, AppendCall(deviceId, devs))
    {
      err := outcome(|calls|, AppendCall(deviceId, devs));
      calls := calls + [AppendCall(deviceId, devs)];
    }

    /** Adds the device to the running VM. */
    method HotplugAddDevice(deviceId: string, devs: seq<Option<VfioDev>>, kind: string) returns (err: Option<Error>)
      modifies this`calls
      ensures calls == old(calls) + [HotplugAddCall(deviceId, devs, kind)]
      ensures err == outcome(|old(calls)|, HotplugAddCall(deviceId, devs, kind))
    {
      err := outcome(|calls|, HotplugAddCall(deviceId, devs, kind));
      calls := calls + [HotplugAddCall(deviceId, devs, kind)];
    }

    /** Removes the device from the running VM. */
    method HotplugRemoveDevice(deviceId: string, devs: seq<Option<VfioDev>>, kind: string) returns (err: Option<Error>)
      modifies this`calls
      ensures calls == old(calls) + [HotplugRemoveCall(deviceId, devs, kind)]
      ensures err == outcome(|old(calls)|, HotplugRemoveCall(deviceId, devs, kind))
    {
      err := outcome(|calls|, HotplugRemoveCall(deviceId, devs, kind));
      calls := calls + [HotplugRemoveCall(deviceId, devs, kind)];
    }
  }

  // ----- the attach-count gate of the generic device -----

  datatype BumpResult = BumpResult(count: nat, skip: bool, err: Option<Error>)

  const NotAttachedMessage: string := "detaching a device that wasn't attached"

  /** One step of the attach count. Attaching always counts up and is real
      only for the first owner; detaching counts down and is real only for
      the last owner; detaching an unattached device fails and leaves the
      count alone. */
  function Bump(count: nat, attach: bool): (r: BumpResult)
    ensures attach ==> r.err == None && r.count == count + 1 && (r.skip <==> r.count > 1)
    ensures !attach && count == 0 ==> r.err.Some? && r.count == count
    ensures !attach && count > 0 ==> r.err == None && r.count == count - 1 && (r.skip <==> r.count > 0)
  {
    if attach then
      if count == 0 then BumpResult(1, false, None) else BumpResult(count + 1, true, None)
    else if count == 0 then BumpResult(count, true, Some(Error(NotAttachedMessage)))
    else if count == 1 then BumpResult(0, false, None)
    else BumpResult(count - 1, true, None)
  }

  // ----- the device -----

  class VfioDevice {
    var id: string
    var info: DeviceInfo
    var attachCount: nat
    var vfioDevs: seq<Option<VfioDev>>

    /** A device for `info`, not attached, with no members resolved yet. */
    constructor (info: DeviceInfo)
      ensures id == info.id && this.info == info
      ensures attachCount == 0 && vfioDevs == []
    {
      id := info.id;
      this.info := info;
      attachCount := 0;
      vfioDevs := [];
    }

    method BumpAttachCount(attach: bool) returns (skip: bool, err: Option<Error>)
      modifies this`attachCount
      ensures attachCount == Bump(old(attachCount), attach).count
      ensures skip == Bump(old(attachCount), attach).skip && err == Bump(old(attachCount), attach).err
    {
      var r := Bump(attachCount, attach);
      attachCount := r.count;
      skip, err := r.skip, r.err;
    }

    /** Attaches the group to the sandbox through `receiver`. Only the first
        owner does real work: resolving the group with `resolve`, placing its
        PCIe members in `registry`, then appending it (cold plug) or hot
        plugging it. Any failure after the count went up brings the count
        back down; placements already made stay in the registry. */
    method Attach(registry: PcieRegistry, receiver: DeviceReceiver, resolve: DeviceInfo -> (seq<VfioDev>, Option<Error>))
      returns (err: Option<Error>)
      requires attachCount == 0 && resolve(info).1.None? ==> PortsRegistered(registry.devices, resolve(info).0)
      modifies this`attachCount, this`vfioDevs, registry`devices, receiver`calls
      // another owner already attached the group: only the count moves
      ensures old(attachCount) > 0 ==>
        && err == None && attachCount == old(attachCount) + 1
        && vfioDevs == old(vfioDevs) && registry.devices == old(registry.devices) && receiver.calls == old(receiver.calls)
      // the group could not be resolved: what the resolver gave is kept, the count is restored
      ensures old(attachCount) == 0 && resolve(info).1.Some? ==>
        && err == resolve(info).1 && attachCount == 0
        && vfioDevs == Present(resolve(info).0)
        && registry.devices == old(registry.devices) && receiver.calls == old(receiver.calls)
      // the group was resolved: members placed, one receiver call, count restored if it failed
      ensures old(attachCount) == 0 && resolve(info).1.None? ==>
        var (placed, reg) := AllocateSlots(old(registry.devices), registry.prefixes, resolve(info).0);
        var call := if info.coldPlug then AppendCall(id, Present(placed)) else HotplugAddCall(id, Present(placed), DeviceVFIO);
        && vfioDevs == Present(placed) && registry.devices == reg
        && receiver.calls == old(receiver.calls) + [call]
        && err == receiver.outcome(|old(receiver.calls)|, call)
        && attachCount == (if err == None then 1 else 0)
    {
      var skip, bumpErr := BumpAttachCount(true);
      if bumpErr.Some? {
        return bumpErr;
      }
      if skip {
        return None;
      }

      var (devs, resolveErr) := resolve(info);
      vfioDevs := Present(devs);
      if resolveErr.Some? {
        var _, _ := BumpAttachCount(false);
        return resolveErr;
      }

      AssignBuses(registry, devs);

      if info.coldPlug {
        err := receiver.AppendDevice(id, vfioDevs);
      } else {
        err := receiver.HotplugAddDevice(id, vfioDevs, DeviceVFIO);
      }
      if err.Some? {
        var _, _ := BumpAttachCount(false);
      }
    }

    /** The slot loop of Attach: each PCIe member, in order, gets the next
        bus label of its port and its BDF joins the port's set. */
    method AssignBuses(registry: PcieRegistry, devs: seq<VfioDev>)
      requires vfioDevs == Present(devs) && PortsRegistered(registry.devices, devs)
      modifies this`vfioDevs, registry`devices
      ensures vfioDevs == Present(AllocateSlots(old(registry.devices), registry.prefixes, devs).0)
      ensures registry.devices == AllocateSlots(old(registry.devices), registry.prefixes, devs).1
    {
      ghost var target := AllocateSlots(registry.devices, registry.prefixes, devs);
      var i := 0;
      while i < |vfioDevs|
        invariant |vfioDevs| == |devs| && 0 <= i <= |devs|
        invariant PortsRegistered(registry.devices, devs[i..])
        invariant AllocateSlots(registry.devices, registry.prefixes, devs[i..]).0 == target.0[i..]
        invariant AllocateSlots(registry.devices, registry.prefixes, devs[i..]).1 == target.1
        invariant forall k :: 0 <= k < i ==> vfioDevs[k] == Some(target.0[k])
        invariant forall k :: i <= k < |devs| ==> vfioDevs[k] == Some(devs[k])
      {
        var vfio := vfioDevs[i].value;
        assert devs[i..][0] == vfio && devs[i..][1..] == devs[i + 1..];
        if vfio.isPCIe {
          var busIndex := |registry.devices[vfio.port]|;
          vfioDevs := vfioDevs[i := Some(vfio.(bus := BusLabel(registry.prefixes, vfio.port, busIndex)))];
          registry.devices := registry.devices[vfio.port := registry.devices[vfio.port] + {vfio.bdf}];
        }
        i := i + 1;
      }
      assert vfioDevs == Present(target.0);
      assert devs[i..] == [];
    }

    /** Detaches the group. Only the last owner does real work: a cold
        plugged group leaves with the VM and needs no call; a hot plugged
        one is removed through `receiver`, and if that fails the count goes
        back up. */
    method Detach(receiver: DeviceReceiver) returns (err: Option<Error>)
      modifies this`attachCount, receiver`calls
      // detaching an unattached device fails and changes nothing
      ensures old(attachCount) == 0 ==>
        err.Some? && attachCount == 0 && receiver.calls == old(receiver.calls)
      // other owners remain: only the count moves
      ensures old(attachCount) > 1 ==>
        err == None && attachCount == old(attachCount) - 1 && receiver.calls == old(receiver.calls)
      // the last owner of a cold plugged group: nothing to remove
      ensures old(attachCount) == 1 && info.coldPlug ==>
        err == None && attachCount == 0 && receiver.calls == old(receiver.calls)
      // the last owner of a hot plugged group: one removal, count restored if it failed
      ensures old(attachCount) == 1 && !info.coldPlug ==>
        var call := HotplugRemoveCall(id, vfioDevs, DeviceVFIO);
        && receiver.calls == old(receiver.calls) + [call]
        && err == receiver.outcome(|old(receiver.calls)|, call)
        && attachCount == (if err == None then 0 else 1)
    {
      var skip, bumpErr := BumpAttachCount(false);
      if bumpErr.Some? {
        return bumpErr;
      }
      if skip {
        return None;
      }
      if info.coldPlug {
        return None;
      }
      err := receiver.HotplugRemoveDevice(id, vfioDevs, DeviceVFIO);
      if err.Some? {
        var _, _ := BumpAttachCount(true);
      }
    }

    /** The persisted form: the generic part, the VFIO tag and the non-nil
        members in order. */
    method Save() returns (ds: DeviceState)
      ensures ds == DeviceState(DeviceVFIO, id, attachCount, info, NonNil(vfioDevs))
    {
      var saved: seq<VfioDev> := [];
      var i := 0;
      while i < |vfioDevs|
        invariant 0 <= i <= |vfioDevs|
        invariant saved == NonNil(vfioDevs[..i])
      {
        assert vfioDevs[..i + 1][..i] == vfioDevs[..i];
        if vfioDevs[i].Some? {
          saved := saved + [vfioDevs[i].value];
        }
        i := i + 1;
      }
      assert vfioDevs[..i] == vfioDevs;
      ds := DeviceState(DeviceVFIO, id, attachCount, info, saved);
    }

    /** Restores the generic part from `ds` and appends the members rebuilt
        from its records to the ones already held. */
    method Load(ds: DeviceState)
      modifies this
      ensures id == ds.id && attachCount == ds.attachCount && info == ds.info
      ensures vfioDevs == old(vfioDevs) + Present(LoadRecords(ds.vfioDevs))
    {
      id, attachCount, info := ds.id, ds.attachCount, ds.info;
      var recs := ds.vfioDevs;
      LoadRecordsPrefix(recs);
      var i := 0;
      while i < |recs|
        invariant 0 <= i <= |recs|
        invariant id == ds.id && attachCount == ds.attachCount && info == ds.info
        invariant forall k :: 0 <= k < i ==> Recognised(recs[k].vfioType)
        invariant vfioDevs == old(vfioDevs) + Present(LoadRecords(recs)[..i])
      {
        var dev := recs[i];
        var vfio: VfioDev;
        match dev.vfioType {
          case PciDeviceNormal =>
            vfio := VfioDev(dev.id, dev.vfioType, dev.bdf, dev.sysfsDev, false, "", "");
          case PciDeviceMediated =>
            vfio := VfioDev(dev.id, dev.vfioType, dev.bdf, dev.sysfsDev, false, "", "");
          case ApDeviceMediated =>
            vfio := VfioDev(dev.id, DeviceErrorType, "", dev.sysfsDev, false, "", "");
          case DeviceErrorType =>
            assert LoadRecords(recs)[..i] == LoadRecords(recs);
            return;
        }
        assert LoadRecords(recs)[..i + 1] == LoadRecords(recs)[..i] + [vfio];
        vfioDevs := vfioDevs + [Some(vfio)];
        i := i + 1;
      }
      assert LoadRecords(recs)[..i] == LoadRecords(recs);
    }
  }

  /** `n` owners attach a hot-plugged group and then all detach, with a
      receiver that accepts every call: only the first attach adds the
      group and only the last detach removes it, and the count ends at 0. */
  method AttachDetachRounds(
    dev: VfioDevice, registry: PcieRegistry, receiver: DeviceReceiver,
    resolve: DeviceInfo -> (seq<VfioDev>, Option<Error>), n: nat)
    requires dev.attachCount == 0 && !dev.info.coldPlug
    requires resolve(dev.info).1.None? && PortsRegistered(registry.devices, resolve(dev.info).0)
    requires forall k, call :: receiver.outcome(k, call) == None
    modifies dev`attachCount, dev`vfioDevs, registry`devices, receiver`calls
    ensures dev.attachCount == 0
    ensures n == 0 ==> receiver.calls == old(receiver.calls)
    ensures n > 0 ==> receiver.calls == old(receiver.calls) + [
      HotplugAddCall(dev.id, dev.vfioDevs, DeviceVFIO),
      HotplugRemoveCall(dev.id, dev.vfioDevs, DeviceVFIO)]
  {
    var i := 0;
    while i < n
      invariant 0 <= i <= n && dev.attachCount == i
      invariant i == 0 ==> receiver.calls == old(receiver.calls) && registry.devices == old(registry.devices)
      invariant i > 0 ==> receiver.calls == old(receiver.calls) + [HotplugAddCall(dev.id, dev.vfioDevs, DeviceVFIO)]
    {
      var err := dev.Attach(registry, receiver, resolve);
      i := i + 1;
    }
    while i > 0
      invariant 0 <= i <= n && dev.attachCount == i
      invariant n == 0 ==> receiver.calls == old(receiver.calls)
      invariant n > 0 && i > 0 ==> receiver.calls == old(receiver.calls) + [HotplugAddCall(dev.id, dev.vfioDevs, DeviceVFIO)]
      invariant n > 0 && i == 0 ==> receiver.calls == old(receiver.calls) + [
        HotplugAddCall(dev.id, dev.vfioDevs, DeviceVFIO),
        HotplugRemoveCall(dev.id, dev.vfioDevs, DeviceVFIO)]
    {
      var err := dev.Detach(receiver);
      i := i - 1;
    }
  }
}
