/** Moving a PCI function between its host driver and vfio-pci by writing to
    sysfs control files. The host's sysfs is observed through the writes
    made to it, in order; whether a write fails and where a symlink points
    are decided by the host. */
module VfioRebind {
  import opened VfioConfig
  import opened PathStrings

  // ----- sysfs control paths -----

  /** The unbind file of the driver currently bound to `bdf`. */
  function UnbindPath(bdf: string): string
  {
    "/sys/bus/pci/devices/" + bdf + "/driver/unbind"
  }

  /** The bind file of `driver`. */
  function BindPath(driver: string): string
  {
    "/sys/bus/pci/drivers/" + driver + "/bind"
  }

  const VfioNewIdPath: string := "/sys/bus/pci/drivers/vfio-pci/new_id"
  const VfioRemoveIdPath: string := "/sys/bus/pci/drivers/vfio-pci/remove_id"
  const VfioPciDriver: string := "vfio-pci"

  /** The symlink from `bdf` to its IOMMU group. */
  function IommuGroupPath(bdf: string): string
  {
    "/sys/bus/pci/devices/" + bdf + "/iommu_group"
  }

  /** The VFIO character device of a group. */
  function VfioDevPath(group: string): string
  {
    "/dev/vfio/" + group
  }

  /** The group device a resolved `iommu_group` link leads to is named after
      the link's last segment. */
  lemma VfioDevPathOfGroupLink(groupsDir: string, group: string)
    requires '/' !in group
    ensures VfioDevPath(Base(PathJoin(groupsDir, group))) == "/dev/vfio/" + group
  {
    BaseOfJoin(groupsDir, group);
  }

  // ----- the host's sysfs -----

  datatype Write = Write(path: string, content: string)

  class HostSysfs {
    var writes: seq<Write>
    /** The result of a write, from the write and its position in the log. */
    const writeOutcome: (nat, Write) -> Option<Error>
    /** Where a symlink points, or why it cannot be read. */
    const readlink: string -> (string, Option<Error>)

    constructor (writeOutcome: (nat, Write) -> Option<Error>, readlink: string -> (string, Option<Error>))
      ensures writes == [] && this.writeOutcome == writeOutcome && this.readlink == readlink
    {
      writes := [];
      this.writeOutcome := writeOutcome;
      this.readlink := readlink;
    }

    method WriteToFile(path: string, content: string) returns (err: Option<Error>)
      modifies this`writes
      ensures writes == old(writes) + [Write(path, content)]
      ensures err == writeOutcome(|old(writes)|, Write(path, content))
    {
      err := writeOutcome(|writes|, Write(path, content));
      writes := writes + [Write(path, content)];
    }

    method Readlink(path: string) returns (target: string, err: Option<Error>)
      ensures (target, err) == readlink(path)
    {
      target, err := readlink(path).0, readlink(path).1;
    }
  }

  /** The writes that hand `bdf` to vfio-pci, in order: release it from its
      driver, register its vendor:device ID with vfio-pci, bind it. */
  function ClaimWrites(bdf: string, vendorDeviceID: string): seq<Write>
  {
    [Write(UnbindPath(bdf), bdf), Write(VfioNewIdPath, vendorDeviceID), Write(BindPath(VfioPciDriver), bdf)]
  }

  /** The writes that give `bdf` back to `hostDriver`, in order: release it
      from vfio-pci, withdraw its ID from vfio-pci, bind it to the host driver. */
  function ReleaseWrites(bdf: string, hostDriver: string, vendorDeviceID: string): seq<Write>
  {
    [Write(UnbindPath(bdf), bdf), Write(VfioRemoveIdPath, vendorDeviceID), Write(BindPath(hostDriver), bdf)]
  }

  /** Binds `bdf` to vfio-pci and returns the VFIO device node of its group.
      The writes made are a prefix of `ClaimWrites`: a failed unbind or
      new_id write ends it with that error, the bind write's failure is
      ignored, and the group link decides the result. `hostDriver` plays no
      part. */
  method BindDevicetoVFIO(sys: HostSysfs, bdf: string, hostDriver: string, vendorDeviceID: string)
    returns (node: string, err: Option<Error>)
    modifies sys`writes
    ensures |old(sys.writes)| < |sys.writes| <= |old(sys.writes)| + 3
    ensures sys.writes == old(sys.writes) + ClaimWrites(bdf, vendorDeviceID)[..|sys.writes| - |old(sys.writes)|]
    // every write before the last one made succeeded
    ensures forall k :: |old(sys.writes)| <= k < |sys.writes| - 1 ==> sys.writeOutcome(k, sys.writes[k]) == None
    // stopping early means the last write failed, and its error is returned
    ensures |sys.writes| < |old(sys.writes)| + 3 ==>
      && err == sys.writeOutcome(|sys.writes| - 1, sys.writes[|sys.writes| - 1])
      && err.Some? && node == ""
    // all three writes made: the outcome is the group link's
    ensures |sys.writes| == |old(sys.writes)| + 3 ==>
      var (link, linkErr) := sys.readlink(IommuGroupPath(bdf));
      if linkErr.Some? then node == "" && err == linkErr
      else node == VfioDevPath(Base(link)) && err == None
  {
    var unbindDriverPath := UnbindPath(bdf);
    err := sys.WriteToFile(unbindDriverPath, bdf);
    if err.Some? {
      return "", err;
    }

    err := sys.WriteToFile(VfioNewIdPath, vendorDeviceID);
    if err.Some? {
      return "", err;
    }

    var bindDriverPath := BindPath(VfioPciDriver);
    var _ := sys.WriteToFile(bindDriverPath, bdf);

    var groupPath;
    groupPath, err := sys.Readlink(IommuGroupPath(bdf));
    if err.Some? {
      return "", err;
    }
    return VfioDevPath(Base(groupPath)), None;
  }

  /** Binds `bdf` back to `hostDriver`. The writes made are a prefix of
      `ReleaseWrites` that stops at the first failure; the result is the
      error of the last write made. */
  method BindDevicetoHost(sys: HostSysfs, bdf: string, hostDriver: string, vendorDeviceID: string)
    returns (err: Option<Error>)
    modifies sys`writes
    ensures |old(sys.writes)| < |sys.writes| <= |old(sys.writes)| + 3
    ensures sys.writes == old(sys.writes) + ReleaseWrites(bdf, hostDriver, vendorDeviceID)[..|sys.writes| - |old(sys.writes)|]
    // every write before the last one made succeeded
    ensures forall k :: |old(sys.writes)| <= k < |sys.writes| - 1 ==> sys.writeOutcome(k, sys.writes[k]) == None
    // the result is the last write's
    ensures err == sys.writeOutcome(|sys.writes| - 1, sys.writes[|sys.writes| - 1])
    // success means all three writes were made
    ensures err == None ==> |sys.writes| == |old(sys.writes)| + 3
  {
    var unbindDriverPath := UnbindPath(bdf);
    err := sys.WriteToFile(unbindDriverPath, bdf);
    if err.Some? {
      return err;
    }

    err := sys.WriteToFile(VfioRemoveIdPath, vendorDeviceID);
    if err.Some? {
      return err;
    }

    var bindDriverPath := BindPath(hostDriver);
    err := sys.WriteToFile(bindDriverPath, bdf);
  }
}
