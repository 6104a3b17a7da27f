# VFIO passthrough device of the kata-containers runtime

This project models the VFIO device driver of the kata-containers Go
runtime (`src/runtime/pkg/device/drivers/vfio.go`) and proves properties of
the model in Dafny. A VFIO device stands for one host IOMMU group that is
passed through to a VM sandbox as one unit. The model covers:

- the device object (`VfioDriver.VfioDevice`): its attach count, its list
  of group members (`VfioDevs`, whose entries may be nil), and the
  Attach, Detach, Save and Load operations;
- the shared attach-count gate of the generic device (`VfioDriver.Bump`);
- the process-wide PCIe slot registry and the bus labels that Attach
  hands out (`PcieSlots`);
- how a group member is classified and how its BDF and sysfs path are
  worked out (`VfioDetails`), on top of the Go string functions the
  driver uses (`PathStrings`);
- what survives a save and a load (`VfioPersist`);
- the two host driver rebind protocols, modelled as ordered sysfs writes
  (`VfioRebind`).

The collaborators the driver cannot see are parameters of the model:

- The device receiver (the sandbox) is a class that logs the calls made
  to it. Whether each call fails is decided by a function of the call
  and its position in the log.
- The IOMMU group resolver (`GetAllVFIODevicesFromIOMMUGroup`) is a
  function from the device info to the member list and an optional
  error.
- The device-type classifier (`GetVFIODeviceType`) and the sysfs symlink
  resolver (`GetSysfsDev`) are function parameters of `GetVFIODetails`.
- The host's sysfs is a class that logs the writes made to it. A
  write-failure function and a `readlink` function decide what the host
  answers.

Three behaviours of the code that the model keeps:

- Releasing a device back to its host driver first writes to
  `/sys/bus/pci/devices/<bdf>/driver/unbind`, the unbind file of
  whichever driver holds the device. It does not write to the vfio-pci
  driver's own unbind file.
- `VfioDevs` is assigned the resolver's output before the resolver's
  error is checked (vfio.go:68-71). A failed resolution therefore leaves
  whatever the resolver returned in place.
- After a receiver failure, the members keep their bus labels and the
  registry keeps their BDFs.

## Model

| member | source | states |
|---|---|---|
| VfioDriver.VfioDevice.constructor | src/runtime/pkg/device/drivers/vfio.go:42-49 | A new device takes its ID from the device info, is not attached and holds no members. |
| VfioDriver.Bump | src/runtime/pkg/device/drivers/vfio.go:54-60 | The attach-count gate. Attaching counts up and skips exactly when the new count is above one. Detaching from zero fails and leaves the count alone. Otherwise detaching counts down and skips exactly while the count stays above zero. |
| VfioDriver.VfioDevice.BumpAttachCount | src/runtime/pkg/device/drivers/vfio.go:54 | The device's count moves as `Bump` says, and the skip flag and error are `Bump`'s. |
| VfioDriver.VfioDevice.Attach | src/runtime/pkg/device/drivers/vfio.go:53-101 | A skipped attach (another owner already attached) only increments the count. It does not resolve the group, touch the registry or call the receiver. A resolver error is returned with the count back at 0, and the resolver's members are kept. Otherwise the members become `AllocateSlots` of the resolver's output and the registry becomes the allocation's registry. Exactly one receiver call is logged: append when cold plugged, hot-plug add with kind "vfio" otherwise. Its error is returned, and the count ends at 1 on success or back at 0 on failure. |
| VfioDriver.VfioDevice.AssignBuses | src/runtime/pkg/device/drivers/vfio.go:72-78 | The slot loop: the device's members become exactly `AllocateSlots` of the resolved members against the registry as it was, and the registry becomes the allocation's registry. |
| VfioDriver.VfioDevice.Detach | src/runtime/pkg/device/drivers/vfio.go:105-140 | Detaching an unattached device fails and changes nothing. A skipped detach (other owners remain) only decrements the count. The last owner of a cold-plugged group succeeds with no receiver call and the count at 0. The last owner of a hot-plugged group logs one hot-plug removal with kind "vfio" and returns its error, and the count is restored to 1 if the removal failed. |
| VfioDriver.AttachDetachRounds | src/runtime/pkg/device/drivers/vfio.go:53-140 | With a hot-plugged group and a receiver that accepts every call, `n` attaches followed by `n` detaches leave the count at 0. For `n > 0` they make exactly two receiver calls: one hot-plug add, then one hot-plug removal, both of kind "vfio". For `n == 0` they make none. |
| VfioDriver.DeviceReceiver.AppendDevice | src/runtime/pkg/device/drivers/vfio.go:84 | Logs one append call for the device and its members, and returns that call's outcome. |
| VfioDriver.DeviceReceiver.HotplugAddDevice | src/runtime/pkg/device/drivers/vfio.go:90 | Logs one hot-plug add call, with its kind, and returns that call's outcome. |
| VfioDriver.DeviceReceiver.HotplugRemoveDevice | src/runtime/pkg/device/drivers/vfio.go:130 | Logs one hot-plug removal call, with its kind, and returns that call's outcome. |
| VfioDriver.VfioDevice.Save | src/runtime/pkg/device/drivers/vfio.go:153-164 | The saved state carries the "vfio" type tag, the generic part (ID, attach count, info) and the non-nil members in their original order. |
| VfioDriver.VfioDevice.Load | src/runtime/pkg/device/drivers/vfio.go:167-196 | Restores the generic part from the state. Appends to the members it already holds the members `LoadRecords` rebuilds from the saved records, in order. |
| VfioPersist.Present | src/runtime/pkg/device/drivers/vfio.go:38 | The member list as the device holds it: same length, each entry a non-nil pointer to the corresponding member. |
| VfioPersist.NonNilOfPresent | src/runtime/pkg/device/drivers/vfio.go:157-162 | A list without nil entries is saved whole and in order. |
| VfioPersist.NonNilConcat | src/runtime/pkg/device/drivers/vfio.go:157-162 | Saving works entry by entry: the records of two consecutive parts of the list are the first part's records followed by the second's. |
| VfioPersist.NonNilKeeps | src/runtime/pkg/device/drivers/vfio.go:158-161 | Every non-nil entry is saved, right after the records of the entries before it, so the saved order is the list's order. |
| VfioPersist.NonNilMembers | src/runtime/pkg/device/drivers/vfio.go:157-162 | Saving never invents a record: there are no more records than entries, and each record is one of the device's members. |
| VfioPersist.LoadRecordsPrefix | src/runtime/pkg/device/drivers/vfio.go:171-195 | Load keeps exactly the longest prefix of records with a recognised type. Each kept record is restored field by field (PCI: ID, type, BDF, sysfs path; AP: ID and sysfs path only). Load stops right at the first unrecognised record and drops it and every later one. |
| VfioPersist.LoadRecordsAllRecognised | src/runtime/pkg/device/drivers/vfio.go:171-195 | When every record's type is recognised, Load rebuilds exactly one member per record. |
| VfioPersist.PciSaveLoad | src/runtime/pkg/device/drivers/vfio.go:153-196 | Saving and loading a list of PCI members gives back as many members, each with its ID, type, BDF and sysfs path. IsPCIe, port and bus are never restored. |
| VfioPersist.ApSaveLoad | src/runtime/pkg/device/drivers/vfio.go:182-186 | An AP member saved and loaded keeps only its ID and sysfs path. Its type and BDF come back at their zero values. |
| VfioPersist.PciRestoreStable | src/runtime/pkg/device/drivers/vfio.go:175-181 | A loaded PCI member keeps a recognised type, and a second save and load leaves it as it is. |
| VfioPersist.ApLostOnSecondRestore | src/runtime/pkg/device/drivers/vfio.go:182-191 | A loaded AP member carries the zero type. The next save and load therefore drops it and every member after it. |
| PcieSlots.PcieRegistry.constructor | src/runtime/pkg/device/drivers/vfio.go:74-76 | A registry holding the given port sets and port prefixes. |
| PcieSlots.AllocateSlots | src/runtime/pkg/device/drivers/vfio.go:72-78 | The slot loop as a function of the registry and the members. It places one member per input member, and the registry keeps exactly its set of ports. |
| PcieSlots.AllocationRegistry | src/runtime/pkg/device/drivers/vfio.go:76 | After allocation, every port holds its earlier BDFs plus the BDFs of the group's PCIe members on that port, and nothing else. Nothing is removed, and other ports and non-PCIe members leave a port's set as it was. |
| PcieSlots.AllocationKeepsFields | src/runtime/pkg/device/drivers/vfio.go:72-78 | Allocation changes only the bus of a member. A non-PCIe member comes out unchanged. |
| PcieSlots.AllocationBusAt | src/runtime/pkg/device/drivers/vfio.go:73-75 | A PCIe member's bus is its port's prefix followed, in decimal, by the number of distinct BDFs on the port before it: those already registered plus those of earlier group members. |
| PcieSlots.MemberRecorded | src/runtime/pkg/device/drivers/vfio.go:76 | Every PCIe member's BDF is in its port's set after allocation. |
| PcieSlots.ConsecutiveSlots | src/runtime/pkg/device/drivers/vfio.go:72-78 | Take two members on one port with no other member of that port between them. If the first brings a BDF new to the port, they get consecutive bus indices. |
| PcieSlots.SlotIndexCountsPortMembers | src/runtime/pkg/device/drivers/vfio.go:72-78 | When the members on a port bring fresh, pairwise distinct BDFs, the k-th of them (from 0) gets bus index equal to the port's size plus k. |
| PcieSlots.BusLabelInjective | src/runtime/pkg/device/drivers/vfio.go:75 | Two labels on one port are equal exactly when their indices are. |
| PcieSlots.PortBdfsBetween | src/runtime/pkg/device/drivers/vfio.go:74-76 | Between two members of a port with nothing on that port in between, the port gains exactly the first member's BDF. |
| PcieSlots.ThreeOnOnePortExample | src/runtime/pkg/device/drivers/vfio.go:72-78 | Start from empty ports "root" (prefix rp) and "switch" (prefix sw). Three distinct functions on the root port get rp0, rp1 and rp2, and a function on the switch port gets sw0. All four BDFs end up recorded on their ports. |
| PathStrings.Split | src/runtime/pkg/device/drivers/vfio.go:235 | `strings.Split` always yields at least one token. |
| PathStrings.SplitLength | src/runtime/pkg/device/drivers/vfio.go:235-236 | The number of tokens is one more than the number of separators. |
| PathStrings.JoinSplit | src/runtime/pkg/device/drivers/vfio.go:235 | Joining the tokens with the separator gives back the original string. |
| PathStrings.SplitJoin | src/runtime/pkg/device/drivers/vfio.go:235 | Splitting a join of separator-free tokens gives back the tokens. |
| PathStrings.SplitOnce | src/runtime/pkg/device/drivers/vfio.go:245 | `strings.SplitN(s, sep, 2)` yields one or two tokens. |
| PathStrings.SplitOnceAt | src/runtime/pkg/device/drivers/vfio.go:245 | Splitting once at a separator gives the separator-free text before its first occurrence and everything after it. |
| PathStrings.BaseOfJoin | src/runtime/pkg/device/drivers/vfio.go:293 | The base name of `dir/name` is `name` for a slash-free name. |
| PathStrings.Decimal | src/runtime/pkg/device/drivers/vfio.go:75 | The `%d` form of a bus index is a non-empty string of digits. |
| PathStrings.ParseDecimalOfDecimal | src/runtime/pkg/device/drivers/vfio.go:75 | Reading the `%d` form of an index back gives the index. |
| PathStrings.DecimalInjective | src/runtime/pkg/device/drivers/vfio.go:75 | Distinct indices have distinct `%d` forms. |
| VfioDetails.GetMediatedBDF | src/runtime/pkg/device/drivers/vfio.go:234-240 | The result is always slash-free: "" or a single path segment. |
| VfioDetails.MediatedBDFOfShortPath | src/runtime/pkg/device/drivers/vfio.go:236-238 | A path with fewer than four segments (fewer than three slashes) gives "". |
| VfioDetails.MediatedBDFOfPath | src/runtime/pkg/device/drivers/vfio.go:232-240 | For `<dir>/<bdf>/<leaf>`, where `dir` holds a slash, the result is `bdf`: the parent directory of the mediated instance. |
| VfioDetails.MediatedBDFIsSegment | src/runtime/pkg/device/drivers/vfio.go:234-240 | A non-empty result means the path has at least three slashes. The path is then its leading segments, a slash, the result, a slash and its base name. |
| VfioDetails.GetBDF | src/runtime/pkg/device/drivers/vfio.go:244-250 | The text after the first ':' of a PCI address, or "" when there is none. |
| VfioDetails.GetBDFWithoutColon | src/runtime/pkg/device/drivers/vfio.go:246-248 | An address without ':' gives "". |
| VfioDetails.GetBDFStripsDomain | src/runtime/pkg/device/drivers/vfio.go:242-250 | For `<domain>:<rest>` with a colon-free domain, the result is `rest`, kept whole, including any later colons. |
| VfioDetails.MediatedDeviceBDF | src/runtime/pkg/device/drivers/vfio.go:218-221 | A mediated device at `<dir>/<domain>:<rest>/<uuid>` gets the BDF `rest`: its parent function's address without the domain. |
| VfioDetails.MediatedBDFExample | src/runtime/pkg/device/drivers/vfio.go:218-221 | For `/sys/devices/pci0000:00/0000:00:02.0/<uuid>`, the mediated BDF is `0000:00:02.0` and the recorded BDF is `00:02.0`. |
| VfioDetails.GetVFIODetails | src/runtime/pkg/device/drivers/vfio.go:200-230 | The classifier is asked about the member's path in the group directory, and its type is returned. A classifier error is returned at once, with no BDF or sysfs path. A normal PCI function uses its file name as BDF and lives under `/sys/bus/pci/devices`. A mediated PCI device gets the resolved symlink and the domain-less BDF of its parent. A mediated AP device gets the resolved symlink and no BDF. Any other type is an error whose message ends with the file name. |
| VfioRebind.VfioDevPathOfGroupLink | src/runtime/pkg/device/drivers/vfio.go:288-293 | The device node of a resolved `iommu_group` link is `/dev/vfio/` followed by the link's last segment. |
| VfioRebind.HostSysfs.WriteToFile | src/runtime/pkg/device/drivers/vfio.go:263 | Logs one write and returns the host's outcome for it. |
| VfioRebind.HostSysfs.Readlink | src/runtime/pkg/device/drivers/vfio.go:288 | Returns the host's answer for the link. |
| VfioRebind.BindDevicetoVFIO | src/runtime/pkg/device/drivers/vfio.go:254-294 | Makes one to three writes, and they are a prefix of: unbind from the current driver, vfio-pci `new_id`, vfio-pci `bind`. Every write before the last one made succeeded. Stopping early means the last write failed, and its error comes back with an empty node. The outcome of the bind write is ignored. The group link then decides the result: its error, or `/dev/vfio/<last segment>`. The host driver argument plays no part. |
| VfioRebind.BindDevicetoHost | src/runtime/pkg/device/drivers/vfio.go:297-322 | Makes one to three writes, and they are a prefix of: unbind from the current driver, vfio-pci `remove_id`, bind to the host driver. The first failing write ends the sequence, and the result is always the last write's outcome. Success means all three writes were made. |

## Left out

- `src/runtime-rs/crates/resource/src/network/mod.rs` is not part of this model. It declares modules and an asynchronous network factory and holds no logic of the driver.
- The host itself is not modelled. Writing files, reading links, classifying group members (`GetVFIODeviceType`), resolving sysfs symlinks (`GetSysfsDev`) and listing an IOMMU group (`GetAllVFIODevicesFromIOMMUGroup`) are parameters that decide their own outcomes. What the kernel does after a `new_id`, `bind` or `unbind` write, such as binding a driver on its own, is not modelled.
- The receiver is not modelled beyond which method is called and whether that call fails. This covers the hypervisor's hot-plug work and the `context.Context` argument.
- Logging has no behavioural effect and is left out.
- The component has no locking. The shared registry and the attach count are modelled under sequential execution only.
- `filepath.Join` and `filepath.Base` are modelled on clean paths only: join is `dir + "/" + name` and base is the last `/` segment. Path cleaning (`..`, doubled or trailing slashes) is not modelled.
- The accessors `DeviceType` (which returns the "vfio" tag, as Save uses it) and `GetDeviceInfo` (which returns the member list) are simple reads. They have no member of their own.
- `GenericDevice.Save` and `GenericDevice.Load` are not part of this model. The generic part of the saved state is modelled as the device's ID, attach count and info.
- VfioDriver.Bump: the generic device's count is unbounded here. An overflow check that the generic device may apply at its maximum count is not modelled, so attaching never fails in the model.
- VfioDriver.VfioDevice.Attach: a port with no entry in the registry, or a nil member in the resolver's output, makes the source panic. The model requires instead that, when the resolution succeeds, every PCIe member's port is registered; a failed resolution is returned before the registry is touched and needs nothing of the ports. The resolver is modelled as returning members, never nil pointers.
- Members are values in the model, not pointers. Aliasing between the device's member list and other holders of the same member pointers is not modelled. Attach's bus updates are modelled as writes to the device's own list.
- The receiver sees the device through its ID and its member list, not as the whole device object.
