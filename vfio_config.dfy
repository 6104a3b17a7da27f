/** Types shared by the VFIO passthrough device: the records of the `config`
    package that the VFIO driver reads and writes, and the error values. */
module VfioConfig {

  datatype Option<+T> = None | Some(value: T)

  /** An error as surfaced to callers; only its message is observable. */
  datatype Error = Error(message: string)

  /** The kind of one member of an IOMMU group. `DeviceErrorType` is the
      zero value of the enumeration, so a record whose type is never set
      carries it. Integer values outside the four named constants behave
      exactly like `DeviceErrorType` everywhere in this driver and are
      folded into it. */
  datatype VfioDeviceType =
    | DeviceErrorType
    | PciDeviceNormal
    | PciDeviceMediated
    | ApDeviceMediated

  /** One physical or mediated function of an IOMMU group. `isPCIe`, `port`
      and `bus` describe where the function sits in the guest's PCIe
      topology; `bus` is the label synthesised on attach. */
  datatype VfioDev = VfioDev(
    id: string,
    vfioType: VfioDeviceType,
    bdf: string,
    sysfsDev: string,
    isPCIe: bool,
    port: string,
    bus: string)

  /** What the caller knows about a device before it is attached: a stable
      ID, the IOMMU group directory on the host and the cold-plug flag. */
  datatype DeviceInfo = DeviceInfo(id: string, hostPath: string, coldPlug: bool)

  /** The persisted form of a device. The generic part (ID, attach count,
      device info) is what the generic device saves; `vfioDevs` holds the
      group members. */
  datatype DeviceState = DeviceState(
    deviceType: string,
    id: string,
    attachCount: nat,
    info: DeviceInfo,
    vfioDevs: seq<VfioDev>)

  /** The device-kind tag of VFIO devices. */
  const DeviceVFIO: string := "vfio"

  /** Directory holding one entry per PCI function of the host. */
  const SysBusPciDevicesPath: string := "/sys/bus/pci/devices"
}
