/** Classification of one member of an IOMMU group and resolution of its
    BDF and sysfs path. The device-type classifier and the sysfs symlink
    resolver are host queries; they are parameters here. */
module VfioDetails {
  import opened VfioConfig
  import opened PathStrings

  /** The BDF of the function behind a mediated device: the second-to-last
      `/` segment of its resolved sysfs path, or "" when the path has fewer
      than four segments. */
  function GetMediatedBDF(deviceSysfsDev: string): (bdf: string)
    ensures '/' !in bdf
  {
    var tokens := Split(deviceSysfsDev, '/');
    SplitTokensFree(deviceSysfsDev, '/');
    if |tokens| < 4 then "" else tokens[|tokens| - 2]
  }

  /** The part of a PCI address after its first `:` (the address without
      its domain), or "" when there is no `:`. */
  function GetBDF(deviceSysStr: string): (bdf: string)
  {
    var tokens := SplitOnce(deviceSysStr, ':');
    if |tokens| == 1 then "" else tokens[1]
  }

  /** A path with fewer than three slashes names no mediated BDF. */
  lemma MediatedBDFOfShortPath(p: string)
    requires Occurrences(p, '/') < 3
    ensures GetMediatedBDF(p) == ""
  {
    SplitLength(p, '/');
  }

  /** A path `<dir>/<bdf>/<leaf>` whose `dir` holds at least one slash
      names `bdf`: the parent directory of the mediated instance. */
  lemma MediatedBDFOfPath(dir: string, bdf: string, leaf: string)
    requires '/' in dir && '/' !in bdf && '/' !in leaf
    ensures GetMediatedBDF(dir + "/" + bdf + "/" + leaf) == bdf
  {
    var p := dir + "/" + bdf + "/" + leaf;
    assert p == dir + ['/'] + (bdf + ['/'] + leaf);
    SplitConcat(dir, bdf + ['/'] + leaf, '/');
    SplitConcat(bdf, leaf, '/');
    SplitFree(bdf, '/');
    SplitFree(leaf, '/');
    OccurrencesPositive(dir, '/');
    SplitLength(dir, '/');
  }

  /** Every non-empty result is a slash-free segment that sits between the
      last two slashes of the path: the path is its leading segments, then
      the result and the base name. */
  lemma MediatedBDFIsSegment(p: string)
    requires GetMediatedBDF(p) != ""
    ensures Occurrences(p, '/') >= 3
    ensures var tokens := Split(p, '/');
      var n := |tokens|;
      && p == JoinWith(tokens[..n - 2], '/') + "/" + JoinWith(tokens[n - 2..], '/')
      && JoinWith(tokens[n - 2..], '/') == GetMediatedBDF(p) + "/" + Base(p)
  {
    var tokens := Split(p, '/');
    var n := |tokens|;
    SplitLength(p, '/');
    JoinSplit(p, '/');
    JoinSuffix(tokens, n - 2, '/');
    var last2 := tokens[n - 2..];
    assert |last2| == 2 && last2[0] == tokens[n - 2] && last2[1..] == [tokens[n - 1]];
  }

  /** Splitting a join `n` tokens in: the first `n` tokens, a separator, and the rest. */
  lemma {:induction false} JoinSuffix(tokens: seq<string>, n: nat, c: char)
    requires 1 <= n < |tokens|
    ensures JoinWith(tokens, c) == JoinWith(tokens[..n], c) + [c] + JoinWith(tokens[n..], c)
  {
    if n > 1 {
      JoinSuffix(tokens[1..], n - 1, c);
      assert tokens[1..][..n - 1] == tokens[..n][1..];
      assert tokens[1..][n - 1..] == tokens[n..];
    }
  }

  lemma {:induction false} OccurrencesPositive(s: string, c: char)
    requires c in s
    ensures Occurrences(s, c) >= 1
  {
    if s[0] != c {
      assert c in s[1..] by { var j :| 0 <= j < |s| && s[j] == c; assert s[1..][j - 1] == c; }
      OccurrencesPositive(s[1..], c);
    }
  }

  /** Without a `:` there is no BDF. */
  lemma GetBDFWithoutColon(s: string)
    requires ':' !in s
    ensures GetBDF(s) == ""
  {
  }

  /** The domain, up to the first `:`, is stripped; the rest is kept whole. */
  lemma GetBDFStripsDomain(domain: string, rest: string)
    requires ':' !in domain
    ensures GetBDF(domain + ":" + rest) == rest
  {
    SplitOnceAt(domain, rest, ':');
  }

  /** For a mediated device at `<dir>/<domain>:<rest>/<uuid>` the recorded BDF
      is `rest`: the parent function's address without its domain. */
  lemma MediatedDeviceBDF(dir: string, domain: string, rest: string, uuid: string)
    requires '/' in dir && '/' !in domain && '/' !in rest && '/' !in uuid && ':' !in domain
    ensures GetBDF(GetMediatedBDF(dir + "/" + domain + ":" + rest + "/" + uuid)) == rest
  {
    assert '/' !in domain + ":" + rest;
    assert dir + "/" + domain + ":" + rest + "/" + uuid == dir + "/" + (domain + ":" + rest) + "/" + uuid;
    MediatedBDFOfPath(dir, domain + ":" + rest, uuid);
    GetBDFStripsDomain(domain, rest);
  }

  /** The example given beside the mediated branch of `GetVFIODetails`:
      an Intel GVT-g instance under function 0000:00:02.0. */
  const ExampleParent: string := "/sys/devices/pci0000:00"
  const ExampleFunction: string := "0000:00:02.0"
  const ExampleInstance: string := "f79944e4-5a3d-11e8-99ce-479cbab002e4"

  lemma MediatedBDFExample()
    ensures GetMediatedBDF(ExampleParent + "/" + ExampleFunction + "/" + ExampleInstance) == ExampleFunction
    ensures GetBDF(GetMediatedBDF(ExampleParent + "/" + ExampleFunction + "/" + ExampleInstance)) == "00:02.0"
  {
    MediatedBDFOfPath(ExampleParent, ExampleFunction, ExampleInstance);
    assert ExampleFunction == "0000" + ":" + "00:02.0";
    GetBDFStripsDomain("0000", "00:02.0");
  }

  /** What `GetVFIODetails` returns: the BDF, the sysfs path, the type the
      classifier reported and the error, if any. */
  datatype Details = Details(bdf: string, sysfsDev: string, vfioType: VfioDeviceType, err: Option<Error>)

  const IncorrectTokensMessage: string := "Incorrect tokens found while parsing vfio details: "

  /** Classifies `deviceFileName` inside the group directory
      `iommuDevicesPath` with `classify` and resolves its BDF and sysfs
      path; `sysfsDevOf` resolves a mediated device's sysfs symlink. */
  function GetVFIODetails(
    deviceFileName: string,
    iommuDevicesPath: string,
    classify: string -> (VfioDeviceType, Option<Error>),
    sysfsDevOf: string -> (string, Option<Error>)): (r: Details)
    // the classifier is asked about the member's path in the group directory
    ensures r.vfioType == classify(PathJoin(iommuDevicesPath, deviceFileName)).0
    // a classifier error is returned at once, with nothing resolved
    ensures classify(PathJoin(iommuDevicesPath, deviceFileName)).1.Some? ==>
      r.err == classify(PathJoin(iommuDevicesPath, deviceFileName)).1 && r.bdf == "" && r.sysfsDev == ""
    // a normal PCI function: its file name is its full address, and it lives under the PCI devices directory
    ensures classify(PathJoin(iommuDevicesPath, deviceFileName)) == (PciDeviceNormal, None) ==>
      r == Details(deviceFileName, PathJoin(SysBusPciDevicesPath, deviceFileName), PciDeviceNormal, None)
    // a mediated PCI device: the resolved symlink, and the domain-less BDF of its parent function
    ensures classify(PathJoin(iommuDevicesPath, deviceFileName)) == (PciDeviceMediated, None) ==>
      (r.sysfsDev, r.err) == sysfsDevOf(PathJoin(iommuDevicesPath, deviceFileName)) &&
      r.bdf == GetBDF(GetMediatedBDF(r.sysfsDev))
    // a mediated AP device: the resolved symlink and no BDF
    ensures classify(PathJoin(iommuDevicesPath, deviceFileName)) == (ApDeviceMediated, None) ==>
      (r.sysfsDev, r.err) == sysfsDevOf(PathJoin(iommuDevicesPath, deviceFileName)) && r.bdf == ""
    // any other type is an error that names the file
    ensures classify(PathJoin(iommuDevicesPath, deviceFileName)) == (DeviceErrorType, None) ==>
      r.err.Some? && r.bdf == "" && r.sysfsDev == "" &&
      |r.err.value.message| >= |deviceFileName| &&
      r.err.value.message[|r.err.value.message| - |deviceFileName|..] == deviceFileName
  {
    var sysfsDevStr := PathJoin(iommuDevicesPath, deviceFileName);
    var (vfioType, err) := classify(sysfsDevStr);
    if err.Some? then Details("", "", vfioType, err)
    else
      match vfioType
      case PciDeviceNormal =>
        Details(deviceFileName, PathJoin(SysBusPciDevicesPath, deviceFileName), vfioType, None)
      case PciDeviceMediated =>
        var (sysfsDev, linkErr) := sysfsDevOf(sysfsDevStr);
        Details(GetBDF(GetMediatedBDF(sysfsDev)), sysfsDev, vfioType, linkErr)
      case ApDeviceMediated =>
        var (sysfsDev, linkErr) := sysfsDevOf(sysfsDevStr);
        Details("", sysfsDev, vfioType, linkErr)
      case DeviceErrorType =>
        Details("", "", vfioType, Some(Error(IncorrectTokensMessage + deviceFileName)))
  }
}
