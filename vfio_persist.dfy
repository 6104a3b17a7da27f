/** What a VFIO device keeps across a runtime restart: Save writes out the
    non-nil group members, Load rebuilds members from the saved records,
    copying only the fields meaningful for each type and stopping at the
    first record whose type it does not recognise. */
module VfioPersist {
  import opened VfioConfig

  /** The members as the device holds them, none of them nil. */
  function Present(devs: seq<VfioDev>): (vs: seq<Option<VfioDev>>)
    ensures |vs| == |devs|
    ensures forall k :: 0 <= k < |devs| ==> vs[k] == Some(devs[k])
  {
    seq(|devs|, k requires 0 <= k < |devs| => Some(devs[k]))
  }

  /** The non-nil members, in their original order. */
  function NonNil(vs: seq<Option<VfioDev>>): seq<VfioDev>
  {
    if vs == [] then []
    else NonNil(vs[..|vs| - 1]) + (if vs[|vs| - 1].Some? then [vs[|vs| - 1].value] else [])
  }

  /** Saving drops exactly the nil entries: a list without nil comes back whole. */
  lemma {:induction false} NonNilOfPresent(devs: seq<VfioDev>)
    ensures NonNil(Present(devs)) == devs
  {
    if devs != [] {
      var n := |devs|;
      assert Present(devs)[..n - 1] == Present(devs[..n - 1]);
      NonNilOfPresent(devs[..n - 1]);
      assert devs == devs[..n - 1] + [devs[n - 1]];
    }
  }

  /** Saving never invents members: every saved record is a member of the device. */
  lemma {:induction false} NonNilMembers(vs: seq<Option<VfioDev>>)
    ensures |NonNil(vs)| <= |vs|
    ensures forall d :: d in NonNil(vs) ==> Some(d) in vs
  {
    if vs != [] {
      var n := |vs|;
      NonNilMembers(vs[..n - 1]);
      assert forall d :: Some(d) in vs[..n - 1] ==> Some(d) in vs;
    }
  }

  /** Saving works entry by entry: the records of a list split in two are
      those of the first part followed by those of the second. */
  lemma {:induction false} NonNilConcat(a: seq<Option<VfioDev>>, b: seq<Option<VfioDev>>)
    ensures NonNil(a + b) == NonNil(a) + NonNil(b)
  {
    if b != [] {
      var n := |b|;
      assert (a + b)[..|a + b| - 1] == a + b[..n - 1];
      assert (a + b)[|a + b| - 1] == b[n - 1];
      NonNilConcat(a, b[..n - 1]);
    } else {
      assert a + b == a;
    }
  }

  /** Saving keeps every non-nil entry: the entry at `k` is saved right
      after the records of the entries before it. */
  lemma NonNilKeeps(vs: seq<Option<VfioDev>>, k: nat)
    requires k < |vs| && vs[k].Some?
    ensures |NonNil(vs[..k])| < |NonNil(vs)|
    ensures NonNil(vs)[|NonNil(vs[..k])|] == vs[k].value
  {
    assert vs == vs[..k] + ([vs[k]] + vs[k + 1..]);
    NonNilConcat(vs[..k], [vs[k]] + vs[k + 1..]);
    NonNilConcat([vs[k]], vs[k + 1..]);
    assert NonNil([vs[k]]) == NonNil([]) + [vs[k].value];
  }

  predicate Recognised(t: VfioDeviceType)
  {
    t.PciDeviceNormal? || t.PciDeviceMediated? || t.ApDeviceMediated?
  }

  /** The member rebuilt from one saved record of a recognised type. */
  function Restore(d: VfioDev): VfioDev
    requires Recognised(d.vfioType)
  {
    if d.vfioType.ApDeviceMediated? then
      VfioDev(d.id, DeviceErrorType, "", d.sysfsDev, false, "", "")
    else
      VfioDev(d.id, d.vfioType, d.bdf, d.sysfsDev, false, "", "")
  }

  /** The members rebuilt from the saved records, up to the first record of
      an unrecognised type. */
  function LoadRecords(recs: seq<VfioDev>): seq<VfioDev>
  {
    if recs == [] || !Recognised(recs[0].vfioType) then []
    else [Restore(recs[0])] + LoadRecords(recs[1..])
  }

  /** Load keeps the longest prefix of recognised records, each restored,
      and stops right before the first unrecognised one. */
  lemma {:induction false} LoadRecordsPrefix(recs: seq<VfioDev>)
    ensures |LoadRecords(recs)| <= |recs|
    ensures forall k :: 0 <= k < |LoadRecords(recs)| ==>
      Recognised(recs[k].vfioType) && LoadRecords(recs)[k] == Restore(recs[k])
    ensures |LoadRecords(recs)| < |recs| ==> !Recognised(recs[|LoadRecords(recs)|].vfioType)
  {
    if recs != [] && Recognised(recs[0].vfioType) {
      LoadRecordsPrefix(recs[1..]);
      var r := LoadRecords(recs);
      forall k | 0 <= k < |r|
        ensures Recognised(recs[k].vfioType) && r[k] == Restore(recs[k])
      {
        if k > 0 {
          assert r[k] == LoadRecords(recs[1..])[k - 1];
          assert recs[k] == recs[1..][k - 1];
        }
      }
    }
  }

  /** When every record is recognised, Load rebuilds one member per record. */
  lemma LoadRecordsAllRecognised(recs: seq<VfioDev>)
    requires forall k :: 0 <= k < |recs| ==> Recognised(recs[k].vfioType)
    ensures |LoadRecords(recs)| == |recs|
  {
    LoadRecordsPrefix(recs);
  }

  /** A PCI member saved and loaded keeps its ID, type, BDF and sysfs path,
      but loses its PCIe placement. */
  lemma PciSaveLoad(devs: seq<VfioDev>)
    requires forall k :: 0 <= k < |devs| ==> devs[k].vfioType.PciDeviceNormal? || devs[k].vfioType.PciDeviceMediated?
    ensures var loaded := LoadRecords(NonNil(Present(devs)));
      && |loaded| == |devs|
      && forall k :: 0 <= k < |devs| ==>
           && loaded[k].id == devs[k].id && loaded[k].vfioType == devs[k].vfioType
           && loaded[k].bdf == devs[k].bdf && loaded[k].sysfsDev == devs[k].sysfsDev
           && !loaded[k].isPCIe && loaded[k].port == "" && loaded[k].bus == ""
  {
    NonNilOfPresent(devs);
    LoadRecordsPrefix(devs);
  }

  /** An AP member saved and loaded keeps only its ID and sysfs path. */
  lemma ApSaveLoad(d: VfioDev)
    requires d.vfioType.ApDeviceMediated?
    ensures LoadRecords(NonNil(Present([d]))) == [VfioDev(d.id, DeviceErrorType, "", d.sysfsDev, false, "", "")]
  {
    NonNilOfPresent([d]);
  }

  /** A second save and load of a loaded PCI member changes nothing more. */
  lemma PciRestoreStable(d: VfioDev)
    requires d.vfioType.PciDeviceNormal? || d.vfioType.PciDeviceMediated?
    ensures Recognised(Restore(d).vfioType) && Restore(Restore(d)) == Restore(d)
  {
  }

  /** A loaded AP member carries the zero type, so the next save and load
      drops it together with every member after it. */
  lemma ApLostOnSecondRestore(d: VfioDev, later: seq<VfioDev>)
    requires d.vfioType.ApDeviceMediated?
    ensures LoadRecords(NonNil(Present([Restore(d)] + later))) == []
  {
    NonNilOfPresent([Restore(d)] + later);
  }
}
