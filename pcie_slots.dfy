/** The process-wide PCIe slot registry and the bus labels that attaching a
    device group hands out. A port's bus index is the number of distinct
    BDFs already recorded for it; labels are the port's prefix followed by
    that index in decimal. Nothing is ever removed from the registry. */
module PcieSlots {
  import opened VfioConfig
  import opened PathStrings

  /** The shared registry: for every known port, the set of BDFs placed on
      it, and the bus-label prefix of each port. */
  class PcieRegistry {
    var devices: map<string, set<string>>
    var prefixes: map<string, string>

    constructor (devices: map<string, set<string>>, prefixes: map<string, string>)
      ensures this.devices == devices && this.prefixes == prefixes
    {
      this.devices := devices;
      this.prefixes := prefixes;
    }
  }

  predicate OnPort(d: VfioDev, port: string)
  {
    d.isPCIe && d.port == port
  }

  /** Every PCIe member's port already has an entry in the registry. */
  predicate PortsRegistered(reg: map<string, set<string>>, devs: seq<VfioDev>)
  {
    forall k :: 0 <= k < |devs| && devs[k].isPCIe ==> devs[k].port in reg
  }

  /** The prefix of a port; a port without one has the empty prefix. */
  function PortPrefix(prefixes: map<string, string>, port: string): string
  {
    if port in prefixes then prefixes[port] else ""
  }

  function BusLabel(prefixes: map<string, string>, port: string, index: nat): string
  {
    PortPrefix(prefixes, port) + Decimal(index)
  }

  /** Labels on one port are equal exactly when their indices are. */
  lemma BusLabelInjective(prefixes: map<string, string>, port: string, i: nat, j: nat)
    ensures BusLabel(prefixes, port, i) == BusLabel(prefixes, port, j) <==> i == j
  {
    if BusLabel(prefixes, port, i) == BusLabel(prefixes, port, j) {
      PrefixCancel(PortPrefix(prefixes, port), Decimal(i), Decimal(j));
      DecimalInjective(i, j);
    }
  }

  /** The BDFs of the members placed on `port`. */
  function PortBdfs(devs: seq<VfioDev>, port: string): set<string>
  {
    if devs == [] then {}
    else (if OnPort(devs[0], port) then {devs[0].bdf} else {}) + PortBdfs(devs[1..], port)
  }

  /** Places one member: a PCIe member gets the label for the current size
      of its port's set; others are returned as they are. */
  function Place(reg: map<string, set<string>>, prefixes: map<string, string>, d: VfioDev): VfioDev
    requires d.isPCIe ==> d.port in reg
  {
    if d.isPCIe then d.(bus := BusLabel(prefixes, d.port, |reg[d.port]|)) else d
  }

  /** Records one member: a PCIe member's BDF joins its port's set. */
  function Reserve(reg: map<string, set<string>>, d: VfioDev): map<string, set<string>>
    requires d.isPCIe ==> d.port in reg
  {
    if d.isPCIe then reg[d.port := reg[d.port] + {d.bdf}] else reg
  }

  /** The members as placed, in order, and the registry afterwards. */
  function AllocateSlots(reg: map<string, set<string>>, prefixes: map<string, string>, devs: seq<VfioDev>)
    : (res: (seq<VfioDev>, map<string, set<string>>))
    requires PortsRegistered(reg, devs)
    ensures |res.0| == |devs| && res.1.Keys == reg.Keys
  {
    if devs == [] then ([], reg)
    else
      var rest := AllocateSlots(Reserve(reg, devs[0]), prefixes, devs[1..]);
      ([Place(reg, prefixes, devs[0])] + rest.0, rest.1)
  }

  lemma {:induction false} PortBdfsConcat(a: seq<VfioDev>, b: seq<VfioDev>, port: string)
    ensures PortBdfs(a + b, port) == PortBdfs(a, port) + PortBdfs(b, port)
  {
    if a == [] {
      assert a + b == b;
    } else {
      assert (a + b)[0] == a[0];
      assert (a + b)[1..] == a[1..] + b;
      PortBdfsConcat(a[1..], b, port);
    }
  }

  lemma {:induction false} PortBdfsNone(devs: seq<VfioDev>, port: string)
    requires forall k :: 0 <= k < |devs| ==> !OnPort(devs[k], port)
    ensures PortBdfs(devs, port) == {}
  {
    if devs != [] {
      PortBdfsNone(devs[1..], port);
    }
  }

  /** After allocation every known port holds its earlier BDFs plus those of
      the group's members on it: members on other ports, and non-PCIe
      members, leave a port's set as it was. */
  lemma {:induction false} AllocationRegistry(
    reg: map<string, set<string>>, prefixes: map<string, string>, devs: seq<VfioDev>, port: string)
    requires PortsRegistered(reg, devs)
    requires port in reg
    ensures AllocateSlots(reg, prefixes, devs).1[port] == reg[port] + PortBdfs(devs, port)
  {
    if devs != [] {
      AllocationRegistry(Reserve(reg, devs[0]), prefixes, devs[1..], port);
    }
  }

  /** One unfolding of `AllocateSlots` past the first member. */
  lemma AllocationStep(
    reg: map<string, set<string>>, prefixes: map<string, string>, devs: seq<VfioDev>, i: nat)
    requires PortsRegistered(reg, devs)
    requires 0 < i < |devs|
    ensures PortsRegistered(Reserve(reg, devs[0]), devs[1..])
    ensures AllocateSlots(reg, prefixes, devs).0[i] == AllocateSlots(Reserve(reg, devs[0]), prefixes, devs[1..]).0[i - 1]
    ensures devs[1..][i - 1] == devs[i]
  {
  }

  /** The BDFs taken on `port` before member `i`, seen from after the first member. */
  lemma TakenStep(reg: map<string, set<string>>, devs: seq<VfioDev>, i: nat, port: string)
    requires PortsRegistered(reg, devs)
    requires 0 < i <= |devs| && port in reg
    ensures Reserve(reg, devs[0])[port] + PortBdfs(devs[1..][..i - 1], port) == reg[port] + PortBdfs(devs[..i], port)
  {
    assert devs[..i][1..] == devs[1..][..i - 1];
    assert devs[..i][0] == devs[0];
  }

  /** Allocation changes nothing but the `bus` of PCIe members. */
  lemma {:induction false} AllocationKeepsFields(
    reg: map<string, set<string>>, prefixes: map<string, string>, devs: seq<VfioDev>, i: nat)
    requires PortsRegistered(reg, devs)
    requires i < |devs|
    ensures AllocateSlots(reg, prefixes, devs).0[i] == devs[i].(bus := AllocateSlots(reg, prefixes, devs).0[i].bus)
    ensures !devs[i].isPCIe ==> AllocateSlots(reg, prefixes, devs).0[i] == devs[i]
  {
    if i > 0 {
      AllocationStep(reg, prefixes, devs, i);
      AllocationKeepsFields(Reserve(reg, devs[0]), prefixes, devs[1..], i - 1);
    }
  }

  /** The `bus` of a PCIe member at `i` is its port's prefix followed by the
      number of distinct BDFs on that port before it: those already
      registered and those of earlier members of the group. */
  lemma {:induction false} AllocationBusAt(
    reg: map<string, set<string>>, prefixes: map<string, string>, devs: seq<VfioDev>, i: nat)
    requires PortsRegistered(reg, devs)
    requires i < |devs| && devs[i].isPCIe
    ensures AllocateSlots(reg, prefixes, devs).0[i].bus
         == BusLabel(prefixes, devs[i].port, |reg[devs[i].port] + PortBdfs(devs[..i], devs[i].port)|)
  {
    if i > 0 {
      AllocationStep(reg, prefixes, devs, i);
      AllocationBusAt(Reserve(reg, devs[0]), prefixes, devs[1..], i - 1);
      TakenStep(reg, devs, i, devs[i].port);
    }
  }

  /** Every PCIe member's BDF is in its port's set afterwards. */
  lemma MemberRecorded(
    reg: map<string, set<string>>, prefixes: map<string, string>, devs: seq<VfioDev>, i: nat)
    requires PortsRegistered(reg, devs)
    requires i < |devs| && devs[i].isPCIe
    ensures devs[i].bdf in AllocateSlots(reg, prefixes, devs).1[devs[i].port]
  {
    var port := devs[i].port;
    AllocationRegistry(reg, prefixes, devs, port);
    assert devs == devs[..i] + devs[i..];
    PortBdfsConcat(devs[..i], devs[i..], port);
  }

  /** Two members on one port with no member of that port between them get
      consecutive indices, provided the first brings a BDF not yet on the
      port. */
  lemma ConsecutiveSlots(
    reg: map<string, set<string>>, prefixes: map<string, string>, devs: seq<VfioDev>, i: nat, j: nat, port: string)
    requires PortsRegistered(reg, devs)
    requires i < j < |devs| && OnPort(devs[i], port) && OnPort(devs[j], port)
    requires forall k :: i < k < j ==> !OnPort(devs[k], port)
    requires devs[i].bdf !in reg[port] + PortBdfs(devs[..i], port)
    ensures var n := |reg[port] + PortBdfs(devs[..i], port)|;
      && AllocateSlots(reg, prefixes, devs).0[i].bus == BusLabel(prefixes, port, n)
      && AllocateSlots(reg, prefixes, devs).0[j].bus == BusLabel(prefixes, port, n + 1)
  {
    AllocationBusAt(reg, prefixes, devs, i);
    AllocationBusAt(reg, prefixes, devs, j);
    PortBdfsBetween(devs, i, j, port);
    var before := reg[port] + PortBdfs(devs[..i], port);
    assert reg[port] + PortBdfs(devs[..j], port) == before + {devs[i].bdf};
    assert |before + {devs[i].bdf}| == |before| + 1;
  }

  /** The only BDF on `port` between positions `i` and `j` is that of member `i`. */
  lemma PortBdfsBetween(devs: seq<VfioDev>, i: nat, j: nat, port: string)
    requires i < j <= |devs| && OnPort(devs[i], port)
    requires forall k :: i < k < j ==> !OnPort(devs[k], port)
    ensures PortBdfs(devs[..j], port) == PortBdfs(devs[..i], port) + {devs[i].bdf}
  {
    assert devs[..j] == devs[..i] + ([devs[i]] + devs[i + 1..j]);
    PortBdfsConcat(devs[..i], [devs[i]] + devs[i + 1..j], port);
    assert ([devs[i]] + devs[i + 1..j])[1..] == devs[i + 1..j];
    PortBdfsNone(devs[i + 1..j], port);
  }

  /** The number of members placed on `port`. */
  function CountOnPort(devs: seq<VfioDev>, port: string): nat
  {
    if devs == [] then 0 else (if OnPort(devs[0], port) then 1 else 0) + CountOnPort(devs[1..], port)
  }

  /** The members on `port` bring BDFs that are new to `taken` and pairwise distinct. */
  predicate FreshOnPort(taken: set<string>, devs: seq<VfioDev>, port: string)
  {
    && (forall k :: 0 <= k < |devs| && OnPort(devs[k], port) ==> devs[k].bdf !in taken)
    && (forall k, l :: 0 <= k < l < |devs| && OnPort(devs[k], port) && OnPort(devs[l], port) ==>
          devs[k].bdf != devs[l].bdf)
  }

  lemma {:induction false} FreshCount(taken: set<string>, devs: seq<VfioDev>, port: string)
    requires FreshOnPort(taken, devs, port)
    ensures |taken + PortBdfs(devs, port)| == |taken| + CountOnPort(devs, port)
    decreases devs
  {
    if devs != [] {
      var next := if OnPort(devs[0], port) then taken + {devs[0].bdf} else taken;
      assert FreshOnPort(next, devs[1..], port) by {
        forall k | 0 <= k < |devs[1..]| && OnPort(devs[1..][k], port)
          ensures devs[1..][k].bdf !in next
        {
          assert devs[1..][k] == devs[k + 1];
        }
      }
      FreshCount(next, devs[1..], port);
      assert taken + PortBdfs(devs, port) == next + PortBdfs(devs[1..], port);
    }
  }

  /** With fresh, distinct BDFs the members on a port are numbered in list
      order from the port's current size: the k-th such member (counting
      from 0) gets index size + k. */
  lemma SlotIndexCountsPortMembers(
    reg: map<string, set<string>>, prefixes: map<string, string>, devs: seq<VfioDev>, i: nat)
    requires PortsRegistered(reg, devs)
    requires i < |devs| && devs[i].isPCIe
    requires FreshOnPort(reg[devs[i].port], devs, devs[i].port)
    ensures AllocateSlots(reg, prefixes, devs).0[i].bus
         == BusLabel(prefixes, devs[i].port, |reg[devs[i].port]| + CountOnPort(devs[..i], devs[i].port))
  {
    var port := devs[i].port;
    AllocationBusAt(reg, prefixes, devs, i);
    assert FreshOnPort(reg[port], devs[..i], port) by {
      forall k, l | 0 <= k < l < |devs[..i]| && OnPort(devs[..i][k], port) && OnPort(devs[..i][l], port)
        ensures devs[..i][k].bdf != devs[..i][l].bdf
      {
        assert devs[..i][k] == devs[k] && devs[..i][l] == devs[l];
      }
    }
    FreshCount(reg[port], devs[..i], port);
  }

  /** Three fresh functions on one root port, then one on a switch port,
      starting from empty ports: labels rp0, rp1, rp2 on the root port and
      sw0 on the switch port, and all four BDFs recorded on their ports. */
  lemma ThreeOnOnePortExample(a: string, b: string, c: string, d: string)
    requires a != b && b != c && a != c
    ensures var reg := map["root" := {}, "switch" := {}];
      var prefixes := map["root" := "rp", "switch" := "sw"];
      var devs := [VfioDev("a", PciDeviceNormal, a, "", true, "root", ""),
                   VfioDev("b", PciDeviceNormal, b, "", true, "root", ""),
                   VfioDev("c", PciDeviceNormal, c, "", true, "root", ""),
                   VfioDev("d", PciDeviceNormal, d, "", true, "switch", "")];
      var res := AllocateSlots(reg, prefixes, devs);
      && res.0[0].bus == "rp0" && res.0[1].bus == "rp1" && res.0[2].bus == "rp2" && res.0[3].bus == "sw0"
      && res.1 == map["root" := {a, b, c}, "switch" := {d}]
  {
    var reg := map["root" := {}, "switch" := {}];
    var prefixes := map["root" := "rp", "switch" := "sw"];
    var devs := [VfioDev("a", PciDeviceNormal, a, "", true, "root", ""),
                 VfioDev("b", PciDeviceNormal, b, "", true, "root", ""),
                 VfioDev("c", PciDeviceNormal, c, "", true, "root", ""),
                 VfioDev("d", PciDeviceNormal, d, "", true, "switch", "")];
    var r1 := Reserve(reg, devs[0]);
    var r2 := Reserve(r1, devs[1]);
    var r3 := Reserve(r2, devs[2]);
    var r4 := Reserve(r3, devs[3]);
    var placed := [Place(reg, prefixes, devs[0]), Place(r1, prefixes, devs[1]),
                   Place(r2, prefixes, devs[2]), Place(r3, prefixes, devs[3])];
    assert AllocateSlots(reg, prefixes, devs) == (placed, r4) by {
      assert devs[3..][0] == devs[3] && devs[3..][1..] == [];
      assert devs[2..][0] == devs[2] && devs[2..][1..] == devs[3..];
      assert devs[1..][0] == devs[1] && devs[1..][1..] == devs[2..];
      assert AllocateSlots(r4, prefixes, []) == ([], r4);
      var t3 := AllocateSlots(r3, prefixes, devs[3..]);
      assert t3.1 == r4;
      assert t3.0 == [Place(r3, prefixes, devs[3])];
      var t2 := AllocateSlots(r2, prefixes, devs[2..]);
      assert t2 == ([Place(r2, prefixes, devs[2])] + t3.0, r4);
      var t1 := AllocateSlots(r1, prefixes, devs[1..]);
      assert t1 == ([Place(r1, prefixes, devs[1])] + t2.0, r4);
      assert AllocateSlots(reg, prefixes, devs) == ([Place(reg, prefixes, devs[0])] + t1.0, r4);
      assert placed == [placed[0]] + ([placed[1]] + ([placed[2]] + [placed[3]]));
    }
    assert r4 == map["root" := {a, b, c}, "switch" := {d}] by {
      assert r3["root"] == {a, b, c} && r3["switch"] == {};
    }
    assert placed[0].bus == "rp0" by {
      assert Decimal(0) == "0";
    }
    assert placed[1].bus == "rp1" by {
      assert r1["root"] == {a} && |r1["root"]| == 1;
      assert Decimal(1) == "1";
    }
    assert placed[2].bus == "rp2" by {
      assert r2["root"] == {a, b} && |r2["root"]| == 2;
      assert Decimal(2) == "2";
    }
    assert placed[3].bus == "sw0" by {
      assert r3["switch"] == {};
      assert Decimal(0) == "0";
    }
  }
}
