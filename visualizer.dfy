/** The stand-alone visualizer page: a fixed list of five VMs held in page
    state, changed only by the status menu, with the same colour and count
    rules as the dashboard and a hard-coded region card. */
module Visualizer {
  import opened Outcomes
  import opened VmModel
  import VmStore
  import Dashboard

  /** The page's starting list (it carries no timestamps). */
  const InitialVMs: seq<VM> := [
    VM("vm-001", "web-server-prod", "US East (N. Virginia)", Running, 75, 68, 45, "54.123.45.67", None, None),
    VM("vm-002", "database-primary", "EU West (Ireland)", Running, 45, 82, 67, "34.245.78.90", None, None),
    VM("vm-003", "api-gateway", "Asia Pacific (Tokyo)", Idling, 12, 25, 23, "13.114.56.78", None, None),
    VM("vm-004", "backup-server", "US West (Oregon)", Terminated, 0, 0, 89, "52.89.123.45", None, None),
    VM("vm-005", "dev-environment", "EU Central (Frankfurt)", Starting, 35, 40, 15, "18.195.67.89", None, None)
  ]

  /** The page starts from the same five records the store falls back to:
      five distinct ids, two of them Running, so the running card shows 2. */
  lemma InitialVMsShape()
    ensures InitialVMs == VmStore.FallbackVMs
    ensures |InitialVMs| == 5 && UniqueIds(InitialVMs)
    ensures RunningCount(InitialVMs) == 2
  {
    SameList();
    VmStore.FallbackIdsUnique();
    VmStore.FallbackRunning();
  }

  lemma SameList()
    ensures InitialVMs == VmStore.FallbackVMs
  {
  }

  /** `updateVMStatus` as the page applies it to its list: length and order are
      kept, only records of that id change and only in their status, an
      unknown id changes nothing, and repeating the update changes nothing more. */
  lemma {:induction false} UpdateVMStatusSpec(vms: seq<VM>, vmId: string, newStatus: Status)
    ensures |SetStatus(vms, vmId, newStatus)| == |vms|
    ensures forall i :: 0 <= i < |vms| ==>
              SetStatus(vms, vmId, newStatus)[i].(status := vms[i].status) == vms[i] &&
              SetStatus(vms, vmId, newStatus)[i].status == if vms[i].id == vmId then newStatus else vms[i].status
    ensures FindById(vms, vmId).None? ==> SetStatus(vms, vmId, newStatus) == vms
    ensures SetStatus(SetStatus(vms, vmId, newStatus), vmId, newStatus) == SetStatus(vms, vmId, newStatus)
  {
    forall i | 0 <= i < |vms|
      ensures SetStatus(vms, vmId, newStatus)[i].(status := vms[i].status) == vms[i]
    {
      SetStatusOnlyStatus(vms, vmId, newStatus, i);
    }
    if FindById(vms, vmId).None? {
      SetStatusUnknownId(vms, vmId, newStatus);
    }
    SetStatusIdempotent(vms, vmId, newStatus);
  }

  /** The page's status menu follows the dashboard's rules, so choosing an
      enabled entry of a VM's menu always changes that VM's status. */
  lemma MenuChoiceChangesStatus(vms: seq<VM>, i: nat, item: MenuItem)
    requires i < |vms| && !MenuItemDisabled(item, vms[i].status)
    ensures SetStatus(vms, vms[i].id, Target(item))[i].status == Target(item)
    ensures Target(item) != vms[i].status
  {
    ChosenTargetDiffers(item, vms[i].status);
  }

  /** `getResourceColor` of the page. */
  function GetResourceColor(usage: int): string {
    if usage >= 80 then "bg-red-500"
    else if usage >= 60 then "bg-yellow-500"
    else "bg-green-500"
  }

  function BandColor(b: Band): string {
    match b
    case High => "bg-red-500"
    case Medium => "bg-yellow-500"
    case Low => "bg-green-500"
  }

  /** The bar colour depends on the usage band alone, and the page and the
      dashboard put every usage in the same band: red where the dashboard is
      destructive, green where it is chart-1. */
  lemma ResourceColorByBand(usage: int)
    ensures GetResourceColor(usage) == BandColor(UsageBand(usage))
    ensures GetResourceColor(usage) == "bg-red-500" <==> usage >= 80
    ensures GetResourceColor(usage) == "bg-green-500" <==> usage < 60
    ensures GetResourceColor(usage) == "bg-red-500" <==>
              Dashboard.GetResourceColor(usage) == "hsl(var(--destructive))"
    ensures GetResourceColor(usage) == "bg-green-500" <==>
              Dashboard.GetResourceColor(usage) == "hsl(var(--chart-1))"
  {
    var red, yellow, green := "bg-red-500", "bg-yellow-500", "bg-green-500";
    assert red[3] != yellow[3] && red[3] != green[3] && yellow[3] != green[3];
    Dashboard.ResourceColorByBand(usage);
  }

  /** The list after a sequence of status changes, applied in order. */
  function Apply(vms: seq<VM>, changes: seq<(string, Status)>): (r: seq<VM>)
    ensures |r| == |vms|
    ensures forall i :: 0 <= i < |vms| ==> r[i].id == vms[i].id && r[i].region == vms[i].region
    decreases |changes|
  {
    if changes == [] then vms
    else
      var last := changes[|changes| - 1];
      SetStatus(Apply(vms, changes[..|changes| - 1]), last.0, last.1)
  }

  /** The region card shows a constant 5. It is right for every list the page
      can reach: status changes keep the five records, their ids and their
      regions, and the initial list spans five distinct regions. */
  lemma {:induction false} HardCodedRegionsHold(changes: seq<(string, Status)>)
    ensures var vms := Apply(InitialVMs, changes);
            |vms| == 5 && UniqueIds(vms) && |Dashboard.RegionSet(vms)| == 5
  {
    var vms := Apply(InitialVMs, changes);
    InitialVMsShape();
    SameIds(vms, InitialVMs);
    SameRegions(vms, InitialVMs);
    InitialRegions();
  }

  /** Lists with the same ids, position by position, both have unique ids or neither has. */
  lemma SameIds(a: seq<VM>, b: seq<VM>)
    requires |a| == |b| && forall i :: 0 <= i < |a| ==> a[i].id == b[i].id
    ensures UniqueIds(a) <==> UniqueIds(b)
  {
  }

  /** Lists with the same regions, position by position, span the same region set. */
  lemma SameRegions(a: seq<VM>, b: seq<VM>)
    requires |a| == |b| && forall i :: 0 <= i < |a| ==> a[i].region == b[i].region
    ensures Dashboard.RegionSet(a) == Dashboard.RegionSet(b)
  {
    var ra, rb := Dashboard.RegionSet(a), Dashboard.RegionSet(b);
    forall x | x in ra ensures x in rb {
      var i := Dashboard.RegionSetWitness(a, x);
      assert b[i].region == x;
    }
    forall x | x in rb ensures x in ra {
      var i := Dashboard.RegionSetWitness(b, x);
      assert a[i].region == x;
    }
  }

  /** Records of pairwise distinct regions span as many regions as there are records. */
  lemma {:induction false} DistinctRegions(v: seq<VM>)
    requires forall i, j :: 0 <= i < j < |v| ==> v[i].region != v[j].region
    ensures |Dashboard.RegionSet(v)| == |v|
    decreases |v|
  {
    if v != [] {
      var rest := v[1..];
      DistinctRegions(rest);
      assert forall i :: 0 <= i < |rest| ==> rest[i].region != v[0].region by {
        assert forall i :: 0 <= i < |rest| ==> rest[i] == v[i + 1];
      }
      Dashboard.NotInRegionSet(rest, v[0].region);
      assert Dashboard.RegionSet(v) == {v[0].region} + Dashboard.RegionSet(rest);
    }
  }

  /** The initial list spans the five region names. */
  lemma InitialRegions()
    ensures |Dashboard.RegionSet(InitialVMs)| == 5
  {
    var r := InitialVMs;
    forall i, j | 0 <= i < j < 5 ensures r[i].region != r[j].region {
      assert r[i].region[0] != r[j].region[0] || r[i].region[3] != r[j].region[3];
    }
    DistinctRegions(r);
  }
}
