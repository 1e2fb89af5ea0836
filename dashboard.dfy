/** The dashboard page: the summary counts, the colour rules of the table,
    the set of VMs whose status change is in flight, and what the page does
    after a delete or a clone requested from its drawers. It drives the VM
    store and the clone form. */
module Dashboard {
  import opened Outcomes
  import opened VmModel
  import opened VmStore
  import WorldMap
  import CloneDrawer
  import Text

  // ---- Colours ----

  /** `getResourceColor`: the colour of a usage bar. */
  function GetResourceColor(usage: int): string {
    if usage >= 80 then "hsl(var(--destructive))"
    else if usage >= 60 then "hsl(var(--chart-3))"
    else "hsl(var(--chart-1))"
  }

  function BandColor(b: Band): string {
    match b
    case High => "hsl(var(--destructive))"
    case Medium => "hsl(var(--chart-3))"
    case Low => "hsl(var(--chart-1))"
  }

  /** The bar colour is determined by the usage band alone: destructive from 80,
      chart-3 from 60 to 79, chart-1 below 60. */
  lemma ResourceColorByBand(usage: int)
    ensures GetResourceColor(usage) == BandColor(UsageBand(usage))
    ensures GetResourceColor(usage) == "hsl(var(--destructive))" <==> usage >= 80
    ensures GetResourceColor(usage) == "hsl(var(--chart-1))" <==> usage < 60
  {
    var a := "hsl(var(--destructive))";
    var b := "hsl(var(--chart-3))";
    var c := "hsl(var(--chart-1))";
    assert a[10] != b[10] && a[10] != c[10];
    assert b[16] != c[16];
  }

  /** The colour family of a status badge, as a Tailwind colour name. */
  function Family(c: WorldMap.Colour): string {
    match c
    case Gray => "gray"
    case Green => "green"
    case Yellow => "yellow"
    case Red => "red"
    case Blue => "blue"
    case Orange => "orange"
  }

  /** The class list of a badge of one colour family. */
  function BadgeClass(f: string): string {
    "bg-" + f + BadgeTail(f)
  }

  function BadgeTail(f: string): (t: string)
    ensures |t| > 0 && t[0] == '-'
  {
    "-100 text-" + f + "-800 hover:bg-" + f + "-100 dark:bg-" + f +
    "-900/20 dark:text-" + f + "-400 dark:hover:bg-" + f + "-900/20"
  }

  /** `getStatusColor`: the badge classes of a status. */
  function GetStatusColor(s: Status): string {
    match s
    case Running => BadgeClass("green")
    case Idling => BadgeClass("yellow")
    case Terminated => BadgeClass("red")
    case Starting => BadgeClass("blue")
    case Stopping => BadgeClass("orange")
  }

  /** A badge's class list starts with "bg-", its family and "-". */
  lemma BadgeClassFamily(f: string)
    requires '-' !in f
    ensures BadgeClass(f)[..3] == "bg-"
    ensures Text.SplitFirst(BadgeClass(f)[3..], '-') == Text.Found(f, BadgeTail(f)[1..])
  {
    var t := BadgeTail(f);
    assert t == ['-'] + t[1..];
    assert BadgeClass(f)[3..] == f + ['-'] + t[1..];
    Text.SplitFirstAt(f, '-', t[1..]);
  }

  /** The dashboard badges use the status colours of the map: each status gets
      the family of its map colour, so distinct statuses get distinct badges,
      and none gets the gray of the unreachable default. */
  lemma {:induction false} StatusColorMatchesMap(s: Status, t: Status)
    ensures GetStatusColor(s) == BadgeClass(Family(WorldMap.StatusColour(s)))
    ensures s != t ==> GetStatusColor(s) != GetStatusColor(t)
    ensures GetStatusColor(s) != BadgeClass("gray")
  {
    var f, g := Family(WorldMap.StatusColour(s)), Family(WorldMap.StatusColour(t));
    assert '-' !in f && '-' !in g && '-' !in "gray";
    BadgeClassInjective(f, g);
    BadgeClassInjective(f, "gray");
    if s != t {
      assert f != g;
    }
    assert f != "gray";
  }

  /** Badges of different families have different class lists. */
  lemma BadgeClassInjective(f: string, g: string)
    requires '-' !in f && '-' !in g
    ensures BadgeClass(f) == BadgeClass(g) ==> f == g
  {
    BadgeClassFamily(f);
    BadgeClassFamily(g);
  }

  // ---- Counts ----

  /** `new Set(vms.map((vm) => vm.region))`. */
  function RegionSet(vms: seq<VM>): (r: set<string>)
    ensures forall i :: 0 <= i < |vms| ==> vms[i].region in r
    ensures |r| <= |vms|
    ensures vms != [] ==> |r| >= 1
    decreases |vms|
  {
    if vms == [] then {}
    else
      var rest := RegionSet(vms[1..]);
      assert forall i :: 1 <= i < |vms| ==> vms[i] == vms[1..][i - 1];
      {vms[0].region} + rest
  }

  /** Every region of the set is the region of some record. */
  lemma {:induction false} RegionSetWitness(vms: seq<VM>, x: string) returns (i: nat)
    requires x in RegionSet(vms)
    ensures i < |vms| && vms[i].region == x
    decreases |vms|
  {
    if vms[0].region == x {
      i := 0;
    } else {
      var j := RegionSetWitness(vms[1..], x);
      i := j + 1;
    }
  }

  /** A region no record has is not in the set. */
  lemma {:induction false} NotInRegionSet(vms: seq<VM>, x: string)
    requires forall i :: 0 <= i < |vms| ==> vms[i].region != x
    ensures x !in RegionSet(vms)
    decreases |vms|
  {
    if vms != [] {
      assert forall i :: 0 <= i < |vms[1..]| ==> vms[1..][i] == vms[i + 1];
      NotInRegionSet(vms[1..], x);
    }
  }

  /** The three summary cards: total, running and distinct regions. */
  datatype Summary = Summary(total: nat, running: nat, regions: nat)

  function SummaryOf(vms: seq<VM>): Summary {
    Summary(|vms|, RunningCount(vms), |RegionSet(vms)|)
  }

  /** Neither the running count nor the region count exceeds the total; a
      non-empty list spans at least one region. */
  lemma SummaryBounds(vms: seq<VM>)
    ensures SummaryOf(vms).running <= SummaryOf(vms).total
    ensures SummaryOf(vms).regions <= SummaryOf(vms).total
    ensures vms != [] ==> SummaryOf(vms).regions >= 1
    ensures SummaryOf(vms).running == SummaryOf(vms).total <==>
              forall i :: 0 <= i < |vms| ==> vms[i].status == Running
  {
    RunningCountSpec(vms);
  }

  // ---- The page ----

  class Page {
    const store: Store
    var updatingVMs: set<string>
    var detailsOpen: bool
    var cloneOpen: bool

    constructor (s: Store)
      ensures store == s && updatingVMs == {} && !detailsOpen && !cloneOpen
    {
      store := s;
      updatingVMs := {};
      detailsOpen := false;
      cloneOpen := false;
    }

    /** The "Change Status" button of a VM is disabled exactly while its update is in flight. */
    predicate StatusButtonDisabled(id: string)
      reads this
    {
      id in updatingVMs
    }

    /** `handleUpdateVMStatus`: the id is in the set for the duration of the
        store call (`during`) and leaves it afterwards; no other id changes
        membership. The store call never throws, so the removal always happens. */
    method HandleUpdateVMStatus(vmId: string, newStatus: Status, r: Outcome<VM>)
        returns (sent: Option<Request>, ghost during: set<string>)
      modifies this, store
      ensures during == old(updatingVMs) + {vmId}
      ensures updatingVMs == old(updatingVMs) - {vmId}
      ensures store.View() == UpdatedStatus(old(store.View()), vmId, newStatus, r).state
      ensures sent == UpdatedStatus(old(store.View()), vmId, newStatus, r).sent
      ensures detailsOpen == old(detailsOpen) && cloneOpen == old(cloneOpen)
      ensures !StatusButtonDisabled(vmId)
      ensures forall x :: x != vmId ==> (StatusButtonDisabled(x) <==> old(StatusButtonDisabled(x)))
    {
      updatingVMs := updatingVMs + {vmId};
      during := updatingVMs;
      sent := store.UpdateVMStatus(vmId, newStatus, r);
      updatingVMs := updatingVMs - {vmId};
    }

    /** `onDelete` of the details drawer: after a successful delete the drawer
        closes and the list is fetched again (with outcome `refetch`); after a
        failed one the drawer stays as it was and nothing is refetched. */
    method OnDelete(vmId: string, r: Outcome<()>, refetch: Outcome<seq<VM>>) returns (sent: seq<Request>)
      modifies this, store
      ensures var step := Deleted(old(store.View()), vmId, r);
              && (step.result.Success? ==>
                    !detailsOpen && store.View() == Fetched(refetch) &&
                    sent == (if step.sent.Some? then [step.sent.value] else []) + [ListAll])
              && (step.result.Failure? ==>
                    detailsOpen == old(detailsOpen) && store.View() == step.state &&
                    sent == (if step.sent.Some? then [step.sent.value] else []))
      ensures updatingVMs == old(updatingVMs) && cloneOpen == old(cloneOpen)
    {
      var result, deleteSent := store.DeleteVM(vmId, r);
      sent := if deleteSent.Some? then [deleteSent.value] else [];
      if result.Success? {
        detailsOpen := false;
        var listSent := store.FetchVMs(refetch);
        sent := sent + [listSent];
      }
    }

    /** `onClone` of the clone drawer: like `onDelete`, with `createVM`. Errors
        are caught here, so the call always returns normally. */
    method OnClone(data: VmData, localId: string, now: string, r: Outcome<VM>, refetch: Outcome<seq<VM>>)
        returns (sent: seq<Request>)
      modifies this, store
      ensures var step := Created(old(store.View()), data, localId, now, r);
              && (step.result.Success? ==>
                    !cloneOpen && store.View() == Fetched(refetch) &&
                    sent == (if step.sent.Some? then [step.sent.value] else []) + [ListAll])
              && (step.result.Failure? ==>
                    cloneOpen == old(cloneOpen) && store.View() == step.state &&
                    sent == (if step.sent.Some? then [step.sent.value] else []))
      ensures updatingVMs == old(updatingVMs) && detailsOpen == old(detailsOpen)
    {
      var result, createSent := store.CreateVM(data, localId, now, r);
      sent := if createSent.Some? then [createSent.value] else [];
      if result.Success? {
        cloneOpen := false;
        var listSent := store.FetchVMs(refetch);
        sent := sent + [listSent];
      }
    }

    /** A clone requested from the drawer on this page: the form's payload
        goes to `onClone`, which never throws, so the form is reset whether
        the create succeeded or not, and no alert is shown. An incomplete
        form sends nothing and keeps its values.

        The drawer awaits `onClone` before it resets the form; here the form
        is settled first. The order does not show in the end state: the form
        and the page with its store are distinct objects, and `onClone` reads
        only the payload, which both orders build from the form's values
        before any reset. */
    method CloneFromDrawer(form: CloneDrawer.CloneForm, dr: CloneDrawer.Draws, localId: string, now: string,
                           r: Outcome<VM>, refetch: Outcome<seq<VM>>)
        returns (payload: Option<VmData>, alerted: bool, sent: seq<Request>)
      modifies this, store, form
      ensures old(form.CanClone()) ==>
                payload == Some(CloneDrawer.Payload(old(form.cloneName), old(form.selectedRegion), old(form.autoStart), dr))
      ensures !old(form.CanClone()) ==>
                payload == None && sent == [] && store.View() == old(store.View()) && cloneOpen == old(cloneOpen)
      ensures old(form.CanClone()) ==>
                var step := Created(old(store.View()), payload.value, localId, now, r);
                && (step.result.Success? ==>
                      !cloneOpen && store.View() == Fetched(refetch) &&
                      sent == (if step.sent.Some? then [step.sent.value] else []) + [ListAll])
                && (step.result.Failure? ==>
                      cloneOpen == old(cloneOpen) && store.View() == step.state &&
                      sent == (if step.sent.Some? then [step.sent.value] else []))
      ensures !alerted
      ensures old(form.CanClone()) ==>
                form.cloneName == "" && form.selectedRegion == "" && form.includeData && !form.autoStart
      ensures !old(form.CanClone()) ==>
                form.cloneName == old(form.cloneName) && form.selectedRegion == old(form.selectedRegion) &&
                form.includeData == old(form.includeData) && form.autoStart == old(form.autoStart)
      ensures updatingVMs == old(updatingVMs) && detailsOpen == old(detailsOpen)
    {
      payload, alerted := form.HandleClone(dr, CloneDrawer.Returned);
      sent := [];
      if payload.Some? {
        sent := OnClone(payload.value, localId, now, r, refetch);
      }
    }
  }
}
