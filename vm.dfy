/** The VM record and the list rules every view of the dashboard shares:
    look a record up by id, change the status of the records with an id,
    replace or remove them, count the running ones, and the rules of the
    "Change Status" menu. */
module VmModel {
  import opened Outcomes
  import opened Seqs

  datatype Status = Running | Idling | Terminated | Starting | Stopping

  /** A VM record. Resource usages are integers with no bound; the two
      timestamps are optional in the client (the demo records have none). */
  datatype VM = VM(
    id: string,
    name: string,
    region: string,
    status: Status,
    cpu: int,
    memory: int,
    storage: int,
    ipAddress: string,
    createdAt: Option<string>,
    updatedAt: Option<string>)

  /** A VM without its id and timestamps: what a create request carries. */
  datatype VmData = VmData(
    name: string,
    region: string,
    status: Status,
    cpu: int,
    memory: int,
    storage: int,
    ipAddress: string)

  /** The five region names, in the order the map and the clone form list them. */
  const RegionNames: seq<string> := [
    "US East (N. Virginia)",
    "US West (Oregon)",
    "EU West (Ireland)",
    "EU Central (Frankfurt)",
    "Asia Pacific (Tokyo)"
  ]

  predicate UniqueIds(vms: seq<VM>) {
    forall i, j :: 0 <= i < j < |vms| ==> vms[i].id != vms[j].id
  }

  /** Index of the first record with that id, or |vms| when there is none. */
  function FirstIndex(vms: seq<VM>, id: string): (k: nat)
    ensures k <= |vms|
    ensures forall j :: 0 <= j < k ==> vms[j].id != id
    ensures k < |vms| ==> vms[k].id == id
    decreases |vms|
  {
    if vms == [] then 0
    else if vms[0].id == id then 0
    else 1 + FirstIndex(vms[1..], id)
  }

  /** `vms.find((v) => v.id === id)`. */
  function FindById(vms: seq<VM>, id: string): (r: Option<VM>)
    ensures r.None? <==> forall i :: 0 <= i < |vms| ==> vms[i].id != id
    ensures r.Some? ==> r.value.id == id && r.value in vms
    ensures r.Some? ==> exists k :: 0 <= k < |vms| && vms[k] == r.value &&
                                    forall j :: 0 <= j < k ==> vms[j].id != id
  {
    var k := FirstIndex(vms, id);
    if k < |vms| then Some(vms[k]) else None
  }

  /** `vms.map((v) => (v.id === id ? { ...v, status } : v))`. */
  function SetStatus(vms: seq<VM>, id: string, status: Status): (r: seq<VM>)
    ensures |r| == |vms|
    ensures forall i :: 0 <= i < |vms| ==>
              r[i] == if vms[i].id == id then vms[i].(status := status) else vms[i]
  {
    seq(|vms|, i requires 0 <= i < |vms| =>
      if vms[i].id == id then vms[i].(status := status) else vms[i])
  }

  /** `vms.map((v) => (v.id === id ? vm : v))`. */
  function ReplaceById(vms: seq<VM>, id: string, vm: VM): (r: seq<VM>)
    ensures |r| == |vms|
    ensures forall i :: 0 <= i < |vms| ==> r[i] == if vms[i].id == id then vm else vms[i]
  {
    seq(|vms|, i requires 0 <= i < |vms| => if vms[i].id == id then vm else vms[i])
  }

  function OtherId(id: string): VM -> bool {
    (v: VM) => v.id != id
  }

  /** `vms.filter((v) => v.id !== id)`. */
  function RemoveById(vms: seq<VM>, id: string): seq<VM> {
    Filter(vms, OtherId(id))
  }

  function IsRunning(): VM -> bool {
    (v: VM) => v.status == Running
  }

  /** `vms.filter((vm) => vm.status === "Running").length`. */
  function RunningCount(vms: seq<VM>): nat {
    |Filter(vms, IsRunning())|
  }

  // ---- Properties of the list rules ----

  /** A status change keeps the list's length and order, gives the new status to
      exactly the records with that id and leaves every other field alone. */
  lemma SetStatusOnlyStatus(vms: seq<VM>, id: string, status: Status, i: nat)
    requires i < |vms|
    ensures |SetStatus(vms, id, status)| == |vms|
    ensures SetStatus(vms, id, status)[i].status == if vms[i].id == id then status else vms[i].status
    ensures SetStatus(vms, id, status)[i].(status := vms[i].status) == vms[i]
  {
  }

  /** An id that matches no record leaves the list unchanged. */
  lemma {:induction false} SetStatusUnknownId(vms: seq<VM>, id: string, status: Status)
    requires FindById(vms, id).None?
    ensures SetStatus(vms, id, status) == vms
  {
    assert forall i :: 0 <= i < |vms| ==> SetStatus(vms, id, status)[i] == vms[i];
  }

  /** Applying the same status change twice is the same as applying it once. */
  lemma {:induction false} SetStatusIdempotent(vms: seq<VM>, id: string, status: Status)
    ensures SetStatus(SetStatus(vms, id, status), id, status) == SetStatus(vms, id, status)
  {
    var once := SetStatus(vms, id, status);
    assert forall i :: 0 <= i < |vms| ==> SetStatus(once, id, status)[i] == once[i];
  }

  /** Replacing the records of an id after a status change on that id is the
      same as replacing them in the original list: the status change is lost. */
  lemma ReplaceAfterSetStatus(vms: seq<VM>, id: string, status: Status, vm: VM)
    ensures ReplaceById(SetStatus(vms, id, status), id, vm) == ReplaceById(vms, id, vm)
  {
    assert forall i :: 0 <= i < |vms| ==>
      ReplaceById(SetStatus(vms, id, status), id, vm)[i] == ReplaceById(vms, id, vm)[i];
  }

  /** When ids are unique, writing back the record found for an id restores the list. */
  lemma {:induction false} ReplaceWithFoundRestores(vms: seq<VM>, id: string)
    requires FindById(vms, id).Some?
    ensures UniqueIds(vms) ==> ReplaceById(vms, id, FindById(vms, id).value) == vms
  {
    if UniqueIds(vms) {
      var k := FirstIndex(vms, id);
      assert forall i :: 0 <= i < |vms| ==> ReplaceById(vms, id, vms[k])[i] == vms[i];
    }
  }

  /** Removal keeps every record of another id, as often as it occurred, and no
      record of the removed id; it keeps their order (it distributes over
      concatenation); removing twice is removing once. */
  lemma RemoveByIdSpec(vms: seq<VM>, id: string, a: seq<VM>, b: seq<VM>)
    ensures forall i :: 0 <= i < |RemoveById(vms, id)| ==> RemoveById(vms, id)[i].id != id
    ensures forall v: VM :: v.id != id ==> multiset(RemoveById(vms, id))[v] == multiset(vms)[v]
    ensures FindById(vms, id).None? ==> RemoveById(vms, id) == vms
    ensures RemoveById(a + b, id) == RemoveById(a, id) + RemoveById(b, id)
    ensures RemoveById(RemoveById(vms, id), id) == RemoveById(vms, id)
  {
    if FindById(vms, id).None? {
      FilterKeepsAll(vms, OtherId(id));
    }
    FilterConcat(a, b, OtherId(id));
    FilterIdempotent(vms, OtherId(id));
    FilterMultiset(vms, OtherId(id));
  }

  /** The running count never exceeds the total; it equals the total exactly
      when every record is Running and is 0 exactly when none is. */
  lemma RunningCountSpec(vms: seq<VM>)
    ensures RunningCount(vms) <= |vms|
    ensures RunningCount(vms) == |vms| <==> forall i :: 0 <= i < |vms| ==> vms[i].status == Running
    ensures RunningCount(vms) == 0 <==> forall i :: 0 <= i < |vms| ==> vms[i].status != Running
  {
    FilterFull(vms, IsRunning());
    FilterEmpty(vms, IsRunning());
  }

  // ---- The "Change Status" menu ----

  /** The four entries of the status menu. */
  datatype MenuItem = Start | Idle | Stop | Terminate

  /** The status an entry asks for. */
  function Target(item: MenuItem): Status {
    match item
    case Start => Running
    case Idle => Idling
    case Stop => Stopping
    case Terminate => Terminated
  }

  /** Whether an entry is greyed out for a VM in the given status. */
  function MenuItemDisabled(item: MenuItem, current: Status): (disabled: bool)
    ensures Target(item) == current ==> disabled
  {
    match item
    case Start => current == Running
    case Idle => current == Idling
    case Stop => current == Terminated || current == Stopping
    case Terminate => current == Terminated
  }

  /** An entry that can be chosen never asks for the status the VM already has;
      the only entry disabled for another reason is Stop on a Terminated VM. */
  lemma ChosenTargetDiffers(item: MenuItem, current: Status)
    ensures !MenuItemDisabled(item, current) ==> Target(item) != current
    ensures MenuItemDisabled(item, current) <==>
              Target(item) == current || (item == Stop && current == Terminated)
  {
  }

  // ---- Resource usage bands ----

  /** The three bands a usage percentage is coloured by: 80 and above, 60 up
      to 80, below 60. */
  datatype Band = Low | Medium | High

  function UsageBand(usage: int): (b: Band)
    ensures b == High <==> usage >= 80
    ensures b == Medium <==> 60 <= usage < 80
    ensures b == Low <==> usage < 60
  {
    if usage >= 80 then High else if usage >= 60 then Medium else Low
  }

  function BandRank(b: Band): nat {
    match b
    case Low => 0
    case Medium => 1
    case High => 2
  }

  /** A higher usage never falls in a lower band. */
  lemma BandMonotone(u: int, v: int)
    requires u <= v
    ensures BandRank(UsageBand(u)) <= BandRank(UsageBand(v))
  {
  }
}
