/** The client-side VM store (the `useVMs` hook): a cache of VM records, a
    loading flag, the last error and the fallback flag, changed by four
    operations. Each operation is given the outcome of the request it would
    send, so the store's behaviour is a function of its inputs.

    The settled effect of each operation is first stated as a function on a
    `State` value (`Fetched`, `UpdatedStatus`, `Created`, `Deleted`), whose
    contracts hold the properties; the `Store` class then performs the same
    steps on its fields and promises to end in that state. */
module VmStore {
  import opened Outcomes
  import opened VmModel
  import Text
  import Seqs

  /** The demo list shown when the service cannot be reached. */
  const FallbackVMs: seq<VM> := [
    VM("vm-001", "web-server-prod", "US East (N. Virginia)", Running, 75, 68, 45, "54.123.45.67", None, None),
    VM("vm-002", "database-primary", "EU West (Ireland)", Running, 45, 82, 67, "34.245.78.90", None, None),
    VM("vm-003", "api-gateway", "Asia Pacific (Tokyo)", Idling, 12, 25, 23, "13.114.56.78", None, None),
    VM("vm-004", "backup-server", "US West (Oregon)", Terminated, 0, 0, 89, "52.89.123.45", None, None),
    VM("vm-005", "dev-environment", "EU Central (Frankfurt)", Starting, 35, 40, 15, "18.195.67.89", None, None)
  ]

  /** The request an operation sends to the service. */
  datatype Request =
    | ListAll
    | PutStatus(id: string, status: Status, cpu: int, memory: int, storage: int)
    | PostVM(data: VmData)
    | DeleteById(id: string)

  datatype State = State(vms: seq<VM>, loading: bool, error: Option<string>, usingFallback: bool)

  /** The store's mode as the dashboard shows it. */
  datatype Mode = Loading | Live | Fallback

  function ModeOf(s: State): Mode {
    if s.loading then Loading else if s.usingFallback then Fallback else Live
  }

  /** The state after an operation, what it returned (or threw) and the request it sent, if any. */
  datatype Step<+T> = Step(state: State, result: T, sent: Option<Request>)

  const InitialState := State([], true, None, false)

  // ---- fetchVMs ----

  function FetchFailureMessage(r: Outcome<seq<VM>>): (m: string)
    requires !r.Ok?
    ensures r.HttpError? ==> m != ""
  {
    match r
    case HttpError(status, statusText, details) =>
      DetailsOr(details, "HTTP " + Text.NatToString(status) + ": " + statusText)
    case Rejected(t) => CaughtMessage(t, "An error occurred")
  }

  /** The settled state after `fetchVMs` got outcome r. Nothing of the state
      before the call survives: the call resets error and the fallback flag first. */
  function Fetched(r: Outcome<seq<VM>>): (t: State)
    ensures !t.loading
    ensures r.Ok? ==> t.vms == r.value && t.error == None && !t.usingFallback
    ensures !r.Ok? ==> t.vms == FallbackVMs && t.error == Some(FetchFailureMessage(r)) && t.usingFallback
    ensures ModeOf(t) == (if r.Ok? then Live else Fallback)
  {
    match r
    case Ok(data) => State(data, false, None, false)
    case _ => State(FallbackVMs, false, Some(FetchFailureMessage(r)), true)
  }

  // ---- updateVMStatus ----

  function UpdateFailureMessage(r: Outcome<VM>): string
    requires !r.Ok?
  {
    match r
    case HttpError(_, _, details) => DetailsOr(details, "Failed to update VM status")
    case Rejected(t) => CaughtMessage(t, "Failed to update VM")
  }

  /** `updateVMStatus` exactly as written: the optimistic write is reverted only
      when the response is not ok. A rejected request (or an unreadable body)
      goes straight to the catch clause and keeps the optimistic status. */
  function UpdatedStatusAsWritten(s: State, id: string, status: Status, r: Outcome<VM>): (t: Step<()>)
    ensures FindById(s.vms, id).None? ==> t.state == s && t.sent == None
    ensures FindById(s.vms, id).Some? && !s.usingFallback && r.Rejected? ==>
              t.state == s.(vms := SetStatus(s.vms, id, status), error := Some(UpdateFailureMessage(r)))
  {
    match FindById(s.vms, id)
    case None => Step(s, (), None)
    case Some(vm) =>
      var optimistic := SetStatus(s.vms, id, status);
      if s.usingFallback then Step(s.(vms := optimistic), (), None)
      else
        var sent := Some(PutStatus(id, status, vm.cpu, vm.memory, vm.storage));
        match r
        case Ok(server) => Step(s.(vms := ReplaceById(optimistic, id, server)), (), sent)
        case HttpError(_, _, _) =>
          Step(s.(vms := ReplaceById(optimistic, id, vm), error := Some(UpdateFailureMessage(r))), (), sent)
        case Rejected(_) =>
          Step(s.(vms := optimistic, error := Some(UpdateFailureMessage(r))), (), sent)
  }

  /** `updateVMStatus` with the rollback applied on every failed request.
      - An unknown id changes nothing and sends nothing.
      - In fallback mode the optimistic write is final and nothing is sent.
      - In live mode the request carries the old cpu, memory and storage;
        success adopts the server's copy; failure restores the records of that
        id (with unique ids: the whole list) and records the error.
      It never throws and never changes the loading or fallback flags. */
  function UpdatedStatus(s: State, id: string, status: Status, r: Outcome<VM>): (t: Step<()>)
    ensures t.state.loading == s.loading && t.state.usingFallback == s.usingFallback
    ensures FindById(s.vms, id).None? ==> t.state == s && t.sent == None
    ensures FindById(s.vms, id).Some? && s.usingFallback ==>
              t.sent == None && t.state == s.(vms := SetStatus(s.vms, id, status))
    ensures FindById(s.vms, id).Some? && !s.usingFallback ==>
              var vm := FindById(s.vms, id).value;
              && t.sent == Some(PutStatus(id, status, vm.cpu, vm.memory, vm.storage))
              && (r.Ok? ==> t.state == s.(vms := ReplaceById(s.vms, id, r.value)))
              && (!r.Ok? ==> t.state == s.(vms := ReplaceById(s.vms, id, vm), error := Some(UpdateFailureMessage(r))))
              && (!r.Ok? && UniqueIds(s.vms) ==> t.state.vms == s.vms)
  {
    match FindById(s.vms, id)
    case None => Step(s, (), None)
    case Some(vm) =>
      var optimistic := SetStatus(s.vms, id, status);
      if s.usingFallback then Step(s.(vms := optimistic), (), None)
      else
        var sent := Some(PutStatus(id, status, vm.cpu, vm.memory, vm.storage));
        ReplaceAfterSetStatus(s.vms, id, status, vm);
        ReplaceWithFoundRestores(s.vms, id);
        match r
        case Ok(server) =>
          ReplaceAfterSetStatus(s.vms, id, status, server);
          Step(s.(vms := ReplaceById(optimistic, id, server)), (), sent)
        case _ =>
          Step(s.(vms := ReplaceById(optimistic, id, vm), error := Some(UpdateFailureMessage(r))), (), sent)
  }

  // ---- createVM ----

  function CreateFailureMessage(r: Outcome<VM>): string
    requires !r.Ok?
  {
    match r
    case HttpError(_, _, details) => DetailsOr(details, "Failed to create VM")
    case Rejected(t) => CaughtMessage(t, "Failed to create VM")
  }

  /** The record the fallback mode makes up: the given data, the local id and
      the same timestamp for creation and update. */
  function LocalRecord(data: VmData, localId: string, now: string): VM {
    VM(localId, data.name, data.region, data.status, data.cpu, data.memory, data.storage,
       data.ipAddress, Some(now), Some(now))
  }

  /** `createVM`: on success (either mode) the new record is put in front of
      the cache, which grows by one; in live mode a failure leaves the cache
      alone, records the error and throws. Nothing is sent in fallback mode. */
  function Created(s: State, data: VmData, localId: string, now: string, r: Outcome<VM>): (t: Step<Result<VM>>)
    ensures t.state.loading == s.loading && t.state.usingFallback == s.usingFallback
    ensures t.result.Success? ==> t.state == s.(vms := [t.result.value] + s.vms) && |t.state.vms| == |s.vms| + 1
    ensures t.result.Failure? ==> t.state == s.(error := Some(t.result.message))
    ensures s.usingFallback ==> t.sent == None && t.result == Success(LocalRecord(data, localId, now))
    ensures !s.usingFallback ==> t.sent == Some(PostVM(data))
    ensures !s.usingFallback ==> (t.result.Success? <==> r.Ok?)
    ensures !s.usingFallback && r.Ok? ==> t.result.value == r.value
    ensures !s.usingFallback && !r.Ok? ==> t.result == Failure(CreateFailureMessage(r))
  {
    if s.usingFallback then
      var v := LocalRecord(data, localId, now);
      Step(s.(vms := [v] + s.vms), Success(v), None)
    else
      var sent := Some(PostVM(data));
      match r
      case Ok(v) => Step(s.(vms := [v] + s.vms), Success(v), sent)
      case _ =>
        var m := CreateFailureMessage(r);
        Step(s.(error := Some(m)), Failure(m), sent)
  }

  // ---- deleteVM ----

  function DeleteFailureMessage(r: Outcome<()>): string
    requires !r.Ok?
  {
    match r
    case HttpError(_, _, details) => DetailsOr(details, "Failed to delete VM")
    case Rejected(t) => CaughtMessage(t, "Failed to delete VM")
  }

  /** `deleteVM`: in fallback mode the records of that id leave the cache at
      once; in live mode only after the service confirmed, and a failure leaves
      the cache alone, records the error and throws. */
  function Deleted(s: State, id: string, r: Outcome<()>): (t: Step<Result<()>>)
    ensures t.state.loading == s.loading && t.state.usingFallback == s.usingFallback
    ensures t.result.Success? ==> t.state == s.(vms := RemoveById(s.vms, id))
    ensures t.result.Failure? ==> t.state == s.(error := Some(t.result.message))
    ensures s.usingFallback ==> t.sent == None && t.result.Success?
    ensures !s.usingFallback ==> t.sent == Some(DeleteById(id)) && (t.result.Success? <==> r.Ok?)
    ensures !s.usingFallback && !r.Ok? ==> t.result == Failure(DeleteFailureMessage(r))
  {
    if s.usingFallback then Step(s.(vms := RemoveById(s.vms, id)), Success(()), None)
    else
      var sent := Some(DeleteById(id));
      match r
      case Ok(_) => Step(s.(vms := RemoveById(s.vms, id)), Success(()), sent)
      case _ =>
        var m := DeleteFailureMessage(r);
        Step(s.(error := Some(m)), Failure(m), sent)
  }

  // ---- Properties across operations ----

  /** Only `fetchVMs` moves the store between live and fallback mode: the
      three mutations keep the mode whatever their outcome. */
  lemma MutationsKeepMode(s: State, id: string, status: Status, data: VmData, localId: string, now: string,
                          ru: Outcome<VM>, rc: Outcome<VM>, rd: Outcome<()>)
    ensures ModeOf(UpdatedStatus(s, id, status, ru).state) == ModeOf(s)
    ensures ModeOf(Created(s, data, localId, now, rc).state) == ModeOf(s)
    ensures ModeOf(Deleted(s, id, rd).state) == ModeOf(s)
    ensures ModeOf(UpdatedStatusAsWritten(s, id, status, ru).state) == ModeOf(s)
  {
  }

  /** The update as written differs from the corrected rule only on a rejected
      request in live mode for a known id: on every other path (unknown id,
      fallback mode, success, an HTTP error) both give the same state and
      send the same request. */
  lemma AsWrittenAgrees(s: State, id: string, status: Status, r: Outcome<VM>)
    requires !(FindById(s.vms, id).Some? && !s.usingFallback && r.Rejected?)
    ensures UpdatedStatusAsWritten(s, id, status, r) == UpdatedStatus(s, id, status, r)
  {
  }

  /** A manual retry leaves fallback mode as soon as the list can be fetched,
      and the cache then holds exactly the server's list. */
  lemma RetryLeavesFallback(failure: Outcome<seq<VM>>, data: seq<VM>)
    requires !failure.Ok?
    ensures ModeOf(Fetched(failure)) == Fallback && Fetched(failure).vms == FallbackVMs
    ensures Fetched(Ok(data)) == State(data, false, None, false)
  {
  }

  /** In fallback mode a delete of a demo record or a clone does change the
      cache, but the dashboard follows each with a refetch, and when that
      fetch fails again the cache is reset to the demo list: the deleted
      record comes back and the clone disappears. */
  lemma FallbackEditsLostOnRefetch(f: Outcome<seq<VM>>, g: Outcome<seq<VM>>, id: string, rd: Outcome<()>,
                                   data: VmData, localId: string, now: string, rc: Outcome<VM>)
    requires !f.Ok? && !g.Ok?
    ensures FindById(FallbackVMs, id).Some? ==> Deleted(Fetched(f), id, rd).state.vms != Fetched(f).vms
    ensures Created(Fetched(f), data, localId, now, rc).state.vms != Fetched(f).vms
    ensures Fetched(g).vms == Fetched(f).vms == FallbackVMs
  {
    var s := Fetched(f);
    FallbackDeleteChanges(s, id, rd);
    FallbackCreateChanges(s, data, localId, now, rc);
  }

  lemma FallbackDeleteChanges(s: State, id: string, rd: Outcome<()>)
    requires s.usingFallback
    ensures FindById(s.vms, id).Some? ==> Deleted(s, id, rd).state.vms != s.vms
  {
    if FindById(s.vms, id).Some? {
      var k :| 0 <= k < |s.vms| && s.vms[k].id == id;
      Seqs.FilterDrops(s.vms, OtherId(id), k);
    }
  }

  lemma FallbackCreateChanges(s: State, data: VmData, localId: string, now: string, rc: Outcome<VM>)
    requires s.usingFallback
    ensures Created(s, data, localId, now, rc).state.vms != s.vms
  {
    assert |Created(s, data, localId, now, rc).state.vms| == |s.vms| + 1;
  }

  /** Once a fetch has failed, no mutation sends a request. */
  lemma FallbackSendsNothing(failure: Outcome<seq<VM>>, id: string, status: Status, data: VmData,
                             localId: string, now: string, ru: Outcome<VM>, rc: Outcome<VM>, rd: Outcome<()>)
    requires !failure.Ok?
    ensures UpdatedStatus(Fetched(failure), id, status, ru).sent == None
    ensures Created(Fetched(failure), data, localId, now, rc).sent == None
    ensures Deleted(Fetched(failure), id, rd).sent == None
  {
  }

  /** The demo list has five records with distinct ids. */
  lemma FallbackIdsUnique()
    ensures |FallbackVMs| == 5 && UniqueIds(FallbackVMs)
  {
    forall i, j | 0 <= i < j < 5 ensures FallbackVMs[i].id != FallbackVMs[j].id {
      assert FallbackVMs[i].id[5] != FallbackVMs[j].id[5];
    }
  }

  /** Two of the demo records are Running: the dashboard opens on "2 running". */
  lemma FallbackRunning()
    ensures RunningCount(FallbackVMs) == 2
  {
    var v := FallbackVMs;
    assert v[0].status == Running && v[1].status == Running;
    assert v[2].status == Idling && v[3].status == Terminated && v[4].status == Starting;
    RunningTally(v[0], v[1], v[2], v[3], v[4]);
    assert v == [v[0], v[1], v[2], v[3], v[4]];
  }

  lemma RunningTally(a: VM, b: VM, c: VM, d: VM, e: VM)
    requires a.status == Running && b.status == Running
    requires c.status != Running && d.status != Running && e.status != Running
    ensures RunningCount([a, b, c, d, e]) == 2
  {
    RunningCountCons(e, []);
    RunningCountCons(d, [e]);
    RunningCountCons(c, [d, e]);
    RunningCountCons(b, [c, d, e]);
    RunningCountCons(a, [b, c, d, e]);
  }

  /** The running count of a list is its first record's contribution plus the rest's. */
  lemma RunningCountCons(v: VM, rest: seq<VM>)
    ensures RunningCount([v] + rest) == (if v.status == Running then 1 else 0) + RunningCount(rest)
  {
    assert ([v] + rest)[1..] == rest;
  }

  /** Each demo record sits in one of the five named regions. */
  lemma FallbackRegions()
    ensures forall i :: 0 <= i < |FallbackVMs| ==> FallbackVMs[i].region in RegionNames
  {
  }

  /** The finding about `updateVMStatus`: a live-mode update whose request is
      rejected keeps the optimistic status as written, while the rollback the
      code's comment and the error path intend restores the record. */
  lemma RejectedUpdateKeepsOptimisticStatus()
    ensures var vm := FallbackVMs[0];
            var s := State([vm], false, None, false);
            var r: Outcome<VM> := Rejected(ErrorObj("Failed to fetch"));
            && UpdatedStatusAsWritten(s, vm.id, Terminated, r).state.vms[0].status == Terminated
            && UpdatedStatusAsWritten(s, vm.id, Terminated, r).state.vms != s.vms
            && UpdatedStatus(s, vm.id, Terminated, r).state.vms == s.vms
  {
    var vm := FallbackVMs[0];
    var s := State([vm], false, None, false);
    assert FindById(s.vms, vm.id) == Some(vm);
  }

  // ---- The store object ----

  class Store {
    var vms: seq<VM>
    var loading: bool
    var error: Option<string>
    var usingFallback: bool

    function View(): State
      reads this
    {
      State(vms, loading, error, usingFallback)
    }

    constructor ()
      ensures View() == InitialState
    {
      vms, loading, error, usingFallback := [], true, None, false;
    }

    method FetchVMs(r: Outcome<seq<VM>>) returns (sent: Request)
      modifies this
      ensures View() == Fetched(r) && sent == ListAll
    {
      loading := true;
      error := None;
      usingFallback := false;
      sent := ListAll;
      match r {
        case Ok(data) =>
          vms := data;
        case _ =>
          error := Some(FetchFailureMessage(r));
          vms := FallbackVMs;
          usingFallback := true;
      }
      loading := false;
    }

    method UpdateVMStatus(id: string, status: Status, r: Outcome<VM>) returns (sent: Option<Request>)
      modifies this
      ensures View() == UpdatedStatus(old(View()), id, status, r).state
      ensures sent == UpdatedStatus(old(View()), id, status, r).sent
    {
      var found := FindById(vms, id);
      if found.None? {
        return None;
      }
      var vm := found.value;
      vms := SetStatus(vms, id, status);
      if usingFallback {
        return None;
      }
      sent := Some(PutStatus(id, status, vm.cpu, vm.memory, vm.storage));
      match r
      case Ok(server) =>
        vms := ReplaceById(vms, id, server);
      case _ =>
        vms := ReplaceById(vms, id, vm);
        error := Some(UpdateFailureMessage(r));
    }

    method CreateVM(data: VmData, localId: string, now: string, r: Outcome<VM>)
      returns (result: Result<VM>, sent: Option<Request>)
      modifies this
      ensures View() == Created(old(View()), data, localId, now, r).state
      ensures result == Created(old(View()), data, localId, now, r).result
      ensures sent == Created(old(View()), data, localId, now, r).sent
    {
      if usingFallback {
        var v := LocalRecord(data, localId, now);
        vms := [v] + vms;
        return Success(v), None;
      }
      sent := Some(PostVM(data));
      match r
      case Ok(v) =>
        vms := [v] + vms;
        result := Success(v);
      case _ =>
        var m := CreateFailureMessage(r);
        error := Some(m);
        result := Failure(m);
    }

    method DeleteVM(id: string, r: Outcome<()>) returns (result: Result<()>, sent: Option<Request>)
      modifies this
      ensures View() == Deleted(old(View()), id, r).state
      ensures result == Deleted(old(View()), id, r).result
      ensures sent == Deleted(old(View()), id, r).sent
    {
      if usingFallback {
        vms := RemoveById(vms, id);
        return Success(()), None;
      }
      sent := Some(DeleteById(id));
      match r
      case Ok(_) =>
        vms := RemoveById(vms, id);
        result := Success(());
      case _ =>
        var m := DeleteFailureMessage(r);
        error := Some(m);
        result := Failure(m);
    }
  }
}
