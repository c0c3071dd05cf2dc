/** The claim/release protocol as a step machine.

    Two parts of the state survive a crash: the audit table (`log`) and the outside world (`live`, the
    resources some claim created and nobody has removed). The rest is one process: the resource keys it
    has attempted, its halted flag, the holder of the operation mutex and one program counter per
    goroutine. An `Action` names the step and resolves every nondeterministic choice in it, so a run is a
    sequence of actions.

    The proof token of an attempt is drawn at random and written into exactly one audit row before the
    provider is called; the model identifies the token with the index of that row. */
module ClaimProtocol {
  import opened Options

  type Thread = nat
  type RowId = nat

  datatype Status =
    | Unsupported
    | Attempting
    | ClaimSucceeded
    | ClaimFailed
    | ReleasePending
    | ReleaseSucceeded
    | ReleaseFailed

  datatype Resource = Resource(provider: string, id: string)

  /** The receipt column. `id == ""` is the provisional receipt, which carries only the proof token. */
  datatype Receipt = Receipt(provider: string, id: string)

  datatype Row = Row(provider: string, status: Status, receipt: Option<Receipt>)

  /** The rows the recovery query returns: an open status and a receipt column that is not empty. */
  predicate Pending(row: Row) {
    && (row.status.Attempting? || row.status.ClaimSucceeded? || row.status.ReleasePending? || row.status.ReleaseFailed?)
    && row.receipt.Some?
  }

  /** The engine encodes a receipt only when it has an external id; the table stores what it is given. */
  function Updated(row: Row, status: Status, receipt: Receipt): Row {
    row.(status := status, receipt := if receipt.id == "" then None else Some(receipt))
  }

  /** Outcome of one store write: it may fail, and a write reported as failed may still have happened. */
  datatype Write = Applied | Lost | AppliedUnacknowledged

  /** What `provider.Claim` returns. `Invalid` is a success whose receipt fails the engine's check. */
  datatype Report =
    | Accepted(id: string)
    | Rejected
    | Partial(id: string)
    | Anonymous
    | Invalid(id: string)

  datatype Phase =
    | MarkFailed
    | MarkInvalid
    | MarkSucceeded
    | Verifying
    | MarkPending
    | Releasing
    | MarkReleased
    | MarkReleaseFailed

  datatype Snapshot = Snapshot(id: RowId, row: Row)

  datatype Job = Claiming | Sweep(todo: seq<Snapshot>, failed: bool)

  datatype PC =
    | Waiting(key: string, target: Option<string>)
    | WaitingToReconcile
    | NoProvider
    | Opening(key: string, provider: string)
    | Calling(row: RowId, provider: string, made: Option<string>)
    | Querying
    | Sweeping(todo: seq<Snapshot>, failed: bool)
    | Handling(row: RowId, receipt: Receipt, phase: Phase, job: Job)

  /** `started` lists the keys whose claim this process started and `created` every creation so far; no step
      depends on either. */
  datatype State = State(
    log: seq<Row>,
    live: map<Resource, RowId>,
    attempted: set<string>,
    started: seq<string>,
    halted: bool,
    holder: Option<Thread>,
    pc: map<Thread, PC>,
    created: set<(Resource, RowId)>)

  const Init := State([], map[], {}, [], false, None, map[], {})

  datatype Action =
    | Call(t: Thread, key: string, provider: Option<string>)
    | CallReconcile(t: Thread)
    | Enter(t: Thread)
    | NoteUnsupported(t: Thread, w: Write)
    | Open(t: Thread, w: Write)
    | Create(t: Thread, id: string)
    | Withdraw(t: Thread)
    | Return(t: Thread, report: Report)
    | Persist(t: Thread, w: Write)
    | Verify(t: Thread)
    | Release(t: Thread, ok: bool, removed: bool)
    | Query(t: Thread, ok: bool)
    | Skip(t: Thread)
    | Recover(t: Thread, found: Option<string>)
    | Resume(t: Thread)
    | Finish(t: Thread)
    | Vanish(gone: Resource)
    | Crash

  /** The ways a provider may break the contract the engine relies on. */
  datatype Contract = Contract(
    leaks: bool,       // a claim error that is not a ClaimFailure leaves the resource behind
    invalid: bool,     // a claim reports success with a receipt the engine rejects
    misnames: bool,    // a claim receipt names something other than the created resource
    forgets: bool,     // recovery answers not found although the resource is live
    misrecovers: bool, // recovery finds a resource that is not the attempt's
    lies: bool)        // a release reports success and the resource stays

  const Honest := Contract(false, false, false, false, false, false)

  // ---------------------------------------------------------------- steps

  /** Leaves the engine: releases the mutex, optionally after halting. */
  function Leave(s: State, t: Thread, halt: bool): State {
    s.(pc := s.pc - {t}, holder := None, halted := s.halted || halt)
  }

  function Goto(s: State, t: Thread, pc: PC): State {
    s.(pc := s.pc[t := pc])
  }

  predicate NoneLive(live: map<Resource, RowId>, row: RowId) {
    forall res | res in live :: live[res] != row
  }

  function EnterStep(s: State, t: Thread): Option<State> {
    if t !in s.pc || s.holder.Some? then None
    else match s.pc[t]
      case Waiting(key, provider) =>
        if s.halted || (provider.Some? && key in s.attempted) then Some(Leave(s, t, false))
        else if provider.None? then Some(Goto(s, t, NoProvider).(holder := Some(t)))
        else Some(Goto(s, t, Opening(key, provider.value)).(holder := Some(t), attempted := s.attempted + {key}))
      case WaitingToReconcile => Some(Goto(s, t, Querying).(holder := Some(t)))
      case _ => None
  }

  function OpenStep(s: State, t: Thread, w: Write): Option<State> {
    if t !in s.pc || !s.pc[t].Opening? then None
    else
      var provider := s.pc[t].provider;
      var row := Row(provider, Attempting, Some(Receipt(provider, "")));
      var log := if w.Lost? then s.log else s.log + [row];
      if w.Applied? then
        Some(Goto(s, t, Calling(|s.log|, provider, None)).(log := log, started := s.started + [s.pc[t].key]))
      else
        Some(Leave(s, t, false).(log := log))
  }

  function CreateStep(s: State, t: Thread, id: string): Option<State> {
    if t !in s.pc || !s.pc[t].Calling? || s.pc[t].made.Some? || id == "" then None
    else
      var res := Resource(s.pc[t].provider, id);
      if res in s.live then None
      else
        var row := s.pc[t].row;
        Some(Goto(s, t, Calling(row, s.pc[t].provider, Some(id)))
             .(live := s.live[res := row], created := s.created + {(res, row)}))
  }

  function WithdrawStep(s: State, t: Thread): Option<State> {
    if t !in s.pc || !s.pc[t].Calling? || s.pc[t].made.None? then None
    else
      var res := Resource(s.pc[t].provider, s.pc[t].made.value);
      Some(Goto(s, t, Calling(s.pc[t].row, s.pc[t].provider, None)).(live := s.live - {res}))
  }

  function ReturnStep(c: Contract, s: State, t: Thread, report: Report): Option<State> {
    if t !in s.pc || !s.pc[t].Calling? then None
    else
      var Calling(row, provider, made) := s.pc[t];
      match report
      case Accepted(id) =>
        if id != "" && (made == Some(id) || c.misnames)
        then Some(Goto(s, t, Handling(row, Receipt(provider, id), MarkSucceeded, Claiming))) else None
      case Partial(id) =>
        if id != "" && (made == Some(id) || c.misnames)
        then Some(Goto(s, t, Handling(row, Receipt(provider, id), MarkPending, Claiming))) else None
      case Rejected =>
        if NoneLive(s.live, row) || c.leaks
        then Some(Goto(s, t, Handling(row, Receipt(provider, ""), MarkFailed, Claiming))) else None
      case Anonymous => Some(Leave(s, t, true))
      case Invalid(id) =>
        if c.invalid then Some(Goto(s, t, Handling(row, Receipt(provider, id), MarkInvalid, Claiming))) else None
  }

  function StatusOf(phase: Phase): Status {
    match phase
    case MarkFailed => ClaimFailed
    case MarkInvalid => Attempting
    case MarkSucceeded => ClaimSucceeded
    case MarkReleased => ReleaseSucceeded
    case MarkReleaseFailed => ReleaseFailed
    case _ => ReleasePending
  }

  /** The receipt passed to `update`: neither a failed claim nor the provisional receipt has an external id. */
  function WrittenReceipt(phase: Phase, receipt: Receipt): Receipt {
    if phase.MarkFailed? || phase.MarkInvalid? then receipt.(id := "") else receipt
  }

  /** Where `Execute` goes after a store write. */
  function AfterWriteClaiming(s: State, t: Thread, ack: bool): State
    requires t in s.pc && s.pc[t].Handling?
  {
    var h := s.pc[t];
    match h.phase
    case MarkFailed => Leave(s, t, false)
    case MarkInvalid => if h.receipt.id == "" then Leave(s, t, true) else Goto(s, t, h.(phase := Releasing))
    case MarkSucceeded => Goto(s, t, h.(phase := if ack then Verifying else Releasing))
    case MarkReleased => Leave(s, t, false)
    case MarkReleaseFailed => Leave(s, t, true)
    case _ => Goto(s, t, h.(phase := Releasing))
  }

  /** Where `Reconcile` goes after a store write. */
  function AfterWriteSweeping(s: State, t: Thread, ack: bool): State
    requires t in s.pc && s.pc[t].Handling? && s.pc[t].job.Sweep?
  {
    var h := s.pc[t];
    var next := Sweeping(h.job.todo, h.job.failed || !ack || h.phase.MarkReleaseFailed?);
    match h.phase
    case MarkSucceeded => Goto(s, t, if ack then h.(phase := MarkPending) else next)
    case MarkPending => Goto(s, t, if ack then h.(phase := Releasing) else next)
    case _ => Goto(s, t, next)
  }

  function PersistStep(s: State, t: Thread, w: Write): Option<State> {
    if t !in s.pc || !s.pc[t].Handling? || s.pc[t].phase.Verifying? || s.pc[t].phase.Releasing? then None
    else
      var h := s.pc[t];
      if h.row >= |s.log| then None
      else
        var row := Updated(s.log[h.row], StatusOf(h.phase), WrittenReceipt(h.phase, h.receipt));
        var s1 := if w.Lost? then s else s.(log := s.log[h.row := row]);
        Some(if h.job.Claiming? then AfterWriteClaiming(s1, t, w.Applied?) else AfterWriteSweeping(s1, t, w.Applied?))
  }

  function VerifyStep(s: State, t: Thread): Option<State> {
    if t !in s.pc || !s.pc[t].Handling? || !s.pc[t].phase.Verifying? then None
    else Some(Goto(s, t, s.pc[t].(phase := MarkPending)))
  }

  function ReleaseStep(c: Contract, s: State, t: Thread, ok: bool, removed: bool): Option<State> {
    if t !in s.pc || !s.pc[t].Handling? || !s.pc[t].phase.Releasing? then None
    else
      var h := s.pc[t];
      var res := Resource(h.receipt.provider, h.receipt.id);
      if ok && !removed && res in s.live && !c.lies then None
      else
        var s1 := if removed then s.(live := s.live - {res}) else s;
        Some(Goto(s1, t, h.(phase := if ok then MarkReleased else MarkReleaseFailed)))
  }

  function Snapshots(log: seq<Row>, from: nat): seq<Snapshot>
    requires from <= |log|
    decreases |log| - from
  {
    if from == |log| then []
    else (if Pending(log[from]) then [Snapshot(from, log[from])] else []) + Snapshots(log, from + 1)
  }

  function QueryStep(s: State, t: Thread, ok: bool): Option<State> {
    if t !in s.pc || !s.pc[t].Querying? then None
    else if ok then Some(Goto(s, t, Sweeping(Snapshots(s.log, 0), false)))
    else Some(Leave(s, t, true))
  }

  /** A pending row that cannot be handled: unknown provider, unreadable receipt, no recovery, or an error. */
  function SkipStep(s: State, t: Thread): Option<State> {
    if t !in s.pc || !s.pc[t].Sweeping? || s.pc[t].todo == [] then None
    else Some(Goto(s, t, Sweeping(s.pc[t].todo[1..], true)))
  }

  function RecoverStep(c: Contract, s: State, t: Thread, found: Option<string>): Option<State> {
    if t !in s.pc || !s.pc[t].Sweeping? || s.pc[t].todo == [] || !s.pc[t].todo[0].row.status.Attempting? then None
    else
      var Snapshot(id, row) := s.pc[t].todo[0];
      var job := Sweep(s.pc[t].todo[1..], s.pc[t].failed);
      match found
      case None =>
        if NoneLive(s.live, id) || c.forgets
        then Some(Goto(s, t, Handling(id, Receipt(row.provider, ""), MarkFailed, job))) else None
      case Some(name) =>
        var res := Resource(row.provider, name);
        if name != "" && ((res in s.live && s.live[res] == id) || c.misrecovers)
        then Some(Goto(s, t, Handling(id, Receipt(row.provider, name), MarkSucceeded, job))) else None
  }

  /** A pending row past ATTEMPTING: its stored receipt is released, unless it lacks an external id. */
  function ResumeStep(s: State, t: Thread): Option<State> {
    if t !in s.pc || !s.pc[t].Sweeping? || s.pc[t].todo == [] || s.pc[t].todo[0].row.status.Attempting? then None
    else
      var Snapshot(id, row) := s.pc[t].todo[0];
      if row.receipt.None? || row.receipt.value.id == "" then SkipStep(s, t)
      else Some(Goto(s, t, Handling(id, row.receipt.value, MarkPending, Sweep(s.pc[t].todo[1..], s.pc[t].failed))))
  }

  function FinishStep(s: State, t: Thread): Option<State> {
    if t !in s.pc || !s.pc[t].Sweeping? || s.pc[t].todo != [] then None
    else if s.pc[t].failed then Some(Leave(s, t, true))
    else Some(Leave(s, t, false).(halted := false))
  }

  /** The process dies: memory is lost, the table and the world stay. */
  function CrashStep(s: State): State {
    s.(attempted := {}, started := [], halted := false, holder := None, pc := map[])
  }

  function Step(c: Contract, s: State, a: Action): Option<State> {
    match a
    case Call(t, key, provider) => if t in s.pc then None else Some(Goto(s, t, Waiting(key, provider)))
    case CallReconcile(t) => if t in s.pc then None else Some(Goto(s, t, WaitingToReconcile))
    case Enter(t) => EnterStep(s, t)
    case NoteUnsupported(t, w) =>
      if t !in s.pc || !s.pc[t].NoProvider? then None
      else Some(Leave(s, t, false).(log := if w.Lost? then s.log else s.log + [Row("unsupported", Unsupported, None)]))
    case Open(t, w) => OpenStep(s, t, w)
    case Create(t, id) => CreateStep(s, t, id)
    case Withdraw(t) => WithdrawStep(s, t)
    case Return(t, report) => ReturnStep(c, s, t, report)
    case Persist(t, w) => PersistStep(s, t, w)
    case Verify(t) => VerifyStep(s, t)
    case Release(t, ok, removed) => ReleaseStep(c, s, t, ok, removed)
    case Query(t, ok) => QueryStep(s, t, ok)
    case Skip(t) => SkipStep(s, t)
    case Recover(t, found) => RecoverStep(c, s, t, found)
    case Resume(t) => ResumeStep(s, t)
    case Finish(t) => FinishStep(s, t)
    case Vanish(gone) => Some(s.(live := s.live - {gone}))
    case Crash => Some(CrashStep(s))
  }

  function Run(c: Contract, s: State, actions: seq<Action>): Option<State>
    decreases |actions|
  {
    if actions == [] then Some(s)
    else match Run(c, s, actions[..|actions| - 1])
      case None => None
      case Some(before) => Step(c, before, actions[|actions| - 1])
  }

  ghost predicate Reachable(c: Contract, s: State) {
    exists actions: seq<Action> :: Run(c, Init, actions) == Some(s)
  }

  // ---------------------------------------------------------------- safety

  /** The row can still lead recovery to the resource: by token while ATTEMPTING, by external id after. */
  predicate Leads(row: Row, res: Resource) {
    && row.provider == res.provider
    && Pending(row)
    && row.receipt.value == Receipt(res.provider, if row.status.Attempting? then "" else res.id)
  }

  predicate WriteAhead(log: seq<Row>, live: map<Resource, RowId>) {
    forall res | res in live :: live[res] < |log| && Leads(log[live[res]], res)
  }

  /** Every external id in the table or in a running operation was created by the attempt of that row. */
  predicate Genuine(created: set<(Resource, RowId)>, id: RowId, receipt: Receipt) {
    receipt.id != "" ==> (Resource(receipt.provider, receipt.id), id) in created
  }

  predicate Terminal(status: Status) {
    status.Unsupported? || status.ClaimFailed? || status.ReleaseSucceeded?
  }

  predicate RowOk(created: set<(Resource, RowId)>, id: RowId, row: Row) {
    && (row.receipt.None? ==> Terminal(row.status))
    && (row.receipt.Some? ==>
      && row.receipt.value.provider == row.provider
      && Genuine(created, id, row.receipt.value)
      && (row.receipt.value.id == "" ==> row.status.Attempting?))
  }

  predicate TableOk(log: seq<Row>, created: set<(Resource, RowId)>) {
    forall i | 0 <= i < |log| :: RowOk(created, i, log[i])
  }

  predicate WorldOk(live: map<Resource, RowId>, created: set<(Resource, RowId)>) {
    && (forall res | res in live :: (res, live[res]) in created)
    && (forall a, b | a in live && b in live :: live[a] == live[b] ==> a == b)
  }

  /** Only a resource of this name can be live for this row. */
  predicate OnlyNamed(live: map<Resource, RowId>, id: RowId, provider: string, name: string) {
    forall res | res in live && live[res] == id :: res == Resource(provider, name)
  }

  predicate TodoOk(log: seq<Row>, todo: seq<Snapshot>) {
    && (forall i | 0 <= i < |todo| :: todo[i].id < |log| && log[todo[i].id] == todo[i].row && Pending(todo[i].row))
    && (forall i, j | 0 <= i < j < |todo| :: todo[i].id < todo[j].id)
  }

  predicate Listed(todo: seq<Snapshot>, id: RowId) {
    exists i :: 0 <= i < |todo| && todo[i].id == id
  }

  /** Reconciliation that has not failed so far accounts for every pending row. */
  predicate Covered(log: seq<Row>, todo: seq<Snapshot>, current: Option<RowId>) {
    forall id | 0 <= id < |log| && Pending(log[id]) :: Listed(todo, id) || current == Some(id)
  }

  predicate HandlingOk(s: State, row: RowId, receipt: Receipt, phase: Phase) {
    && row < |s.log|
    && s.log[row].provider == receipt.provider
    && !phase.MarkInvalid?
    && (phase.MarkFailed? <==> receipt.id == "")
    && (phase.MarkFailed? || phase.MarkReleased? ==> NoneLive(s.live, row))
    && OnlyNamed(s.live, row, receipt.provider, receipt.id)
    && Genuine(s.created, row, receipt)
  }

  predicate BusyOk(s: State, pc: PC) {
    match pc
    case Waiting(_, _) => false
    case WaitingToReconcile => false
    case NoProvider => !s.halted
    case Opening(key, _) => !s.halted && key in s.attempted && key !in s.started
    case Calling(row, provider, made) =>
      && !s.halted
      && row < |s.log|
      && s.log[row] == Row(provider, Attempting, Some(Receipt(provider, "")))
      && (made.None? ==> NoneLive(s.live, row))
      && (made.Some? ==> OnlyNamed(s.live, row, provider, made.value) && (Resource(provider, made.value), row) in s.created)
    case Querying => true
    case Sweeping(todo, failed) => TodoOk(s.log, todo) && (failed || Covered(s.log, todo, None))
    case Handling(row, receipt, phase, job) =>
      && HandlingOk(s, row, receipt, phase)
      && match job
         case Claiming => !s.halted
         case Sweep(todo, failed) =>
           && !phase.Verifying?
           && TodoOk(s.log, todo)
           && (forall i | 0 <= i < |todo| :: row < todo[i].id)
           && (failed || Covered(s.log, todo, Some(row)))
  }

  predicate Outside(pc: PC) {
    pc.Waiting? || pc.WaitingToReconcile?
  }

  /** The operation mutex: whoever is past `Lock` is its only holder. */
  predicate Exclusive(pc: map<Thread, PC>, holder: Option<Thread>) {
    && (forall t | t in pc :: holder == Some(t) || Outside(pc[t]))
    && (holder.Some? ==> holder.value in pc)
  }

  /** The row whose claim is in progress, if any. */
  function Claimed(s: State): Option<RowId> {
    if s.holder.None? || s.holder.value !in s.pc then None
    else match s.pc[s.holder.value]
      case Calling(row, _, _) => Some(row)
      case Handling(row, _, _, job) => if job.Claiming? then Some(row) else None
      case _ => None
  }

  /** At most one resource is live. */
  predicate Single(live: map<Resource, RowId>) {
    forall a, b | a in live && b in live :: a == b
  }

  /** Every live resource is the one being claimed, or the engine is halted. */
  predicate Contained(live: map<Resource, RowId>, halted: bool, claimed: Option<RowId>) {
    halted || forall res | res in live :: claimed == Some(live[res])
  }

  /** No key is claimed twice by one engine. */
  predicate Once(started: seq<string>, attempted: set<string>) {
    && (forall k | k in started :: k in attempted)
    && (forall i, j | 0 <= i < j < |started| :: started[i] != started[j])
  }

  predicate Core(s: State) {
    && WriteAhead(s.log, s.live)
    && TableOk(s.log, s.created)
    && WorldOk(s.live, s.created)
    && Exclusive(s.pc, s.holder)
    && Once(s.started, s.attempted)
  }

  predicate Inv(s: State) {
    && Core(s)
    && (s.holder.Some? ==> BusyOk(s, s.pc[s.holder.value]))
  }

  /** At most one resource is live, and either it is being claimed right now or the engine is halted. */
  predicate Orderly(s: State) {
    && Single(s.live)
    && Contained(s.live, s.halted, Claimed(s))
  }

  // ---------------------------------------------------------------- preservation

  lemma SnapshotsExact(log: seq<Row>, from: nat)
    requires from <= |log|
    ensures forall i | 0 <= i < |Snapshots(log, from)| ::
              from <= Snapshots(log, from)[i].id < |log| && log[Snapshots(log, from)[i].id] == Snapshots(log, from)[i].row
              && Pending(Snapshots(log, from)[i].row)
    ensures forall i, j | 0 <= i < j < |Snapshots(log, from)| :: Snapshots(log, from)[i].id < Snapshots(log, from)[j].id
    ensures forall id | from <= id < |log| && Pending(log[id]) :: Listed(Snapshots(log, from), id)
    decreases |log| - from
  {
    if from < |log| {
      SnapshotsExact(log, from + 1);
      var rest := Snapshots(log, from + 1);
      var all := Snapshots(log, from);
      forall id | from <= id < |log| && Pending(log[id]) ensures Listed(all, id) {
        if id == from {
          assert all[0].id == from;
        } else {
          var i :| 0 <= i < |rest| && rest[i].id == id;
          assert all[i + |all| - |rest|].id == id;
        }
      }
    }
  }

  /** The mutex holder moves to another control point. */
  lemma GotoKeeps(s: State, t: Thread, pc: PC)
    requires Core(s) && s.holder == Some(t) && BusyOk(s, pc)
    ensures Inv(Goto(s, t, pc))
    ensures Single(s.live) && Contained(s.live, s.halted, Claimed(Goto(s, t, pc))) ==> Orderly(Goto(s, t, pc))
  {
    assert Outside(pc) ==> !BusyOk(s, pc);
  }

  /** The mutex holder leaves the engine. */
  lemma LeaveKeeps(s: State, t: Thread, halt: bool)
    requires Core(s) && s.holder == Some(t)
    ensures Inv(Leave(s, t, halt))
    ensures Single(s.live) && Contained(s.live, s.halted || halt, None) ==> Orderly(Leave(s, t, halt))
  {
  }

  lemma TodoTail(log: seq<Row>, todo: seq<Snapshot>)
    requires TodoOk(log, todo) && todo != []
    ensures TodoOk(log, todo[1..])
    ensures forall i | 0 <= i < |todo[1..]| :: todo[0].id < todo[1..][i].id
    ensures Covered(log, todo, None) ==> Covered(log, todo[1..], Some(todo[0].id))
  {
    if Covered(log, todo, None) {
      forall id | 0 <= id < |log| && Pending(log[id]) ensures Listed(todo[1..], id) || id == todo[0].id {
        var i :| 0 <= i < |todo| && todo[i].id == id;
        assert i > 0 ==> todo[1..][i - 1].id == id;
      }
    }
  }

  lemma EnterKeeps(s: State, t: Thread)
    requires Inv(s) && EnterStep(s, t).Some?
    ensures Inv(EnterStep(s, t).value)
    ensures Orderly(s) ==> Orderly(EnterStep(s, t).value)
  {
    var s1 := EnterStep(s, t).value;
    if s1.holder.None? {
      assert Inv(Leave(s, t, false));
    } else if s.pc[t].Waiting? && s.pc[t].target.Some? {
      var held := s.(holder := Some(t), attempted := s.attempted + {s.pc[t].key});
      assert s.pc[t].key !in s.started;
      GotoKeeps(held, t, Opening(s.pc[t].key, s.pc[t].target.value));
    } else {
      GotoKeeps(s.(holder := Some(t)), t, s1.pc[t]);
    }
  }

  lemma OpenKeeps(s: State, t: Thread, w: Write)
    requires Inv(s) && OpenStep(s, t, w).Some?
    ensures Inv(OpenStep(s, t, w).value)
    ensures Orderly(s) ==> Orderly(OpenStep(s, t, w).value)
  {
  }

  lemma CreateKeeps(s: State, t: Thread, id: string)
    requires Inv(s) && CreateStep(s, t, id).Some?
    ensures Inv(CreateStep(s, t, id).value)
    ensures Orderly(s) ==> Orderly(CreateStep(s, t, id).value)
  {
    var s1 := CreateStep(s, t, id).value;
    assert NoneLive(s.live, s.pc[t].row);
    GotoKeeps(s1, t, s1.pc[t]);
  }

  lemma WithdrawKeeps(s: State, t: Thread)
    requires Inv(s) && WithdrawStep(s, t).Some?
    ensures Inv(WithdrawStep(s, t).value)
    ensures Orderly(s) ==> Orderly(WithdrawStep(s, t).value)
  {
  }

  lemma ReturnKeeps(s: State, t: Thread, report: Report)
    requires Inv(s) && ReturnStep(Honest, s, t, report).Some?
    ensures Inv(ReturnStep(Honest, s, t, report).value)
    ensures Orderly(s) ==> Orderly(ReturnStep(Honest, s, t, report).value)
  {
  }

  lemma PersistClaimingKeeps(s: State, t: Thread, ack: bool)
    requires Core(s) && s.holder == Some(t) && s.pc[t].Handling? && s.pc[t].job.Claiming?
    requires BusyOk(s, s.pc[t]) && !s.pc[t].phase.Verifying? && !s.pc[t].phase.Releasing?
    ensures Inv(AfterWriteClaiming(s, t, ack))
    ensures Orderly(s) ==> Orderly(AfterWriteClaiming(s, t, ack))
  {
    var h := s.pc[t];
    if h.phase.MarkFailed? || h.phase.MarkReleased? {
      LeaveKeeps(s, t, false);
    } else if h.phase.MarkReleaseFailed? {
      LeaveKeeps(s, t, true);
    } else {
      GotoKeeps(s, t, h.(phase := if h.phase.MarkSucceeded? && ack then Verifying else Releasing));
    }
  }

  lemma PersistSweepingKeeps(before: State, s: State, t: Thread, ack: bool)
    requires Inv(before) && before.holder == Some(t) && before.pc[t].Handling? && before.pc[t].job.Sweep?
    requires !before.pc[t].phase.Releasing?
    requires s == before.(log := s.log) && |s.log| == |before.log|
    requires forall i | 0 <= i < |s.log| && i != s.pc[t].row :: s.log[i] == before.log[i]
    requires s.log[s.pc[t].row].provider == before.log[s.pc[t].row].provider
    requires ack && (s.pc[t].phase.MarkFailed? || s.pc[t].phase.MarkReleased?) ==> !Pending(s.log[s.pc[t].row])
    requires WriteAhead(s.log, s.live) && TableOk(s.log, s.created)
    ensures Inv(AfterWriteSweeping(s, t, ack))
    ensures Orderly(s) ==> Orderly(AfterWriteSweeping(s, t, ack))
  {
    var h := s.pc[t];
    assert TodoOk(s.log, h.job.todo);
    assert h.job.failed || Covered(s.log, h.job.todo, Some(h.row));
    if ack && (h.phase.MarkSucceeded? || h.phase.MarkPending?) {
      GotoKeeps(s, t, h.(phase := if h.phase.MarkSucceeded? then MarkPending else Releasing));
    } else {
      GotoKeeps(s, t, Sweeping(h.job.todo, h.job.failed || !ack || h.phase.MarkReleaseFailed?));
    }
  }

  lemma WrittenRowHolds(s: State, t: Thread, w: Write)
    requires Inv(s) && PersistStep(s, t, w).Some?
    ensures s.holder == Some(t) && s.pc[t].row < |s.log|
    ensures var log := s.log[s.pc[t].row := Updated(s.log[s.pc[t].row], StatusOf(s.pc[t].phase),
                                                  WrittenReceipt(s.pc[t].phase, s.pc[t].receipt))];
            WriteAhead(log, s.live) && TableOk(log, s.created)
  {
  }

  lemma PersistKeeps(s: State, t: Thread, w: Write)
    requires Inv(s) && PersistStep(s, t, w).Some?
    ensures Inv(PersistStep(s, t, w).value)
    ensures Orderly(s) ==> Orderly(PersistStep(s, t, w).value)
  {
    var h := s.pc[t];
    var row := Updated(s.log[h.row], StatusOf(h.phase), WrittenReceipt(h.phase, h.receipt));
    var s1 := if w.Lost? then s else s.(log := s.log[h.row := row]);
    WrittenRowHolds(s, t, w);
    if h.job.Claiming? {
      PersistClaimingKeeps(s1, t, w.Applied?);
    } else {
      PersistSweepingKeeps(s, s1, t, w.Applied?);
    }
  }

  lemma ReleaseKeeps(s: State, t: Thread, ok: bool, removed: bool)
    requires Inv(s) && ReleaseStep(Honest, s, t, ok, removed).Some?
    ensures Inv(ReleaseStep(Honest, s, t, ok, removed).value)
    ensures Orderly(s) ==> Orderly(ReleaseStep(Honest, s, t, ok, removed).value)
  {
    var h := s.pc[t];
    var s1 := if removed then s.(live := s.live - {Resource(h.receipt.provider, h.receipt.id)}) else s;
    GotoKeeps(s1, t, h.(phase := if ok then MarkReleased else MarkReleaseFailed));
  }

  lemma QueryKeeps(s: State, t: Thread, ok: bool)
    requires Inv(s) && QueryStep(s, t, ok).Some?
    ensures Inv(QueryStep(s, t, ok).value)
    ensures Orderly(s) ==> Orderly(QueryStep(s, t, ok).value)
  {
    SnapshotsExact(s.log, 0);
  }

  lemma SkipKeeps(s: State, t: Thread)
    requires Inv(s) && SkipStep(s, t).Some?
    ensures Inv(SkipStep(s, t).value)
    ensures Orderly(s) ==> Orderly(SkipStep(s, t).value)
  {
    TodoTail(s.log, s.pc[t].todo);
    GotoKeeps(s, t, Sweeping(s.pc[t].todo[1..], true));
  }

  lemma RecoverKeeps(s: State, t: Thread, found: Option<string>)
    requires Inv(s) && RecoverStep(Honest, s, t, found).Some?
    ensures Inv(RecoverStep(Honest, s, t, found).value)
    ensures Orderly(s) ==> Orderly(RecoverStep(Honest, s, t, found).value)
  {
    TodoTail(s.log, s.pc[t].todo);
    GotoKeeps(s, t, RecoverStep(Honest, s, t, found).value.pc[t]);
  }

  lemma ResumeKeeps(s: State, t: Thread)
    requires Inv(s) && ResumeStep(s, t).Some?
    ensures Inv(ResumeStep(s, t).value)
    ensures Orderly(s) ==> Orderly(ResumeStep(s, t).value)
  {
    TodoTail(s.log, s.pc[t].todo);
    GotoKeeps(s, t, ResumeStep(s, t).value.pc[t]);
  }

  lemma NothingPending(log: seq<Row>, live: map<Resource, RowId>)
    requires WriteAhead(log, live) && Covered(log, [], None)
    ensures live == map[]
  {
  }

  lemma FinishKeeps(s: State, t: Thread)
    requires Inv(s) && FinishStep(s, t).Some?
    ensures Inv(FinishStep(s, t).value)
    ensures Orderly(s) ==> Orderly(FinishStep(s, t).value)
  {
    if !s.pc[t].failed {
      NothingPending(s.log, s.live);
    }
  }

  lemma ArriveKeeps(s: State, t: Thread, pc: PC)
    requires Inv(s) && t !in s.pc && Outside(pc)
    ensures Inv(Goto(s, t, pc))
    ensures Orderly(s) ==> Orderly(Goto(s, t, pc))
  {
  }

  lemma NoteKeeps(s: State, t: Thread, log: seq<Row>)
    requires Inv(s) && s.holder == Some(t) && s.pc[t].NoProvider?
    requires log == s.log || log == s.log + [Row("unsupported", Unsupported, None)]
    ensures Inv(Leave(s, t, false).(log := log))
    ensures Orderly(s) ==> Orderly(Leave(s, t, false).(log := log))
  {
    LeaveKeeps(s.(log := log), t, false);
  }

  lemma VanishKeeps(s: State, gone: Resource)
    requires Inv(s)
    ensures Inv(s.(live := s.live - {gone}))
    ensures Orderly(s) ==> Orderly(s.(live := s.live - {gone}))
  {
  }

  lemma ClaimStepKeeps(s: State, a: Action)
    requires Inv(s) && Step(Honest, s, a).Some?
    requires a.Enter? || a.NoteUnsupported? || a.Open? || a.Create? || a.Withdraw? || a.Return? || a.Verify?
    ensures Inv(Step(Honest, s, a).value)
    ensures Orderly(s) ==> Orderly(Step(Honest, s, a).value)
  {
    match a
    case Enter(t) => EnterKeeps(s, t);
    case NoteUnsupported(t, w) => NoteKeeps(s, t, Step(Honest, s, a).value.log);
    case Open(t, w) => OpenKeeps(s, t, w);
    case Create(t, id) => CreateKeeps(s, t, id);
    case Withdraw(t) => WithdrawKeeps(s, t);
    case Return(t, report) => ReturnKeeps(s, t, report);
    case Verify(t) => GotoKeeps(s, t, s.pc[t].(phase := MarkPending));
  }

  lemma SweepStepKeeps(s: State, a: Action)
    requires Inv(s) && Step(Honest, s, a).Some?
    requires a.Persist? || a.Release? || a.Query? || a.Skip? || a.Recover? || a.Resume? || a.Finish?
    ensures Inv(Step(Honest, s, a).value)
    ensures Orderly(s) ==> Orderly(Step(Honest, s, a).value)
  {
    match a
    case Persist(t, w) => PersistKeeps(s, t, w);
    case Release(t, ok, removed) => ReleaseKeeps(s, t, ok, removed);
    case Query(t, ok) => QueryKeeps(s, t, ok);
    case Skip(t) => SkipKeeps(s, t);
    case Recover(t, found) => RecoverKeeps(s, t, found);
    case Resume(t) => ResumeKeeps(s, t);
    case Finish(t) => FinishKeeps(s, t);
  }

  lemma StepKeeps(s: State, a: Action)
    requires Inv(s) && Step(Honest, s, a).Some?
    ensures Inv(Step(Honest, s, a).value)
    ensures Orderly(s) && !a.Crash? ==> Orderly(Step(Honest, s, a).value)
  {
    match a
    case Call(t, key, provider) => ArriveKeeps(s, t, Waiting(key, provider));
    case CallReconcile(t) => ArriveKeeps(s, t, WaitingToReconcile);
    case Vanish(gone) => VanishKeeps(s, gone);
    case Crash =>
    case _ =>
      if a.Persist? || a.Release? || a.Query? || a.Skip? || a.Recover? || a.Resume? || a.Finish? {
        SweepStepKeeps(s, a);
      } else {
        ClaimStepKeeps(s, a);
      }
  }
}
