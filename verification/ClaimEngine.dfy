/** The engine as an object: `Execute` and `Reconcile` over an audit store and a provider whose calls may
    fail in any way the contract allows. Beside its real fields the engine keeps, as ghost state, the run of
    the step machine it has performed; every method extends that run, so everything proved of runs holds of
    the object, including at every point where the process might have died inside a method. */
module ClaimEngine {
  import opened Options
  import opened ClaimProtocol
  import opened ClaimSafety
  import opened ProviderContract
  import opened ClaimCalls
  import opened Sequences

  /** The audit table. A write that reports failure may or may not have happened. */
  class AuditStore {
    var rows: seq<Row>
    ghost var calls: seq<StoreCall>

    method Create(row: Row) returns (w: Write)
      modifies this
      ensures rows == if w.Lost? then old(rows) else old(rows) + [row]
      ensures calls == old(calls) + [CreateCall(row, w)]
    {
      w := *;
      calls := calls + [CreateCall(row, w)];
      if !w.Lost? {
        rows := rows + [row];
      }
    }

    method Update(id: RowId, status: Status, receipt: Receipt) returns (w: Write)
      requires id < |rows|
      modifies this
      ensures rows == if w.Lost? then old(rows) else old(rows)[id := Updated(old(rows)[id], status, receipt)]
      ensures calls == old(calls) + [UpdateCall(id, status, receipt, w)]
    {
      w := *;
      calls := calls + [UpdateCall(id, status, receipt, w)];
      if !w.Lost? {
        rows := rows[id := Updated(rows[id], status, receipt)];
      }
    }

    method PendingRows() returns (ok: bool, pending: seq<Snapshot>)
      modifies this`calls
      ensures ok ==> pending == Snapshots(rows, 0)
      ensures calls == old(calls) + [QueryCall(ok)]
    {
      ok := *;
      calls := calls + [QueryCall(ok)];
      pending := [];
      var i := |rows|;
      while i > 0
        invariant 0 <= i <= |rows|
        invariant pending == Snapshots(rows, i)
        invariant calls == old(calls) + [QueryCall(ok)]
      {
        i := i - 1;
        if Pending(rows[i]) {
          pending := [Snapshot(i, rows[i])] + pending;
        }
      }
    }
  }

  /** The providers, and the resources claims have created there. The `ensures` are the provider contract. */
  class Cloud {
    var live: map<Resource, RowId>
    ghost var calls: seq<CloudCall>

    /** `made` is the resource left behind, if any. */
    method Claim(provider: string, row: RowId) returns (report: Report, made: Option<string>)
      requires NoneLive(live, row)
      modifies this
      ensures ClaimMeets(old(live), live, provider, row, report)
      ensures made.None? ==> live == old(live) && (report.Rejected? || report.Anonymous?)
      ensures made.Some? ==>
                && made.value != "" && Resource(provider, made.value) !in old(live)
                && live == old(live)[Resource(provider, made.value) := row]
                && (report == Accepted(made.value) || report == Partial(made.value) || report.Anonymous?)
      ensures calls == old(calls) + [ClaimCall(provider, row, report)]
    {
      var id: string, created: bool, said: Report := *, *, *;
      made, report := None, if said.Anonymous? then Anonymous else Rejected;
      if created && id != "" && Resource(provider, id) !in live {
        live := live[Resource(provider, id) := row];
        made := Some(id);
        assert Added(old(live), live, provider, id, row);
        report := if said.Accepted? then Accepted(id) else if said.Partial? then Partial(id) else Anonymous;
      }
      calls := calls + [ClaimCall(provider, row, report)];
    }

    method Recover(provider: string, row: RowId) returns (answer: Recovery)
      modifies this`calls
      ensures RecoverMeets(live, provider, row, answer)
      ensures calls == old(calls) + [RecoverCall(provider, row, answer)]
    {
      var id: string, reachable: bool := *, *;
      answer := Unknown;
      if reachable && row !in live.Values {
        answer := NotFound;
      } else if reachable && id != "" && Resource(provider, id) in live && live[Resource(provider, id)] == row {
        answer := Found(id);
      }
      calls := calls + [RecoverCall(provider, row, answer)];
    }

    /** `row` is the audit row the release is made for; the provider does not see it. */
    method Release(receipt: Receipt, ghost row: RowId) returns (ok: bool, removed: bool)
      modifies this
      ensures ReleaseMeets(old(live), live, receipt.provider, receipt.id, ok)
      ensures live == if removed then old(live) - {Resource(receipt.provider, receipt.id)} else old(live)
      ensures calls == old(calls) + [ReleaseCall(row, receipt, ok)]
    {
      ok, removed := *, *;
      if removed {
        live := live - {Resource(receipt.provider, receipt.id)};
      }
      ok := ok && Resource(receipt.provider, receipt.id) !in live;
      calls := calls + [ReleaseCall(row, receipt, ok)];
    }

    method VerifyControl(receipt: Receipt) returns (proven: bool)
      modifies this`calls
      ensures calls == old(calls) + [ControlCall(receipt.provider, receipt.id, proven)]
    {
      proven := *;
      calls := calls + [ControlCall(receipt.provider, receipt.id, proven)];
    }
  }

  ghost predicate Extends(before: seq<Action>, after: seq<Action>) {
    before <= after && forall i | |before| <= i < |after| :: !after[i].Crash?
  }

  class Engine {
    const store: AuditStore
    const cloud: Cloud
    const allowlist: set<string>
    const known: set<string>  // providers this engine was built with
    var attempted: set<string>
    var halted: bool
    ghost var machine: State
    ghost var trace: seq<Action>

    /** The run performed so far ends in a state whose table, world and memory are the real ones. */
    ghost predicate Coupled()
      reads this, store, cloud
    {
      && Run(Honest, Init, trace) == Some(machine)
      && machine.log == store.rows
      && machine.live == cloud.live
      && machine.attempted == attempted
      && machine.halted == halted
    }

    ghost predicate Quiet()
      reads this, store, cloud
    {
      Coupled() && machine.pc == map[] && machine.holder == None
    }

    ghost predicate At(pc: PC)
      reads this, store, cloud
    {
      Coupled() && machine.pc == map[0 := pc] && machine.holder == Some(0)
    }

    /** A process starts on a table and a world that earlier processes left, wherever they died. */
    constructor (store: AuditStore, cloud: Cloud, allowlist: set<string>, known: set<string>, ghost past: seq<Action>)
      requires Run(Honest, Init, past).Some?
      requires Run(Honest, Init, past).value.log == store.rows && Run(Honest, Init, past).value.live == cloud.live
      ensures Quiet() && !halted && attempted == {}
      ensures this.store == store && this.cloud == cloud && this.allowlist == allowlist && this.known == known
      ensures trace == past + [Crash]
    {
      this.store, this.cloud, this.allowlist, this.known := store, cloud, allowlist, known;
      attempted, halted := {}, false;
      machine := CrashStep(Run(Honest, Init, past).value);
      trace := past + [Crash];
      assert (past + [Crash])[..|past|] == past;
    }

    ghost method Advance(a: Action)
      requires Run(Honest, Init, trace) == Some(machine) && Step(Honest, machine, a).Some?
      modifies this`machine, this`trace
      ensures Run(Honest, Init, trace) == Some(machine)
      ensures Some(machine) == Step(Honest, old(machine), a)
      ensures trace == old(trace) + [a]
    {
      machine := Step(Honest, machine, a).value;
      trace := trace + [a];
      assert trace[..|trace| - 1] == old(trace);
    }

    /** `update`: one store write for the phase the operation is in. */
    method Record(id: RowId, receipt: Receipt, phase: Phase, ghost job: Job) returns (w: Write)
      requires At(Handling(id, receipt, phase, job)) && !phase.Verifying? && !phase.Releasing?
      modifies this`machine, this`trace, store
      ensures Run(Honest, Init, trace) == Some(machine)
      ensures Some(machine) == PersistStep(old(machine), 0, w)
      ensures machine.log == store.rows && machine.live == cloud.live && machine.attempted == attempted
      ensures trace == old(trace) + [Persist(0, w)]
      ensures store.calls == old(store.calls) + [UpdateCall(id, StatusOf(phase), WrittenReceipt(phase, receipt), w)]
    {
      RunKeeps(trace);
      w := store.Update(id, StatusOf(phase), WrittenReceipt(phase, receipt));
      Advance(Persist(0, w));
    }

    /** The final write of a claim: it leaves the engine, halted when the release failed. */
    method Conclude(id: RowId, receipt: Receipt, phase: Phase) returns (ok: bool, ghost wrote: seq<StoreCall>)
      requires At(Handling(id, receipt, phase, Claiming))
      requires phase.MarkFailed? || phase.MarkReleased? || phase.MarkReleaseFailed?
      modifies this`machine, this`trace, this`halted, store
      ensures Quiet() && Extends(old(trace), trace)
      ensures halted == (old(halted) || phase.MarkReleaseFailed?)
      ensures store.calls == old(store.calls) + wrote
      ensures |wrote| == 1 && Updates(wrote[0], id, StatusOf(phase), WrittenReceipt(phase, receipt)) && ok == wrote[0].w.Applied?
      ensures ok ==> id < |store.rows| && store.rows[id].status == StatusOf(phase)
    {
      var w := Record(id, receipt, phase, Claiming);
      if phase.MarkReleaseFailed? {
        halted := true;
      }
      ok := w.Applied?;
      wrote := [UpdateCall(id, StatusOf(phase), WrittenReceipt(phase, receipt), w)];
    }

    /** One call to the provider's `Release`. */
    method CallRelease(id: RowId, receipt: Receipt, ghost job: Job) returns (ok: bool)
      requires At(Handling(id, receipt, Releasing, job))
      modifies this`machine, this`trace, cloud
      ensures At(Handling(id, receipt, if ok then MarkReleased else MarkReleaseFailed, job))
      ensures Extends(old(trace), trace)
      ensures cloud.calls == old(cloud.calls) + [ReleaseCall(id, receipt, ok)]
      ensures ok ==> NoneLive(cloud.live, id)
    {
      var removed: bool;
      ok, removed := cloud.Release(receipt, id);
      Advance(Release(0, ok, removed));
      ReleasedMeansGone(trace);
    }

    /** Releases a claimed resource and records the outcome. */
    method Settle(id: RowId, receipt: Receipt) returns (ok: bool, ghost wrote: seq<StoreCall>, ghost called: seq<CloudCall>)
      requires At(Handling(id, receipt, Releasing, Claiming))
      modifies this`machine, this`trace, this`halted, store, cloud
      ensures Quiet() && Extends(old(trace), trace)
      ensures store.calls == old(store.calls) + wrote && cloud.calls == old(cloud.calls) + called
      ensures Settled(id, receipt, wrote, called)
      ensures ok == (called[0].ok && wrote[0].w.Applied?) && halted == (old(halted) || SomeUnsafe(called))
      ensures ok ==> id < |store.rows| && store.rows[id].status.ReleaseSucceeded? && NoneLive(cloud.live, id)
    {
      var released := CallRelease(id, receipt, Claiming);
      called := [ReleaseCall(id, receipt, released)];
      if released {
        ok, wrote := Conclude(id, receipt, MarkReleased);
      } else {
        ok, wrote := Conclude(id, receipt, MarkReleaseFailed);
        ok := false;
      }
      UnsafeFirst(called[0], []);
      assert called == [called[0]] + [];
    }

    /** Claims, proves control of and releases one resource. `ok` is a nil error; `wrote` and `called` are the calls
        the method makes. */
    method Execute(host: string, eligible: bool, key: string, target: Option<string>)
      returns (ok: bool, ghost wrote: seq<StoreCall>, ghost called: seq<CloudCall>)
      requires Quiet()
      modifies this, store, cloud
      ensures Quiet() && Extends(old(trace), trace)
      ensures store.calls == old(store.calls) + wrote && cloud.calls == old(cloud.calls) + called
      ensures !eligible || host !in allowlist ==> ok && trace == old(trace) && wrote == [] && called == []
      ensures eligible && host in allowlist ==> Entered(old(halted), old(attempted), |old(store.rows)|, key, target, ok, wrote, called)
      ensures old(halted) || (target.Some? && key in old(attempted)) ==>
                store.rows == old(store.rows) && cloud.live == old(cloud.live) && attempted == old(attempted)
      ensures halted == (old(halted) || SomeUnsafe(called))
      ensures ok && attempted != old(attempted) ==>
                var id := |old(store.rows)|;
                id < |store.rows| && store.rows[id].status.ReleaseSucceeded? && NoneLive(cloud.live, id)
      ensures old(Orderly(machine)) ==> cloud.live == map[] || halted
    {
      ghost var past := trace;
      wrote, called := [], [];
      if !eligible || host !in allowlist {
        return true, [], [];
      }
      ok, wrote, called := EnterKey(key, target);
      if old(Orderly(machine)) {
        OrderlyExtends(past, trace);
      }
    }

    /** What taking the mutex comes to in the machine. */
    ghost method Arrive(key: string, target: Option<string>)
      requires Quiet()
      modifies this`machine, this`trace
      ensures Run(Honest, Init, trace) == Some(machine) && Extends(old(trace), trace)
      ensures machine.log == old(machine.log) && machine.live == old(machine.live) && machine.halted == halted
      ensures halted || (target.Some? && key in attempted) ==> machine == old(machine)
      ensures !halted && target.None? ==>
                machine.pc == map[0 := NoProvider] && machine.holder == Some(0) && machine.attempted == attempted
      ensures !halted && target.Some? && key !in attempted ==>
                machine.pc == map[0 := Opening(key, target.value)] && machine.holder == Some(0) && machine.attempted == attempted + {key}
    {
      Advance(Call(0, key, target));
      Advance(Enter(0));
      assert halted || (target.Some? && key in attempted) ==> machine.pc == map[];
    }

    /** Takes the mutex for a host on the allowlist: a halted engine or a key seen before ends it there. */
    method EnterKey(key: string, target: Option<string>)
      returns (ok: bool, ghost wrote: seq<StoreCall>, ghost called: seq<CloudCall>)
      requires Quiet()
      modifies this, store, cloud
      ensures Quiet() && Extends(old(trace), trace)
      ensures store.calls == old(store.calls) + wrote && cloud.calls == old(cloud.calls) + called
      ensures Entered(old(halted), old(attempted), |old(store.rows)|, key, target, ok, wrote, called)
      ensures halted == (old(halted) || SomeUnsafe(called))
      ensures old(halted) || (target.Some? && key in old(attempted)) ==>
                store.rows == old(store.rows) && cloud.live == old(cloud.live) && attempted == old(attempted)
      ensures ok && attempted != old(attempted) ==>
                var id := |old(store.rows)|;
                id < |store.rows| && store.rows[id].status.ReleaseSucceeded? && NoneLive(cloud.live, id)
    {
      Arrive(key, target);
      wrote, called := [], [];
      if halted {
        return false, [], [];
      }
      if target.None? {
        var w := store.Create(UNSUPPORTED_ROW);
        Advance(NoteUnsupported(0, w));
        return w.Applied?, [CreateCall(UNSUPPORTED_ROW, w)], [];
      }
      if key in attempted {
        return true, [], [];
      }
      attempted := attempted + {key};
      ok, wrote, called := Attempt(key, target.value);
    }

    /** The claim proper, once the key has been entered. */
    method Attempt(key: string, provider: string) returns (ok: bool, ghost wrote: seq<StoreCall>, ghost called: seq<CloudCall>)
      requires At(Opening(key, provider))
      modifies this`machine, this`trace, this`halted, store, cloud
      ensures Quiet() && Extends(old(trace), trace)
      ensures store.calls == old(store.calls) + wrote && cloud.calls == old(cloud.calls) + called
      ensures AttemptMade(|old(store.rows)|, provider, wrote, called)
      ensures ok <==> exists name :: WentWell(|old(store.rows)|, provider, name, wrote, called)
      ensures halted == (old(halted) || SomeUnsafe(called))
      ensures ok ==>
                var id := |old(store.rows)|;
                id < |store.rows| && store.rows[id].status.ReleaseSucceeded? && NoneLive(cloud.live, id)
    {
      var id := |store.rows|;
      var entered := store.Create(FirstRow(provider));
      Advance(Open(0, entered));
      wrote, called := [CreateCall(FirstRow(provider), entered)], [];
      if entered.Applied? {
        ghost var more, answers;
        ok, more, answers := Proceed(id, provider);
        wrote, called := wrote + more, answers;
      } else {
        ok := false;
      }
      AttemptOutcome(id, provider, wrote, called);
    }

    /** Asks the provider for the resource and follows its report. */
    method Proceed(id: RowId, provider: string) returns (ok: bool, ghost wrote: seq<StoreCall>, ghost called: seq<CloudCall>)
      requires At(Calling(id, provider, None))
      modifies this`machine, this`trace, this`halted, store, cloud
      ensures Quiet() && Extends(old(trace), trace)
      ensures store.calls == old(store.calls) + wrote && cloud.calls == old(cloud.calls) + called
      ensures called != [] && called[0].ClaimCall? && called[0].provider == provider && called[0].row == id
      ensures Answered(id, provider, called[0].report, wrote, called[1..])
      ensures ok <==> called[0].report.Accepted? && DemonstratedWell(wrote, called[1..])
      ensures halted == (old(halted) || SomeUnsafe(called))
      ensures ok ==> id < |store.rows| && store.rows[id].status.ReleaseSucceeded? && NoneLive(cloud.live, id)
    {
      ok := false;
      var report := CallClaim(id, provider);
      ghost var more := [];
      wrote := [];
      match report {
        case Accepted(name) =>
          ok, wrote, more := Demonstrate(id, Receipt(provider, name));
        case Partial(name) =>
          ok, wrote, more := GiveBack(id, Receipt(provider, name));
          ok := false;
        case Anonymous =>
          halted := true;
        case Rejected =>
          ok, wrote := Conclude(id, Receipt(provider, ""), MarkFailed);
          ok := false;
        case Invalid(_) =>
          assert false;
      }
      called := [ClaimCall(provider, id, report)] + more;
      UnsafeFirst(called[0], more);
    }

    /** Marks the release pending, whether or not that write succeeds, and releases. */
    method GiveBack(id: RowId, receipt: Receipt) returns (ok: bool, ghost wrote: seq<StoreCall>, ghost called: seq<CloudCall>)
      requires At(Handling(id, receipt, MarkPending, Claiming))
      modifies this`machine, this`trace, this`halted, store, cloud
      ensures Quiet() && Extends(old(trace), trace)
      ensures store.calls == old(store.calls) + wrote && cloud.calls == old(cloud.calls) + called
      ensures GivenBack(id, receipt, wrote, called)
      ensures ok == (called[0].ok && wrote[1].w.Applied?) && halted == (old(halted) || SomeUnsafe(called))
      ensures ok ==> id < |store.rows| && store.rows[id].status.ReleaseSucceeded? && NoneLive(cloud.live, id)
    {
      var w := Record(id, receipt, MarkPending, Claiming);
      ok, wrote, called := Settle(id, receipt);
      wrote := [UpdateCall(id, ReleasePending, receipt, w)] + wrote;
    }

    /** One call to the provider's `Claim`. */
    method CallClaim(id: RowId, provider: string) returns (report: Report)
      requires At(Calling(id, provider, None))
      modifies this`machine, this`trace, cloud
      ensures Run(Honest, Init, trace) == Some(machine) && Extends(old(trace), trace)
      ensures machine.log == store.rows && machine.live == cloud.live && machine.attempted == attempted
      ensures report.Anonymous? ==> machine.pc == map[] && machine.holder == None && machine.halted
      ensures !report.Anonymous? ==> machine.halted == halted && machine.holder == Some(0)
      ensures report.Accepted? ==> machine.pc == map[0 := Handling(id, Receipt(provider, report.id), MarkSucceeded, Claiming)]
      ensures report.Partial? ==> machine.pc == map[0 := Handling(id, Receipt(provider, report.id), MarkPending, Claiming)]
      ensures report.Rejected? ==> machine.pc == map[0 := Handling(id, Receipt(provider, ""), MarkFailed, Claiming)]
      ensures !report.Invalid?
      ensures cloud.calls == old(cloud.calls) + [ClaimCall(provider, id, report)]
    {
      ghost var made;
      report, made := AskProvider(id, provider);
      Advance(Return(0, report));
    }

    /** The provider works on the claim; `made` is the resource it leaves, if any. */
    method AskProvider(id: RowId, provider: string) returns (report: Report, ghost made: Option<string>)
      requires At(Calling(id, provider, None))
      modifies this`machine, this`trace, cloud
      ensures At(Calling(id, provider, made)) && Extends(old(trace), trace)
      ensures !report.Invalid? && (report.Rejected? ==> NoneLive(cloud.live, id))
      ensures report.Accepted? || report.Partial? ==> report.id != "" && made == Some(report.id)
      ensures cloud.calls == old(cloud.calls) + [ClaimCall(provider, id, report)]
    {
      NothingMadeYet(trace);
      var left: Option<string>;
      report, left := cloud.Claim(provider, id);
      made := left;
      if left.Some? {
        Advance(Create(0, left.value));
      }
    }

    /** Files the receipt, verifies control and releases; without the receipt on file it releases at once. */
    method Demonstrate(id: RowId, receipt: Receipt) returns (ok: bool, ghost wrote: seq<StoreCall>, ghost called: seq<CloudCall>)
      requires At(Handling(id, receipt, MarkSucceeded, Claiming))
      modifies this`machine, this`trace, this`halted, store, cloud
      ensures Quiet() && Extends(old(trace), trace)
      ensures store.calls == old(store.calls) + wrote && cloud.calls == old(cloud.calls) + called
      ensures Demonstrated(id, receipt, wrote, called)
      ensures ok <==> DemonstratedWell(wrote, called)
      ensures halted == (old(halted) || SomeUnsafe(called))
      ensures ok ==> id < |store.rows| && store.rows[id].status.ReleaseSucceeded? && NoneLive(cloud.live, id)
    {
      var filed := FileReceipt(id, receipt);
      if filed.Applied? {
        ok, wrote, called := Prove(id, receipt);
      } else {
        ok, wrote, called := Settle(id, receipt);
        ok := false;
      }
      wrote := [UpdateCall(id, ClaimSucceeded, receipt, filed)] + wrote;
    }

    /** Files the receipt of an accepted claim. */
    method FileReceipt(id: RowId, receipt: Receipt) returns (filed: Write)
      requires At(Handling(id, receipt, MarkSucceeded, Claiming))
      modifies this`machine, this`trace, store
      ensures At(Handling(id, receipt, if filed.Applied? then Verifying else Releasing, Claiming))
      ensures Extends(old(trace), trace)
      ensures store.calls == old(store.calls) + [UpdateCall(id, ClaimSucceeded, receipt, filed)]
    {
      filed := Record(id, receipt, MarkSucceeded, Claiming);
    }

    /** Verifies control, and releases whatever the answer: the answer decides over the error. */
    method Prove(id: RowId, receipt: Receipt) returns (ok: bool, ghost wrote: seq<StoreCall>, ghost called: seq<CloudCall>)
      requires At(Handling(id, receipt, Verifying, Claiming))
      modifies this`machine, this`trace, this`halted, store, cloud
      ensures Quiet() && Extends(old(trace), trace)
      ensures store.calls == old(store.calls) + wrote && cloud.calls == old(cloud.calls) + called
      ensures called != [] && called[0].ControlCall? && called[0].provider == receipt.provider && called[0].id == receipt.id
      ensures GivenBack(id, receipt, wrote, called[1..])
      ensures ok <==> called[0].proven && called[1].ok && wrote[1].w.Applied?
      ensures halted == (old(halted) || SomeUnsafe(called))
      ensures ok ==> id < |store.rows| && store.rows[id].status.ReleaseSucceeded? && NoneLive(cloud.live, id)
    {
      var proven := CallControl(id, receipt);
      ok, wrote, called := GiveBack(id, receipt);
      ok := ok && proven;
      UnsafeFirst(ControlCall(receipt.provider, receipt.id, proven), called);
      called := [ControlCall(receipt.provider, receipt.id, proven)] + called;
    }

    /** One call to the provider's `VerifyControl`. */
    method CallControl(id: RowId, receipt: Receipt) returns (proven: bool)
      requires At(Handling(id, receipt, Verifying, Claiming))
      modifies this`machine, this`trace, cloud`calls
      ensures At(Handling(id, receipt, MarkPending, Claiming)) && Extends(old(trace), trace)
      ensures cloud.calls == old(cloud.calls) + [ControlCall(receipt.provider, receipt.id, proven)]
    {
      proven := cloud.VerifyControl(receipt);
      Advance(Verify(0));
    }

    /** Closes every open audit row; a nil error means nothing is live and the halt is lifted. It is returned
        exactly when the query, every recovery, every write and every release ended well and no listed row was
        unusable. The calls for each listed row are the ones its status and the answers demand. */
    method Reconcile() returns (ok: bool, ghost wrote: seq<StoreCall>, ghost called: seq<CloudCall>)
      requires Quiet()
      modifies this`machine, this`trace, this`halted, store, cloud
      ensures Quiet() && Extends(old(trace), trace)
      ensures halted == !ok
      ensures ok ==> cloud.live == map[] && forall row | row in store.rows :: Terminal(row.status)
      ensures store.calls == old(store.calls) + wrote && cloud.calls == old(cloud.calls) + called
      ensures Reconciled(Snapshots(old(store.rows), 0), known, ok, wrote, called)
    {
      SnapshotsExact(store.rows, 0);
      var listed, todo := ListPending();
      if !listed {
        halted := true;
        NothingReconciled(Snapshots(store.rows, 0), known);
        return false, [QueryCall(false)], [];
      }
      var failed;
      failed, wrote, called := SweepRows(todo);
      ok := FinishSweep(failed);
      AllReconciled(todo, known, failed, wrote, called);
      Regroup(old(store.calls), [QueryCall(true)], wrote);
      wrote := [QueryCall(true)] + wrote;
    }

    /** Visits the listed rows in order. */
    method SweepRows(listed: seq<Snapshot>)
      returns (failed: bool, ghost wrote: seq<StoreCall>, ghost called: seq<CloudCall>)
      requires At(Sweeping(listed, false)) && Ascending(listed)
      modifies this`machine, this`trace, store, cloud
      ensures At(Sweeping([], failed)) && Extends(old(trace), trace)
      ensures store.calls == old(store.calls) + wrote && cloud.calls == old(cloud.calls) + called
      ensures Swept(listed, known, |listed|, wrote, called)
      ensures failed <==> SomeFailed(wrote, called) || SomeUnusable(listed, known)
    {
      var todo := listed;
      failed, wrote, called := false, [], [];
      ghost var done := 0;
      while todo != []
        invariant At(Sweeping(todo, failed)) && Extends(old(trace), trace)
        invariant store.calls == old(store.calls) + wrote && cloud.calls == old(cloud.calls) + called
        invariant done <= |listed| && todo == listed[done..]
        invariant SweptSoFar(listed, known, done, failed, wrote, called)
        decreases |todo|
      {
        ghost var w, c, before := [], [], failed;
        assert todo == [todo[0]] + todo[1..];
        failed, w, c := Close(todo[0], todo[1..], failed);
        SweptOneMore(listed, known, done, before, failed, wrote, called, w, c);
        Regroup(old(store.calls), wrote, w);
        Regroup(old(cloud.calls), called, c);
        wrote, called := wrote + w, called + c;
        todo := todo[1..];
        done := done + 1;
      }
      assert listed[..done] == listed;
    }

    /** Takes the mutex and reads the pending rows; a failing query leaves the machine halted. */
    method ListPending() returns (listed: bool, todo: seq<Snapshot>)
      requires Quiet()
      modifies this`machine, this`trace, store`calls
      ensures Extends(old(trace), trace)
      ensures store.calls == old(store.calls) + [QueryCall(listed)]
      ensures listed ==> todo == Snapshots(store.rows, 0) && At(Sweeping(todo, false))
      ensures !listed ==> Run(Honest, Init, trace) == Some(machine) && machine == old(machine).(halted := true)
    {
      Advance(CallReconcile(0));
      Advance(Enter(0));
      listed, todo := store.PendingRows();
      Advance(Query(0, listed));
    }

    /** Nothing is left to visit: halt after any failure, clear the halt otherwise. */
    method FinishSweep(failed: bool) returns (ok: bool)
      requires At(Sweeping([], failed))
      modifies this`machine, this`trace, this`halted
      ensures Quiet() && Extends(old(trace), trace)
      ensures halted == !ok && ok == !failed
      ensures ok ==> cloud.live == map[] && forall row | row in store.rows :: Terminal(row.status)
    {
      if !failed {
        SweepCloses(trace);
      }
      Advance(Finish(0));
      halted := failed;
      ok := !failed;
    }

    /** One pending row of the sweep: it makes the calls the row demands and fails exactly when one of them does or
        the row is unusable. */
    method Close(record: Snapshot, ghost rest: seq<Snapshot>, failed: bool)
      returns (failedNow: bool, ghost wrote: seq<StoreCall>, ghost called: seq<CloudCall>)
      requires At(Sweeping([record] + rest, failed))
      modifies this`machine, this`trace, store, cloud
      ensures At(Sweeping(rest, failedNow)) && Extends(old(trace), trace)
      ensures store.calls == old(store.calls) + wrote && cloud.calls == old(cloud.calls) + called
      ensures Handled(record, known, wrote, called)
      ensures failedNow <==> failed || Unusable(record, known) || SomeFailed(wrote, called)
    {
      wrote, called := [], [];
      if record.row.provider !in known || record.row.receipt.None? {
        SkipHead(record, rest, failed);
        failedNow := true;
      } else if record.row.status.Attempting? {
        failedNow, wrote, called := CloseAttempt(record, rest, failed);
      } else {
        assert ([record] + rest)[1..] == rest;
        Advance(Resume(0));
        if record.row.receipt.value.id == "" {
          failedNow := true;
        } else {
          failedNow, wrote, called := CloseNamed(record.id, record.row.receipt.value, rest, failed);
        }
      }
    }

    ghost method SkipHead(record: Snapshot, rest: seq<Snapshot>, failed: bool)
      requires At(Sweeping([record] + rest, failed))
      modifies this`machine, this`trace
      ensures At(Sweeping(rest, true)) && Extends(old(trace), trace)
    {
      assert ([record] + rest)[1..] == rest;
      Advance(Skip(0));
    }

    ghost method TakeMissing(record: Snapshot, rest: seq<Snapshot>, failed: bool)
      requires At(Sweeping([record] + rest, failed)) && record.row.status.Attempting? && NoneLive(cloud.live, record.id)
      modifies this`machine, this`trace
      ensures At(Handling(record.id, Receipt(record.row.provider, ""), MarkFailed, Sweep(rest, failed)))
      ensures Extends(old(trace), trace)
    {
      assert ([record] + rest)[1..] == rest;
      Advance(ClaimProtocol.Recover(0, None));
    }

    ghost method TakeFound(record: Snapshot, rest: seq<Snapshot>, failed: bool, name: string)
      requires At(Sweeping([record] + rest, failed)) && record.row.status.Attempting? && name != ""
      requires var res := Resource(record.row.provider, name); res in cloud.live && cloud.live[res] == record.id
      modifies this`machine, this`trace
      ensures At(Handling(record.id, Receipt(record.row.provider, name), MarkSucceeded, Sweep(rest, failed)))
      ensures Extends(old(trace), trace)
    {
      assert ([record] + rest)[1..] == rest;
      Advance(ClaimProtocol.Recover(0, Some(name)));
    }

    /** An interrupted attempt: ask the provider what became of it. */
    method CloseAttempt(record: Snapshot, ghost rest: seq<Snapshot>, failed: bool)
      returns (failedNow: bool, ghost wrote: seq<StoreCall>, ghost called: seq<CloudCall>)
      requires At(Sweeping([record] + rest, failed)) && record.row.status.Attempting?
      modifies this`machine, this`trace, store, cloud
      ensures At(Sweeping(rest, failedNow)) && Extends(old(trace), trace)
      ensures store.calls == old(store.calls) + wrote && cloud.calls == old(cloud.calls) + called
      ensures called != [] && called[0].RecoverCall? && called[0].provider == record.row.provider && called[0].row == record.id
      ensures Resolved(record.id, record.row.provider, called[0].answer, wrote, called[1..])
      ensures failedNow <==> failed || SomeFailed(wrote, called)
    {
      ghost var more := [];
      wrote := [];
      var answer := cloud.Recover(record.row.provider, record.id);
      match answer {
        case Unknown =>
          SkipHead(record, rest, failed);
          failedNow := true;
        case NotFound =>
          TakeMissing(record, rest, failed);
          failedNow, wrote := CloseMissing(record.id, Receipt(record.row.provider, ""), rest, failed);
        case Found(name) =>
          TakeFound(record, rest, failed, name);
          failedNow, wrote, more := CloseFound(record.id, Receipt(record.row.provider, name), rest, failed);
      }
      called := [RecoverCall(record.row.provider, record.id, answer)] + more;
      RecoveredFailed(record.row.provider, record.id, answer, wrote, more);
    }

    /** The attempt left nothing: the row is closed as a failed claim. */
    method CloseMissing(id: RowId, receipt: Receipt, ghost rest: seq<Snapshot>, failed: bool)
      returns (failedNow: bool, ghost wrote: seq<StoreCall>)
      requires At(Handling(id, receipt, MarkFailed, Sweep(rest, failed))) && receipt.id == ""
      modifies this`machine, this`trace, store, cloud
      ensures At(Sweeping(rest, failedNow)) && Extends(old(trace), trace)
      ensures store.calls == old(store.calls) + wrote && cloud.calls == old(cloud.calls)
      ensures |wrote| == 1 && Updates(wrote[0], id, ClaimFailed, receipt)
      ensures failedNow <==> failed || SomeFailed(wrote, [])
    {
      ghost var w;
      var filed: bool;
      filed, w := RecordRow(id, receipt, MarkFailed, rest, failed);
      failedNow := failed || !filed;
      wrote := [UpdateCall(id, ClaimFailed, receipt, w)];
      assert wrote[0] in wrote;
    }

    /** The attempt's resource was found: file its receipt, then release it. */
    method CloseFound(id: RowId, receipt: Receipt, ghost rest: seq<Snapshot>, failed: bool)
      returns (failedNow: bool, ghost wrote: seq<StoreCall>, ghost called: seq<CloudCall>)
      requires At(Handling(id, receipt, MarkSucceeded, Sweep(rest, failed)))
      modifies this`machine, this`trace, store, cloud
      ensures At(Sweeping(rest, failedNow)) && Extends(old(trace), trace)
      ensures store.calls == old(store.calls) + wrote && cloud.calls == old(cloud.calls) + called
      ensures wrote != [] && Updates(wrote[0], id, ClaimSucceeded, receipt)
      ensures if wrote[0].w.Applied? then Reverted(id, receipt, wrote[1..], called) else |wrote| == 1 && called == []
      ensures failedNow <==> failed || SomeFailed(wrote, called)
    {
      ghost var w;
      var filed: bool;
      filed, w := RecordRow(id, receipt, MarkSucceeded, rest, failed);
      wrote, called := [], [];
      if filed {
        failedNow, wrote, called := CloseNamed(id, receipt, rest, failed);
      } else {
        failedNow := true;
      }
      WroteFailed(UpdateCall(id, ClaimSucceeded, receipt, w), wrote, called);
      wrote := [UpdateCall(id, ClaimSucceeded, receipt, w)] + wrote;
    }

    /** The resource is named: release it and record the outcome. */
    method CloseNamed(id: RowId, receipt: Receipt, ghost rest: seq<Snapshot>, failed: bool)
      returns (failedNow: bool, ghost wrote: seq<StoreCall>, ghost called: seq<CloudCall>)
      requires At(Handling(id, receipt, MarkPending, Sweep(rest, failed)))
      modifies this`machine, this`trace, store, cloud
      ensures At(Sweeping(rest, failedNow)) && Extends(old(trace), trace)
      ensures store.calls == old(store.calls) + wrote && cloud.calls == old(cloud.calls) + called
      ensures Reverted(id, receipt, wrote, called)
      ensures failedNow <==> failed || SomeFailed(wrote, called)
    {
      ghost var w;
      var filed: bool;
      filed, w := RecordRow(id, receipt, MarkPending, rest, failed);
      wrote, called := [], [];
      if filed {
        failedNow, wrote, called := CloseReleased(id, receipt, rest, failed);
      } else {
        failedNow := true;
      }
      WroteFailed(UpdateCall(id, ReleasePending, receipt, w), wrote, called);
      wrote := [UpdateCall(id, ReleasePending, receipt, w)] + wrote;
    }

    /** The row is marked: release its resource. */
    method CloseReleased(id: RowId, receipt: Receipt, ghost rest: seq<Snapshot>, failed: bool)
      returns (failedNow: bool, ghost wrote: seq<StoreCall>, ghost called: seq<CloudCall>)
      requires At(Handling(id, receipt, Releasing, Sweep(rest, failed)))
      modifies this`machine, this`trace, store, cloud
      ensures At(Sweeping(rest, failedNow)) && Extends(old(trace), trace)
      ensures store.calls == old(store.calls) + wrote && cloud.calls == old(cloud.calls) + called
      ensures Settled(id, receipt, wrote, called)
      ensures failedNow <==> failed || SomeFailed(wrote, called)
    {
      var filed: bool;
      ghost var w;
      var released := CallRelease(id, receipt, Sweep(rest, failed));
      if released {
        filed, w := RecordRow(id, receipt, MarkReleased, rest, failed);
        failedNow := failed || !filed;
        wrote := [UpdateCall(id, ReleaseSucceeded, receipt, w)];
      } else {
        filed, w := RecordRow(id, receipt, MarkReleaseFailed, rest, failed);
        failedNow := true;
        wrote := [UpdateCall(id, ReleaseFailed, receipt, w)];
      }
      called := [ReleaseCall(id, receipt, released)];
      assert wrote[0] in wrote && called[0] in called;
    }

    /** One store write of the sweep. */
    method RecordRow(id: RowId, receipt: Receipt, phase: Phase, ghost rest: seq<Snapshot>, ghost failed: bool)
      returns (ok: bool, ghost w: Write)
      requires At(Handling(id, receipt, phase, Sweep(rest, failed)))
      requires phase in {MarkFailed, MarkSucceeded, MarkPending, MarkReleased, MarkReleaseFailed}
      modifies this`machine, this`trace, store
      ensures Extends(old(trace), trace)
      ensures ok == w.Applied?
      ensures store.calls == old(store.calls) + [UpdateCall(id, StatusOf(phase), WrittenReceipt(phase, receipt), w)]
      ensures ok && phase == MarkSucceeded ==> At(Handling(id, receipt, MarkPending, Sweep(rest, failed)))
      ensures ok && phase == MarkPending ==> At(Handling(id, receipt, Releasing, Sweep(rest, failed)))
      ensures !(ok && phase in {MarkSucceeded, MarkPending}) ==> At(Sweeping(rest, failed || !ok || phase == MarkReleaseFailed))
    {
      var outcome := Record(id, receipt, phase, Sweep(rest, failed));
      ok, w := outcome.Applied?, outcome;
      RowWritten(old(machine), machine, id, receipt, phase, rest, failed, w);
    }
  }

  /** Where a store write of the sweep leads. */
  lemma RowWritten(before: State, after: State, id: RowId, receipt: Receipt, phase: Phase, rest: seq<Snapshot>, failed: bool, w: Write)
    requires before.pc == map[0 := Handling(id, receipt, phase, Sweep(rest, failed))]
    requires PersistStep(before, 0, w) == Some(after)
    requires phase in {MarkFailed, MarkSucceeded, MarkPending, MarkReleased, MarkReleaseFailed}
    ensures after.holder == before.holder && after.halted == before.halted
    ensures after.pc == map[0 :=
              if w.Applied? && phase == MarkSucceeded then Handling(id, receipt, MarkPending, Sweep(rest, failed))
              else if w.Applied? && phase == MarkPending then Handling(id, receipt, Releasing, Sweep(rest, failed))
              else Sweeping(rest, failed || !w.Applied? || phase == MarkReleaseFailed)]
  {
  }

  /** Between crashes, order is kept from any moment of a run to any later one. */
  lemma {:induction false} OrderlyExtends(before: seq<Action>, after: seq<Action>)
    requires Run(Honest, Init, before).Some? && Orderly(Run(Honest, Init, before).value)
    requires Run(Honest, Init, after).Some? && Extends(before, after)
    ensures Orderly(Run(Honest, Init, after).value)
    decreases |after|
  {
    if |before| < |after| {
      var last := after[..|after| - 1];
      assert before <= last && Run(Honest, Init, last).Some?;
      OrderlyExtends(before, last);
      RunKeeps(last);
      StepKeeps(Run(Honest, Init, last).value, after[|after| - 1]);
    } else {
      assert before == after;
    }
  }

  /** A method that extends the run kept the write-ahead property at each moment it could have died. */
  lemma {:induction false} EveryMoment(trace: seq<Action>, k: nat)
    requires Run(Honest, Init, trace).Some? && k <= |trace|
    ensures Run(Honest, Init, trace[..k]).Some?
    ensures var s := Run(Honest, Init, trace[..k]).value; WriteAhead(s.log, s.live)
    decreases |trace|
  {
    if k == |trace| {
      assert trace[..k] == trace;
      RunKeeps(trace);
    } else {
      var shorter := trace[..|trace| - 1];
      EveryMoment(shorter, k);
      assert shorter[..k] == trace[..k];
    }
  }

  lemma SweepCloses(actions: seq<Action>)
    requires Run(Honest, Init, actions).Some?
    requires var s := Run(Honest, Init, actions).value; 0 in s.pc && s.pc[0] == Sweeping([], false)
    ensures var s := Run(Honest, Init, actions).value;
            s.live == map[] && forall row | row in s.log :: Terminal(row.status)
  {
    RunKeeps(actions);
    TableClosed(Run(Honest, Init, actions).value, 0);
  }

  lemma ReleasedMeansGone(actions: seq<Action>)
    requires Run(Honest, Init, actions).Some?
    ensures var s := Run(Honest, Init, actions).value;
            0 in s.pc && s.pc[0].Handling? && s.pc[0].phase.MarkReleased? ==> NoneLive(s.live, s.pc[0].row)
  {
    RunKeeps(actions);
  }

  lemma NothingMadeYet(actions: seq<Action>)
    requires Run(Honest, Init, actions).Some?
    ensures var s := Run(Honest, Init, actions).value;
            0 in s.pc && s.pc[0].Calling? && s.pc[0].made.None? ==> NoneLive(s.live, s.pc[0].row)
  {
    RunKeeps(actions);
  }
}
