/** A provider whose release fails on a resource that is already gone, as Route 53 does, makes one crash
    permanent: if the process dies after the resource is removed and before the row is closed, no
    reconciliation ever succeeds again. Otherwise one can: from a quiet engine a reconciliation can succeed if
    and only if every open row past ATTEMPTING still has its resource. */
module ClaimStuck {
  import opened Options
  import opened ClaimProtocol
  import opened ClaimSafety
  import opened ClaimContract

  predicate Used(created: set<(Resource, RowId)>, res: Resource) {
    exists made | made in created :: made.0 == res
  }

  /** A release that reports success on an absent resource, or the second creation of a resource. */
  predicate Impossible(s: State, a: Action) {
    match a
    case Release(t, ok, _) =>
      ok && t in s.pc && s.pc[t].Handling? && Resource(s.pc[t].receipt.provider, s.pc[t].receipt.id) !in s.live
    case Create(t, id) => t in s.pc && s.pc[t].Calling? && Used(s.created, Resource(s.pc[t].provider, id))
    case _ => false
  }

  /** Contract steps in which a release succeeds only on a live resource and no resource is created twice. */
  function StrictStep(s: State, a: Action): Option<State> {
    if Impossible(s, a) then None else Step(Honest, s, a)
  }

  function StrictRun(s: State, actions: seq<Action>): Option<State>
    decreases |actions|
  {
    if actions == [] then Some(s)
    else match StrictRun(s, actions[..|actions| - 1])
      case None => None
      case Some(before) => StrictStep(before, actions[|actions| - 1])
  }

  ghost predicate Goes(s: State, later: State) {
    exists actions: seq<Action> :: StrictRun(s, actions) == Some(later)
  }

  /** The row still names a resource that no longer exists. */
  predicate Orphaned(s: State, row: RowId, res: Resource) {
    && row < |s.log|
    && Pending(s.log[row]) && !s.log[row].status.Attempting?
    && s.log[row].receipt == Some(Receipt(res.provider, res.id))
    && res.id != "" && res !in s.live && (res, row) in s.created
  }

  /** The sweep, if any, has failed or has yet to fail on this row. */
  predicate WillFail(pc: PC, row: RowId, res: Resource) {
    match pc
    case Sweeping(todo, failed) => failed || Listed(todo, row)
    case Handling(current, receipt, phase, job) =>
      if current == row then
        job.Sweep? && receipt == Receipt(res.provider, res.id) && (phase.MarkPending? || phase.Releasing? || phase.MarkReleaseFailed?)
      else job.Sweep? ==> job.failed || Listed(job.todo, row)
    case _ => true
  }

  predicate Stuck(s: State, row: RowId, res: Resource) {
    && Orphaned(s, row, res)
    && (s.holder.Some? && s.holder.value in s.pc ==> WillFail(s.pc[s.holder.value], row, res))
  }

  lemma ListedTail(todo: seq<Snapshot>, row: RowId)
    requires todo != [] && Listed(todo, row) && todo[0].id != row
    ensures Listed(todo[1..], row)
  {
    var i :| 0 <= i < |todo| && todo[i].id == row;
    assert todo[1..][i - 1].id == row;
  }

  lemma QueryLists(s: State, row: RowId)
    requires row < |s.log| && Pending(s.log[row])
    ensures Listed(Snapshots(s.log, 0), row)
  {
    SnapshotsExact(s.log, 0);
  }

  lemma SweepStepSticks(s: State, a: Action, row: RowId, res: Resource)
    requires Inv(s) && Stuck(s, row, res) && StrictStep(s, a).Some?
    requires a.Skip? || a.Recover? || a.Resume? || a.Query? || a.Finish?
    ensures Stuck(StrictStep(s, a).value, row, res)
  {
    assert s.holder == Some(a.t);
    if a.Query? {
      QueryLists(s, row);
    } else if !a.Finish? {
      var todo := s.pc[a.t].todo;
      if Listed(todo, row) && todo[0].id != row {
        ListedTail(todo, row);
      }
    }
  }

  lemma WriteSticks(s: State, t: Thread, w: Write, row: RowId, res: Resource)
    requires Inv(s) && Stuck(s, row, res) && PersistStep(s, t, w).Some?
    ensures Stuck(PersistStep(s, t, w).value, row, res)
  {
    assert s.holder == Some(t) && WillFail(s.pc[t], row, res);
    RowSticks(s, t, w, row, res);
    if s.pc[t].job.Sweep? {
      assert PersistStep(s, t, w).value.holder == Some(t);
    } else {
      assert t in PersistStep(s, t, w).value.pc ==> PersistStep(s, t, w).value.pc[t].job.Claiming?;
    }
  }

  lemma RowSticks(s: State, t: Thread, w: Write, row: RowId, res: Resource)
    requires Orphaned(s, row, res) && PersistStep(s, t, w).Some? && WillFail(s.pc[t], row, res)
    ensures Orphaned(PersistStep(s, t, w).value, row, res)
  {
  }

  predicate FromOutside(a: Action) {
    a.Vanish? || a.Crash? || a.Call? || a.CallReconcile? || a.Enter?
  }

  lemma OutsideStepSticks(s: State, a: Action, row: RowId, res: Resource)
    requires Inv(s) && Stuck(s, row, res) && StrictStep(s, a).Some? && FromOutside(a)
    ensures Stuck(StrictStep(s, a).value, row, res)
  {
  }

  lemma ClaimStepSticks(s: State, a: Action, row: RowId, res: Resource)
    requires Inv(s) && Stuck(s, row, res) && StrictStep(s, a).Some? && !FromOutside(a)
    requires !(a.Skip? || a.Recover? || a.Resume? || a.Query? || a.Finish? || a.Persist?)
    ensures Stuck(StrictStep(s, a).value, row, res)
  {
    assert s.holder == Some(a.t);
  }

  lemma {:induction false} StuckForever(s: State, actions: seq<Action>, row: RowId, res: Resource)
    requires Inv(s) && Stuck(s, row, res) && StrictRun(s, actions).Some?
    ensures Inv(StrictRun(s, actions).value) && Stuck(StrictRun(s, actions).value, row, res)
    decreases |actions|
  {
    if actions != [] {
      var before := actions[..|actions| - 1];
      var a := actions[|actions| - 1];
      StuckForever(s, before, row, res);
      var last := StrictRun(s, before).value;
      StepKeeps(last, a);
      if a.Persist? {
        WriteSticks(last, a.t, a.w, row, res);
      } else if a.Skip? || a.Recover? || a.Resume? || a.Query? || a.Finish? {
        SweepStepSticks(last, a, row, res);
      } else if FromOutside(a) {
        OutsideStepSticks(last, a, row, res);
      } else {
        ClaimStepSticks(last, a, row, res);
      }
    }
  }

  /** After the crash, in every continuation: the row stays open and every sweep that ends leaves the engine
      halted. */
  lemma ReconciliationNeverSucceeds(s: State, actions: seq<Action>, t: Thread, row: RowId, res: Resource)
    requires Reachable(Honest, s) && s.pc == map[] && s.holder == None && Orphaned(s, row, res)
    requires StrictRun(s, actions).Some?
    ensures var now := StrictRun(s, actions).value;
            && row < |now.log| && Pending(now.log[row])
            && (StrictStep(now, Finish(t)).Some? ==> StrictStep(now, Finish(t)).value.halted)
  {
    ReachableKeeps(s);
    StuckForever(s, actions, row, res);
    var now := StrictRun(s, actions).value;
    if StrictStep(now, Finish(t)).Some? {
      assert now.holder == Some(t);
    }
  }

  // ---------------------------------------------------------------- when reconciliation can succeed

  /** An open row past ATTEMPTING has its resource. */
  predicate Backed(log: seq<Row>, live: map<Resource, RowId>, id: RowId)
    requires id < |log|
  {
    Pending(log[id]) && !log[id].status.Attempting? ==>
      var res := Resource(log[id].receipt.value.provider, log[id].receipt.value.id);
      res in live && live[res] == id
  }

  /** Each resource was created once, by one attempt, under a name. */
  predicate Fresh(created: set<(Resource, RowId)>) {
    && (forall made | made in created :: made.0.id != "")
    && (forall a, b | a in created && b in created :: a.0 == b.0 ==> a == b)
  }

  lemma CreatedGrows(s: State, a: Action)
    requires StrictStep(s, a).Some?
    ensures StrictStep(s, a).value.created == s.created
            || exists res: Resource, row: RowId :: res.id != "" && !Used(s.created, res)
                                     && StrictStep(s, a).value.created == s.created + {(res, row)}
  {
    if a.Create? {
      var res := Resource(s.pc[a.t].provider, a.id);
      assert res.id != "" && !Used(s.created, res);
      assert CreateStep(s, a.t, a.id).value.created == s.created + {(res, s.pc[a.t].row)};
    } else if !a.Open? {
      Unchanged(s, a);
    }
  }

  lemma FreshGrows(created: set<(Resource, RowId)>, res: Resource, row: RowId)
    requires Fresh(created) && res.id != "" && !Used(created, res)
    ensures Fresh(created + {(res, row)})
  {
  }

  lemma StrictStepKeeps(s: State, a: Action)
    requires Inv(s) && Fresh(s.created) && StrictStep(s, a).Some?
    ensures Inv(StrictStep(s, a).value) && Fresh(StrictStep(s, a).value.created)
  {
    var after := StrictStep(s, a).value;
    assert Inv(after) by {
      StepKeeps(s, a);
    }
    CreatedGrows(s, a);
    if after.created != s.created {
      var res: Resource, row: RowId :| res.id != "" && !Used(s.created, res) && after.created == s.created + {(res, row)};
      FreshGrows(s.created, res, row);
    }
  }

  lemma {:induction false} StrictRunKeeps(s: State, actions: seq<Action>)
    requires Inv(s) && Fresh(s.created) && StrictRun(s, actions).Some?
    ensures Inv(StrictRun(s, actions).value) && Fresh(StrictRun(s, actions).value.created)
    decreases |actions|
  {
    if actions != [] {
      StrictRunKeeps(s, actions[..|actions| - 1]);
      StrictStepKeeps(StrictRun(s, actions[..|actions| - 1]).value, actions[|actions| - 1]);
    }
  }

  lemma {:induction false} StrictRunsCompose(s: State, first: seq<Action>, second: seq<Action>)
    requires StrictRun(s, first).Some?
    ensures StrictRun(s, first + second) == StrictRun(StrictRun(s, first).value, second)
    decreases |second|
  {
    if second == [] {
      assert first + second == first;
    } else {
      StrictRunsCompose(s, first, second[..|second| - 1]);
      assert (first + second)[..|first + second| - 1] == first + second[..|second| - 1];
    }
  }

  /** Every moment of a history without repeated creations, and of any continuation, is sound. */
  lemma HistoryKeeps(start: State, s: State)
    requires Goes(Init, start) && Goes(start, s)
    ensures Inv(s) && Fresh(s.created)
  {
    var first: seq<Action> :| StrictRun(Init, first) == Some(start);
    var second: seq<Action> :| StrictRun(start, second) == Some(s);
    StrictRunsCompose(Init, first, second);
    StrictRunKeeps(Init, first + second);
  }

  lemma {:induction false} StrictIsRun(s: State, actions: seq<Action>)
    requires StrictRun(s, actions).Some?
    ensures Run(Honest, s, actions) == StrictRun(s, actions)
    decreases |actions|
  {
    if actions != [] {
      StrictIsRun(s, actions[..|actions| - 1]);
    }
  }

  /** One more step of a run. */
  lemma Onward(start: State, s: State, a: Action) returns (after: State)
    requires Goes(start, s) && !Impossible(s, a) && Step(Honest, s, a).Some?
    ensures Step(Honest, s, a) == Some(after) && Goes(start, after)
  {
    var actions: seq<Action> :| StrictRun(start, actions) == Some(s);
    after := Step(Honest, s, a).value;
    assert (actions + [a])[..|actions|] == actions;
    assert StrictRun(start, actions + [a]) == Some(after);
  }

  predicate At(s: State, pc: PC) {
    0 in s.pc && s.pc[0] == pc && s.holder == Some(0)
  }

  /** Only the row and its resource change. */
  predicate OnlyRow(s: State, after: State, id: RowId) {
    && |after.log| == |s.log|
    && (forall i | 0 <= i < |s.log| && i != id :: after.log[i] == s.log[i])
    && (forall res | res in s.live && s.live[res] != id :: res in after.live && after.live[res] == s.live[res])
  }

  /** What the head of a sweep's list is known to be. */
  predicate HeadOk(s: State, todo: seq<Snapshot>)
    requires todo != []
  {
    var Snapshot(id, row) := todo[0];
    && id < |s.log| && s.log[id] == row
    && (forall res | res in s.live && s.live[res] == id :: res.provider == row.provider && res.id != "")
    && (!row.status.Attempting? ==> Pending(row) && row.receipt.value.id != "")
  }

  lemma HeadIsOk(s: State, todo: seq<Snapshot>)
    requires Inv(s) && Fresh(s.created) && At(s, Sweeping(todo, false)) && todo != []
    ensures TodoOk(s.log, todo) && HeadOk(s, todo)
  {
    var id := todo[0].id;
    assert RowOk(s.created, id, s.log[id]);
    forall res | res in s.live && s.live[res] == id ensures res.provider == todo[0].row.provider && res.id != "" {
      assert Leads(s.log[id], res) && (res, id) in s.created;
    }
  }

  lemma RemoveResource(start: State, s: State, receipt: Receipt, h: PC) returns (after: State)
    requires Goes(start, s) && At(s, h) && h.Handling? && h.phase.Releasing?
    requires receipt == h.receipt && Resource(receipt.provider, receipt.id) in s.live
    ensures Goes(start, after) && At(after, h.(phase := MarkReleased))
    ensures after.log == s.log && after.live == s.live - {Resource(receipt.provider, receipt.id)} && after.created == s.created
  {
    after := Onward(start, s, Release(0, true, true));
  }

  lemma FileStatus(start: State, s: State, h: PC) returns (after: State)
    requires Goes(start, s) && At(s, h) && h.Handling? && h.job.Sweep? && !h.job.failed && h.row < |s.log|
    requires h.phase.MarkPending? || h.phase.MarkReleased? || h.phase.MarkSucceeded? || h.phase.MarkFailed?
    ensures Goes(start, after)
    ensures At(after, if h.phase.MarkSucceeded? then h.(phase := MarkPending)
                      else if h.phase.MarkPending? then h.(phase := Releasing)
                      else Sweeping(h.job.todo, false))
    ensures |after.log| == |s.log| && after.live == s.live
    ensures forall i | 0 <= i < |s.log| && i != h.row :: after.log[i] == s.log[i]
  {
    after := Onward(start, s, Persist(0, Applied));
  }

  /** A row whose resource is there can be released and closed. */
  lemma ReleaseRow(start: State, s: State, h: PC) returns (after: State)
    requires Goes(start, s) && At(s, h) && h.Handling? && h.job.Sweep? && !h.job.failed && h.row < |s.log|
    requires h.phase.MarkPending?
    requires var res := Resource(h.receipt.provider, h.receipt.id); res in s.live && s.live[res] == h.row
    ensures Goes(start, after) && At(after, Sweeping(h.job.todo, false)) && OnlyRow(s, after, h.row)
  {
    after := FileStatus(start, s, h);
    after := RemoveResource(start, after, h.receipt, h.(phase := Releasing));
    after := FileStatus(start, after, h.(phase := MarkReleased));
  }

  /** An interrupted attempt can be recovered and closed. */
  lemma RecoverRow(start: State, s: State, todo: seq<Snapshot>) returns (after: State)
    requires Goes(start, s) && At(s, Sweeping(todo, false)) && todo != []
    requires HeadOk(s, todo) && todo[0].row.status.Attempting?
    ensures Goes(start, after) && At(after, Sweeping(todo[1..], false)) && OnlyRow(s, after, todo[0].id)
  {
    var id := todo[0].id;
    if NoneLive(s.live, id) {
      after := Onward(start, s, Recover(0, None));
      after := FileStatus(start, after, after.pc[0]);
    } else {
      var res :| res in s.live && s.live[res] == id;
      after := Onward(start, s, Recover(0, Some(res.id)));
      after := FileStatus(start, after, after.pc[0]);
      after := ReleaseRow(start, after, after.pc[0]);
    }
  }

  /** A row past ATTEMPTING that has its resource can be released and closed. */
  lemma ResumeRow(start: State, s: State, todo: seq<Snapshot>, receipt: Receipt) returns (after: State)
    requires Goes(start, s) && At(s, Sweeping(todo, false)) && todo != [] && todo[0].id < |s.log|
    requires !todo[0].row.status.Attempting? && todo[0].row.receipt == Some(receipt) && receipt.id != ""
    requires var res := Resource(receipt.provider, receipt.id); res in s.live && s.live[res] == todo[0].id
    ensures Goes(start, after) && At(after, Sweeping(todo[1..], false)) && OnlyRow(s, after, todo[0].id)
  {
    after := Onward(start, s, Resume(0));
    after := ReleaseRow(start, after, Handling(todo[0].id, receipt, MarkPending, Sweep(todo[1..], false)));
  }

  lemma CloseRow(start: State, s: State, todo: seq<Snapshot>) returns (after: State)
    requires Goes(start, s) && At(s, Sweeping(todo, false)) && todo != []
    requires HeadOk(s, todo) && Backed(s.log, s.live, todo[0].id)
    ensures Goes(start, after) && At(after, Sweeping(todo[1..], false)) && OnlyRow(s, after, todo[0].id)
  {
    if todo[0].row.status.Attempting? {
      after := RecoverRow(start, s, todo);
    } else {
      after := ResumeRow(start, s, todo, todo[0].row.receipt.value);
    }
  }

  predicate AllBacked(s: State, todo: seq<Snapshot>) {
    forall i | 0 <= i < |todo| :: todo[i].id < |s.log| && Backed(s.log, s.live, todo[i].id)
  }

  lemma StillBacked(s: State, after: State, todo: seq<Snapshot>)
    requires TodoOk(s.log, todo) && todo != [] && AllBacked(s, todo) && OnlyRow(s, after, todo[0].id)
    ensures AllBacked(after, todo[1..])
  {
    forall i | 0 <= i < |todo[1..]| ensures todo[1..][i].id < |after.log| && Backed(after.log, after.live, todo[1..][i].id) {
      assert todo[1..][i] == todo[i + 1] && Backed(s.log, s.live, todo[i + 1].id);
    }
  }

  lemma {:induction false} CloseRows(start: State, s: State, todo: seq<Snapshot>) returns (after: State)
    requires Goes(Init, start) && Goes(start, s) && At(s, Sweeping(todo, false)) && AllBacked(s, todo)
    ensures Goes(start, after) && At(after, Sweeping([], false))
    decreases |todo|
  {
    after := s;
    if todo != [] {
      assert TodoOk(s.log, todo) && HeadOk(s, todo) by {
        HistoryKeeps(start, s);
        HeadIsOk(s, todo);
      }
      after := CloseRow(start, s, todo);
      StillBacked(s, after, todo);
      after := CloseRows(start, after, todo[1..]);
    }
  }

  /** Some continuation ends with a reconciliation that lifts the halt. */
  ghost predicate CanReconcile(s: State) {
    exists later, t: Thread :: Goes(s, later) && StrictStep(later, Finish(t)).Some? && !StrictStep(later, Finish(t)).value.halted
  }

  lemma SweepBegins(s: State) returns (after: State)
    requires Goes(Init, s) && s.pc == map[] && s.holder == None
    ensures Goes(s, after) && At(after, Sweeping(Snapshots(s.log, 0), false)) && after.log == s.log && after.live == s.live
  {
    assert StrictRun(s, []) == Some(s);
    after := Onward(s, s, CallReconcile(0));
    after := Onward(s, after, Enter(0));
    after := Onward(s, after, Query(0, true));
  }

  lemma CleanFinish(s: State)
    requires At(s, Sweeping([], false))
    ensures StrictStep(s, Finish(0)).Some? && !StrictStep(s, Finish(0)).value.halted
  {
  }

  lemma BackedReconciles(s: State)
    requires Goes(Init, s) && s.pc == map[] && s.holder == None
    requires forall id | 0 <= id < |s.log| :: Backed(s.log, s.live, id)
    ensures CanReconcile(s)
  {
    var after := SweepBegins(s);
    SnapshotsExact(s.log, 0);
    after := CloseRows(s, after, Snapshots(s.log, 0));
    CleanFinish(after);
  }

  /** In a history that never creates a resource twice, a row that lost its resource is orphaned. */
  lemma LostIsOrphaned(s: State, id: RowId) returns (res: Resource)
    requires Inv(s) && Fresh(s.created) && id < |s.log| && !Backed(s.log, s.live, id)
    ensures Orphaned(s, id, res)
  {
    res := Resource(s.log[id].receipt.value.provider, s.log[id].receipt.value.id);
    assert RowOk(s.created, id, s.log[id]);
    assert (res, id) in s.created;
    assert forall live | live in s.live :: (live, s.live[live]) in s.created;
  }

  /** From a quiet engine a reconciliation can succeed if and only if every open row past ATTEMPTING still has
      its resource; with it some run closes every row, without it none does. */
  lemma ReconciliationCanSucceed(s: State)
    requires Goes(Init, s) && s.pc == map[] && s.holder == None
    ensures CanReconcile(s) <==> forall id | 0 <= id < |s.log| :: Backed(s.log, s.live, id)
  {
    var actions: seq<Action> :| StrictRun(Init, actions) == Some(s);
    StrictRunKeeps(Init, actions);
    if forall id | 0 <= id < |s.log| :: Backed(s.log, s.live, id) {
      BackedReconciles(s);
    } else if CanReconcile(s) {
      var later, t: Thread :| Goes(s, later) && StrictStep(later, Finish(t)).Some? && !StrictStep(later, Finish(t)).value.halted;
      var id :| 0 <= id < |s.log| && !Backed(s.log, s.live, id);
      var res := LostIsOrphaned(s, id);
      var onward: seq<Action> :| StrictRun(s, onward) == Some(later);
      StrictIsRun(Init, actions);
      ReconciliationNeverSucceeds(s, onward, t, id, res);
      assert false;
    }
  }

  /** A claim has created its resource. */
  lemma ResourceCreated() returns (s: State)
    ensures Goes(Init, s) && s.live == map[Resource("p", "a") := 0] && (Resource("p", "a"), 0) in s.created
    ensures |s.log| == 1 && s.log[0].provider == "p" && At(s, Calling(0, "p", Some("a")))
  {
    assert StrictRun(Init, []) == Some(Init);
    s := Onward(Init, Init, Call(0, "k", Some("p")));
    s := Onward(Init, s, Enter(0));
    s := Onward(Init, s, Open(0, Applied));
    s := Onward(Init, s, Create(0, "a"));
  }

  lemma ReceiptFiled() returns (s: State)
    ensures Goes(Init, s) && s.live == map[Resource("p", "a") := 0] && (Resource("p", "a"), 0) in s.created
    ensures |s.log| == 1 && s.log[0].provider == "p" && At(s, Handling(0, Receipt("p", "a"), Verifying, Claiming))
  {
    s := ResourceCreated();
    s := Onward(Init, s, Return(0, Accepted("a")));
    s := Onward(Init, s, Persist(0, Applied));
  }

  /** The resource is released, and the table does not say so yet. */
  lemma Released() returns (s: State)
    ensures Goes(Init, s) && s.live == map[]
    ensures s.log == [Row("p", ReleasePending, Some(Receipt("p", "a")))] && (Resource("p", "a"), 0) in s.created
  {
    s := ReceiptFiled();
    s := Onward(Init, s, Verify(0));
    s := Onward(Init, s, Persist(0, Applied));
    s := RemoveResource(Init, s, Receipt("p", "a"), s.pc[0]);
  }

  /** Such a moment is reachable: the process dies between a successful release and the write after it. */
  lemma CrashOrphansARow()
    ensures exists s: State, res: Resource ::
              Goes(Init, s) && s.pc == map[] && s.holder == None && Orphaned(s, 0, res) && !CanReconcile(s)
  {
    var s := Released();
    s := Onward(Init, s, Crash);
    assert Orphaned(s, 0, Resource("p", "a"));
    assert !Backed(s.log, s.live, 0);
    ReconciliationCanSucceed(s);
  }
}
