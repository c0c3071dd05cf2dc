/** What the protocol guarantees over whole runs when every provider meets its contract. A run is any
    interleaving of any number of `Execute` and `Reconcile` calls with failing store writes, failing
    provider calls and crashes at any point. */
module ClaimSafety {
  import opened Options
  import opened ClaimProtocol

  lemma {:induction false} RunKeeps(actions: seq<Action>)
    requires Run(Honest, Init, actions).Some?
    ensures Inv(Run(Honest, Init, actions).value)
  {
    if actions != [] {
      var before := actions[..|actions| - 1];
      RunKeeps(before);
      StepKeeps(Run(Honest, Init, before).value, actions[|actions| - 1]);
    }
  }

  lemma ReachableKeeps(s: State)
    requires Reachable(Honest, s)
    ensures Inv(s)
  {
    var actions: seq<Action> :| Run(Honest, Init, actions) == Some(s);
    RunKeeps(actions);
  }

  /** At every point of every run each live resource is led to by a row recovery will see, and no row that
      recovery ignores has a live resource. */
  lemma WriteAheadAlways(s: State)
    requires Reachable(Honest, s)
    ensures forall res | res in s.live ::
              s.live[res] < |s.log| && Pending(s.log[s.live[res]]) && Leads(s.log[s.live[res]], res)
    ensures forall i, res | 0 <= i < |s.log| && Terminal(s.log[i].status) && res in s.live :: s.live[res] != i
  {
    ReachableKeeps(s);
  }

  predicate Reconciling(pc: PC) {
    pc.Querying? || pc.Sweeping? || (pc.Handling? && pc.job.Sweep?)
  }

  predicate Executing(pc: PC) {
    pc.NoProvider? || pc.Opening? || pc.Calling? || (pc.Handling? && pc.job.Claiming?)
  }

  lemma ReturningFromWrite(s: State, t: Thread, w: Write)
    requires PersistStep(s, t, w).Some? && t !in PersistStep(s, t, w).value.pc
    ensures PersistStep(s, t, w).value.holder == None && s.pc[t].job.Claiming?
  {
  }

  lemma OthersStay(s: State, a: Action, t: Thread)
    requires Step(Honest, s, a).Some? && !a.Crash? && t in s.pc
    requires a.Vanish? || a.t != t
    ensures t in Step(Honest, s, a).value.pc
  {
    if a.Persist? {
      assert t in PersistStep(s, a.t, a.w).value.pc;
    }
  }

  /** A goroutine that returns is the one that acted; where it returns from decides how it leaves. */
  lemma Returning(s: State, a: Action, t: Thread)
    requires Step(Honest, s, a).Some? && !a.Crash?
    requires t in s.pc && t !in Step(Honest, s, a).value.pc
    ensures Step(Honest, s, a).value.holder == None
    ensures Reconciling(s.pc[t]) ==>
              a == Query(t, false) || (a == Finish(t) && s.pc[t].Sweeping? && s.pc[t].todo == [])
  {
    if a.Vanish? || a.t != t {
      OthersStay(s, a, t);
    } else if a.Persist? {
      ReturningFromWrite(s, t, a.w);
    }
  }

  lemma TableClosed(s: State, t: Thread)
    requires Inv(s) && t in s.pc && s.pc[t] == Sweeping([], false)
    ensures s.live == map[] && forall row | row in s.log :: Terminal(row.status)
  {
    assert s.holder == Some(t);
    NothingPending(s.log, s.live);
    forall row | row in s.log ensures Terminal(row.status) {
      var i :| 0 <= i < |s.log| && s.log[i] == row;
      assert RowOk(s.created, i, row) && !Pending(row);
    }
  }

  /** `Reconcile` returns either with the engine halted, or with every audit row closed and nothing live. */
  lemma RecoveryIsComplete(s: State, a: Action, t: Thread)
    requires Reachable(Honest, s) && Step(Honest, s, a).Some? && !a.Crash?
    requires t in s.pc && Reconciling(s.pc[t]) && t !in Step(Honest, s, a).value.pc
    ensures var after := Step(Honest, s, a).value;
            after.halted || (after.live == map[] && forall row | row in after.log :: Terminal(row.status))
    ensures (a == Finish(t) && !s.pc[t].failed) <==> !Step(Honest, s, a).value.halted
  {
    Returning(s, a, t);
    if a.Finish? && !s.pc[t].failed {
      ReachableKeeps(s);
      TableClosed(s, t);
    }
  }

  /** A sweep records a failure only when a row was skipped, a write was not acknowledged or a release
      failed; so when every call succeeds, `Reconcile` clears the halt. */
  lemma FailureHasACause(s: State, a: Action, t: Thread)
    requires Reachable(Honest, s) && Step(Honest, s, a).Some?
    requires t in s.pc && (s.pc[t].Sweeping? || (s.pc[t].Handling? && s.pc[t].job.Sweep?))
    requires t in Step(Honest, s, a).value.pc
    requires !Failed(s.pc[t]) && Failed(Step(Honest, s, a).value.pc[t])
    ensures a == Skip(t) || (a.Persist? && (!a.w.Applied? || s.pc[t].phase.MarkReleaseFailed?))
  {
    if a.Persist? {
      if a.t == t {
        WriteFails(s, t, a.w);
      } else {
        OtherWrite(s, a.t, a.w, t);
      }
    } else {
      if a == Resume(t) && s.pc[t].Sweeping? && s.pc[t].todo != [] && !s.pc[t].todo[0].row.status.Attempting? {
        ReachableKeeps(s);
        HeadNamed(s, t);
      }
      OtherFailure(s, a, t);
    }
  }

  /** A pending row past ATTEMPTING has a receipt that names its resource. */
  lemma HeadNamed(s: State, t: Thread)
    requires Inv(s) && t in s.pc && s.pc[t].Sweeping? && s.pc[t].todo != []
    requires !s.pc[t].todo[0].row.status.Attempting?
    ensures s.pc[t].todo[0].row.receipt.Some? && s.pc[t].todo[0].row.receipt.value.id != ""
  {
    assert s.holder == Some(t);
    assert RowOk(s.created, s.pc[t].todo[0].id, s.log[s.pc[t].todo[0].id]);
  }

  lemma WriteFails(s: State, t: Thread, w: Write)
    requires PersistStep(s, t, w).Some? && t in PersistStep(s, t, w).value.pc
    requires s.pc[t].job.Sweep? && !s.pc[t].job.failed && Failed(PersistStep(s, t, w).value.pc[t])
    ensures !w.Applied? || s.pc[t].phase.MarkReleaseFailed?
  {
  }

  lemma OtherWrite(s: State, u: Thread, w: Write, t: Thread)
    requires PersistStep(s, u, w).Some? && t != u && t in s.pc
    ensures t in PersistStep(s, u, w).value.pc && PersistStep(s, u, w).value.pc[t] == s.pc[t]
  {
  }

  lemma OtherFailure(s: State, a: Action, t: Thread)
    requires Step(Honest, s, a).Some? && !a.Persist?
    requires t in s.pc && t in Step(Honest, s, a).value.pc
    requires s.pc[t].Sweeping? || (s.pc[t].Handling? && s.pc[t].job.Sweep?)
    requires !Failed(s.pc[t]) && Failed(Step(Honest, s, a).value.pc[t])
    requires a == Resume(t) && s.pc[t].Sweeping? && s.pc[t].todo != [] && !s.pc[t].todo[0].row.status.Attempting? ==>
               s.pc[t].todo[0].row.receipt.Some? && s.pc[t].todo[0].row.receipt.value.id != ""
    ensures a == Skip(t)
  {
  }

  predicate Failed(pc: PC) {
    (pc.Sweeping? && pc.failed) || (pc.Handling? && pc.job.Sweep? && pc.job.failed)
  }

  lemma {:induction false} OrderlyRun(s: State, actions: seq<Action>)
    requires Inv(s) && Orderly(s) && Run(Honest, s, actions).Some?
    requires forall a | a in actions :: !a.Crash?
    ensures Inv(Run(Honest, s, actions).value) && Orderly(Run(Honest, s, actions).value)
    decreases |actions|
  {
    if actions != [] {
      var before := actions[..|actions| - 1];
      OrderlyRun(s, before);
      assert actions[|actions| - 1] in actions;
      StepKeeps(Run(Honest, s, before).value, actions[|actions| - 1]);
    }
  }

  /** From any reachable moment with nothing live, and until the process dies: at most one resource is live
      over every interleaving, and while nobody holds the mutex a live resource means a halted engine. */
  lemma AtMostOneLive(s: State, actions: seq<Action>)
    requires Reachable(Honest, s) && s.live == map[]
    requires Run(Honest, s, actions).Some? && forall a | a in actions :: !a.Crash?
    ensures var now := Run(Honest, s, actions).value;
            && (forall a, b | a in now.live && b in now.live :: a == b)
            && (now.live != map[] ==> now.halted || exists t :: t in now.pc && Executing(now.pc[t]))
  {
    ReachableKeeps(s);
    OrderlyRun(s, actions);
    var now := Run(Honest, s, actions).value;
    if now.live != map[] && !now.halted {
      var res :| res in now.live;
      assert Claimed(now) == Some(now.live[res]);
      assert Executing(now.pc[now.holder.value]);
    }
  }

  /** An `Execute` that returns and leaves its resource live has halted the engine. */
  lemma ExecuteLeavesNothingUnhalted(s: State, actions: seq<Action>, last: Action, t: Thread)
    requires Reachable(Honest, s) && s.live == map[]
    requires Run(Honest, s, actions + [last]).Some? && forall a | a in actions + [last] :: !a.Crash?
    requires var before := Run(Honest, s, (actions + [last])[..|actions|]);
             before.Some? && t in before.value.pc && Executing(before.value.pc[t])
    requires t !in Run(Honest, s, actions + [last]).value.pc
    ensures var now := Run(Honest, s, actions + [last]).value; now.live == map[] || now.halted
  {
    ReachableKeeps(s);
    OrderlyRun(s, actions + [last]);
    OrderlyRun(s, (actions + [last])[..|actions|]);
    var before := Run(Honest, s, (actions + [last])[..|actions|]).value;
    var now := Run(Honest, s, actions + [last]).value;
    assert (actions + [last])[|actions|] == last;
    Returning(before, last, t);
  }

  /** A claim starts, and a resource is created, only in an engine that is not halted; no key twice. */
  lemma ClaimsStartOnce(s: State, a: Action)
    requires Reachable(Honest, s) && Step(Honest, s, a).Some?
    ensures var after := Step(Honest, s, a).value;
            && (forall i, j | 0 <= i < j < |after.started| :: after.started[i] != after.started[j])
            && (after.created != s.created ==> !s.halted)
            && (after.started != s.started && !a.Crash? ==>
                  !s.halted && exists key :: key !in s.started && after.started == s.started + [key])
  {
    ReachableKeeps(s);
    StepKeeps(s, a);
    if a.Create? {
      assert s.holder == Some(a.t);
    } else if a.Open? {
      assert s.holder == Some(a.t);
      assert Step(Honest, s, a).value.started == s.started || s.pc[a.t].key !in s.started;
    } else {
      Unchanged(s, a);
    }
  }

  lemma Unchanged(s: State, a: Action)
    requires Step(Honest, s, a).Some? && !a.Create? && !a.Open?
    ensures Step(Honest, s, a).value.created == s.created
    ensures a.Crash? || Step(Honest, s, a).value.started == s.started
  {
  }

  /** Only a reconciliation that left nothing live, or the death of the process, lifts the halt. */
  lemma HaltLifts(s: State, a: Action)
    requires Reachable(Honest, s) && Step(Honest, s, a).Some?
    requires s.halted && !Step(Honest, s, a).value.halted
    ensures a.Crash? || (a.Finish? && Step(Honest, s, a).value.live == map[])
  {
    ReachableKeeps(s);
    if a.Finish? {
      NothingPending(s.log, s.live);
    }
  }

  /** `Release` is only ever aimed at a resource that the attempt of the row being handled created. */
  lemma ReleasesAreGenuine(s: State, t: Thread, ok: bool, removed: bool)
    requires Reachable(Honest, s) && Step(Honest, s, Release(t, ok, removed)).Some?
    ensures s.pc[t].Handling?
    ensures (Resource(s.pc[t].receipt.provider, s.pc[t].receipt.id), s.pc[t].row) in s.created
  {
    ReachableKeeps(s);
    assert s.holder == Some(t);
  }
}
