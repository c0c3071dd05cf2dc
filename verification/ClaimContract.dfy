/** The provider contract is exact: the write-ahead property holds of every run if and only if providers
    keep all six clauses. Each clause, broken alone, has a concrete run that loses a resource. */
module ClaimContract {
  import opened Options
  import opened ClaimProtocol
  import opened ClaimSafety

  lemma Reach(c: Contract, s: State, a: Action) returns (after: State)
    requires Reachable(c, s) && Step(c, s, a).Some?
    ensures Step(c, s, a) == Some(after) && Reachable(c, after)
  {
    var actions: seq<Action> :| Run(c, Init, actions) == Some(s);
    after := Step(c, s, a).value;
    assert (actions + [a])[..|actions|] == actions;
    assert Run(c, Init, actions + [a]) == Some(after);
  }

  const Opened := Row("p", Attempting, Some(Receipt("p", "")))

  /** A claim that has created resource "a" and not returned yet. */
  lemma Created(c: Contract) returns (s: State)
    ensures Reachable(c, s)
    ensures s.log == [Opened] && s.live == map[Resource("p", "a") := 0]
    ensures s.pc == map[0 := Calling(0, "p", Some("a"))] && s.holder == Some(0) && !s.halted
  {
    assert Run(c, Init, []) == Some(Init);
    s := Reach(c, Init, Call(0, "k", Some("p")));
    s := Reach(c, s, Enter(0));
    s := Reach(c, s, Open(0, Applied));
    s := Reach(c, s, Create(0, "a"));
  }

  /** A quiet engine starts to reconcile. */
  lemma SweepStarted(c: Contract, s: State) returns (after: State)
    requires Reachable(c, s) && s.pc == map[] && s.holder == None
    ensures Reachable(c, after) && after == s.(pc := map[0 := Querying], holder := Some(0))
  {
    after := Reach(c, s, CallReconcile(0));
    assert after.pc == map[0 := WaitingToReconcile];
    after := Reach(c, after, Enter(0));
    assert after.pc == map[0 := Querying];
  }

  /** The claim has reported its resource and its receipt is on file. */
  lemma Filed(c: Contract) returns (s: State)
    ensures Reachable(c, s)
    ensures s.log == [Row("p", ClaimSucceeded, Some(Receipt("p", "a")))] && s.live == map[Resource("p", "a") := 0]
    ensures 0 in s.pc && s.pc[0] == Handling(0, Receipt("p", "a"), Verifying, Claiming)
  {
    s := Created(c);
    s := Reach(c, s, Return(0, Accepted("a")));
    s := Reach(c, s, Persist(0, Applied));
  }

  /** The release is next. */
  lemma AboutToRelease(c: Contract) returns (s: State)
    ensures Reachable(c, s)
    ensures s.log == [Row("p", ReleasePending, Some(Receipt("p", "a")))] && s.live == map[Resource("p", "a") := 0]
    ensures 0 in s.pc && s.pc[0] == Handling(0, Receipt("p", "a"), Releasing, Claiming)
  {
    s := Filed(c);
    s := Reach(c, s, Verify(0));
    s := Reach(c, s, Persist(0, Applied));
  }

  /** The same claim after the process died, with the recovery sweep about to look at its row. */
  lemma Interrupted(c: Contract) returns (s: State)
    ensures Reachable(c, s)
    ensures s.log == [Opened] && s.live == map[Resource("p", "a") := 0]
    ensures s.pc == map[0 := Sweeping([Snapshot(0, Opened)], false)] && s.holder == Some(0) && !s.halted
  {
    s := Created(c);
    s := Reach(c, s, Crash);
    s := SweepStarted(c, s);
    assert Snapshots(s.log, 1) == [];
    assert Snapshots(s.log, 0) == [Snapshot(0, Opened)];
    s := Reach(c, s, Query(0, true));
  }

  lemma Lost(s: State)
    requires |s.log| == 1 && s.live == map[Resource("p", "a") := 0] && !Leads(s.log[0], Resource("p", "a"))
    ensures !WriteAhead(s.log, s.live)
  {
    assert Resource("p", "a") in s.live;
  }

  lemma BrokenReport(c: Contract, report: Report) returns (s: State)
    requires (report == Rejected && c.leaks) || (report == Invalid("") && c.invalid) || (report == Accepted("b") && c.misnames)
    ensures Reachable(c, s) && !WriteAhead(s.log, s.live)
  {
    s := Created(c);
    s := Reach(c, s, Return(0, report));
    s := Reach(c, s, Persist(0, Applied));
    Lost(s);
  }

  lemma BrokenRecovery(c: Contract, found: Option<string>) returns (s: State)
    requires (found == None && c.forgets) || (found == Some("b") && c.misrecovers)
    ensures Reachable(c, s) && !WriteAhead(s.log, s.live)
  {
    s := Interrupted(c);
    s := Reach(c, s, Recover(0, found));
    s := Reach(c, s, Persist(0, Applied));
    Lost(s);
  }

  lemma BrokenRelease(c: Contract) returns (s: State)
    requires c.lies
    ensures Reachable(c, s) && !WriteAhead(s.log, s.live)
  {
    s := AboutToRelease(c);
    s := Reach(c, s, Release(0, true, false));
    s := Reach(c, s, Persist(0, Applied));
    Lost(s);
  }

  lemma ContractIsExact(c: Contract)
    ensures (forall s: State | Reachable(c, s) :: WriteAhead(s.log, s.live)) <==> c == Honest
  {
    if c == Honest {
      forall s: State | Reachable(c, s) ensures WriteAhead(s.log, s.live) {
        WriteAheadAlways(s);
      }
    } else {
      var s: State;
      if c.leaks {
        s := BrokenReport(c, Rejected);
      } else if c.invalid {
        s := BrokenReport(c, Invalid(""));
      } else if c.misnames {
        s := BrokenReport(c, Accepted("b"));
      } else if c.forgets {
        s := BrokenRecovery(c, None);
      } else if c.misrecovers {
        s := BrokenRecovery(c, Some("b"));
      } else {
        s := BrokenRelease(c);
      }
    }
  }

  /** The engine has filed an unusable receipt, which empties the receipt column, and halted. */
  lemma Cleared(c: Contract) returns (s: State)
    requires c.invalid
    ensures Reachable(c, s)
    ensures s.log == [Opened.(receipt := None)] && s.live == map[Resource("p", "a") := 0]
    ensures s.pc == map[] && s.holder == None && s.halted
  {
    s := Created(c);
    s := Reach(c, s, Return(0, Invalid("")));
    s := Reach(c, s, Persist(0, Applied));
  }

  /** What the cleared receipt column costs: after a success with an unusable receipt, reconciliation lists
      nothing, returns nil and lifts the halt while the resource is still there. */
  lemma RejectedReceiptIsForgotten()
    ensures exists s: State ::
              && Reachable(Honest.(invalid := true), s)
              && s.live != map[] && !s.halted && s.pc == map[]
              && forall row | row in s.log :: !Pending(row)
  {
    var c := Honest.(invalid := true);
    var s := Cleared(c);
    s := SweepStarted(c, s);
    assert Snapshots(s.log, 1) == [];
    assert Snapshots(s.log, 0) == [];
    s := Reach(c, s, Query(0, true));
    assert s.pc == map[0 := Sweeping([], false)];
    s := Reach(c, s, Finish(0));
    assert s.pc == map[];
    assert Resource("p", "a") in s.live;
  }
}
