/** The calls the claim engine makes, as histories of the audit store and of the providers: which calls one
    claim and one row of a reconciliation consist of, given how each of them ended. */
module ClaimCalls {
  import opened Options
  import opened ClaimProtocol
  import opened ProviderContract

  datatype StoreCall =
    | QueryCall(ok: bool)
    | CreateCall(row: Row, w: Write)
    | UpdateCall(id: RowId, status: Status, receipt: Receipt, w: Write)

  /** `row` is the audit row a claim, a recovery or a release is made for. */
  datatype CloudCall =
    | ClaimCall(provider: string, row: RowId, report: Report)
    | RecoverCall(provider: string, row: RowId, answer: Recovery)
    | ControlCall(provider: string, id: string, proven: bool)
    | ReleaseCall(row: RowId, receipt: Receipt, ok: bool)

  predicate Unconfirmed(c: StoreCall) {
    match c
    case QueryCall(ok) => !ok
    case CreateCall(_, w) => !w.Applied?
    case UpdateCall(_, _, _, w) => !w.Applied?
  }

  /** A recovery that could not tell, or a release that failed. */
  predicate Unanswered(c: CloudCall) {
    match c
    case RecoverCall(_, _, answer) => answer.Unknown?
    case ReleaseCall(_, _, ok) => !ok
    case _ => false
  }

  predicate SomeFailed(wrote: seq<StoreCall>, called: seq<CloudCall>) {
    (exists c :: c in wrote && Unconfirmed(c)) || (exists c :: c in called && Unanswered(c))
  }

  /** A row a reconciliation can only report: its provider is not available, or its receipt names nothing. */
  predicate Unusable(record: Snapshot, known: set<string>) {
    || record.row.provider !in known
    || record.row.receipt.None?
    || (!record.row.status.Attempting? && record.row.receipt.value.id == "")
  }

  predicate Updates(c: StoreCall, id: RowId, status: Status, receipt: Receipt) {
    c.UpdateCall? && c.id == id && c.status == status && c.receipt == receipt
  }

  // ---------------------------------------------------------------- what an operation consists of

  /** One release, and the row says how it ended. */
  predicate Settled(id: RowId, receipt: Receipt, wrote: seq<StoreCall>, called: seq<CloudCall>) {
    && |called| == 1 && called[0].ReleaseCall? && called[0].row == id && called[0].receipt == receipt
    && |wrote| == 1 && Updates(wrote[0], id, if called[0].ok then ReleaseSucceeded else ReleaseFailed, receipt)
  }

  /** A claim gives its resource back whether or not the row could be marked. */
  predicate GivenBack(id: RowId, receipt: Receipt, wrote: seq<StoreCall>, called: seq<CloudCall>) {
    wrote != [] && Updates(wrote[0], id, ReleasePending, receipt) && Settled(id, receipt, wrote[1..], called)
  }

  /** Control is asked for only with the receipt on file. */
  predicate Demonstrated(id: RowId, receipt: Receipt, wrote: seq<StoreCall>, called: seq<CloudCall>) {
    && wrote != [] && Updates(wrote[0], id, ClaimSucceeded, receipt)
    && if !wrote[0].w.Applied? then Settled(id, receipt, wrote[1..], called)
       else
         && called != [] && called[0].ControlCall?
         && called[0].provider == receipt.provider && called[0].id == receipt.id
         && GivenBack(id, receipt, wrote[1..], called[1..])
  }

  predicate Answered(id: RowId, provider: string, report: Report, wrote: seq<StoreCall>, called: seq<CloudCall>) {
    match report
    case Accepted(name) => Demonstrated(id, Receipt(provider, name), wrote, called)
    case Partial(name) => GivenBack(id, Receipt(provider, name), wrote, called)
    case Anonymous => wrote == [] && called == []
    case Rejected => |wrote| == 1 && Updates(wrote[0], id, ClaimFailed, Receipt(provider, "")) && called == []
    case Invalid(_) => false
  }

  function FirstRow(provider: string): Row {
    Row(provider, Attempting, Some(Receipt(provider, "")))
  }

  /** The calls of one claim: the provider is asked only with the attempt on file. */
  predicate AttemptMade(id: RowId, provider: string, wrote: seq<StoreCall>, called: seq<CloudCall>) {
    && wrote != [] && wrote[0].CreateCall? && wrote[0].row == FirstRow(provider)
    && if !wrote[0].w.Applied? then |wrote| == 1 && called == []
       else
         && called != [] && called[0].ClaimCall? && called[0].provider == provider && called[0].row == id
         && Answered(id, provider, called[0].report, wrote[1..], called[1..])
  }

  /** A reconciliation releases only what it could mark. */
  predicate Reverted(id: RowId, receipt: Receipt, wrote: seq<StoreCall>, called: seq<CloudCall>) {
    && wrote != [] && Updates(wrote[0], id, ReleasePending, receipt)
    && if wrote[0].w.Applied? then Settled(id, receipt, wrote[1..], called) else |wrote| == 1 && called == []
  }

  predicate Resolved(id: RowId, provider: string, answer: Recovery, wrote: seq<StoreCall>, called: seq<CloudCall>) {
    match answer
    case Unknown => wrote == [] && called == []
    case NotFound => |wrote| == 1 && Updates(wrote[0], id, ClaimFailed, Receipt(provider, "")) && called == []
    case Found(name) =>
      && wrote != [] && Updates(wrote[0], id, ClaimSucceeded, Receipt(provider, name))
      && if wrote[0].w.Applied? then Reverted(id, Receipt(provider, name), wrote[1..], called) else |wrote| == 1 && called == []
  }

  /** The calls of a reconciliation for one listed row. */
  predicate Handled(record: Snapshot, known: set<string>, wrote: seq<StoreCall>, called: seq<CloudCall>) {
    if Unusable(record, known) then wrote == [] && called == []
    else if !record.row.status.Attempting? then Reverted(record.id, record.row.receipt.value, wrote, called)
    else
      && called != [] && called[0].RecoverCall? && called[0].provider == record.row.provider && called[0].row == record.id
      && Resolved(record.id, record.row.provider, called[0].answer, wrote, called[1..])
  }

  // ---------------------------------------------------------------- what follows for a claim

  /** Everything a successful claim rests on was done and went well. */
  predicate WentWell(id: RowId, provider: string, name: string, wrote: seq<StoreCall>, called: seq<CloudCall>) {
    && CreateCall(FirstRow(provider), Applied) in wrote
    && ClaimCall(provider, id, Accepted(name)) in called
    && UpdateCall(id, ClaimSucceeded, Receipt(provider, name), Applied) in wrote
    && ControlCall(provider, name, true) in called
    && ReturnedWell(id, Receipt(provider, name), wrote, called)
  }

  predicate ReturnedWell(id: RowId, receipt: Receipt, wrote: seq<StoreCall>, called: seq<CloudCall>) {
    ReleaseCall(id, receipt, true) in called && UpdateCall(id, ReleaseSucceeded, receipt, Applied) in wrote
  }

  /** The same of the calls that follow the provider's report. */
  predicate DemonstratedWell(wrote: seq<StoreCall>, called: seq<CloudCall>) {
    && |wrote| == 3 && wrote[0].UpdateCall? && wrote[0].w.Applied? && wrote[2].UpdateCall? && wrote[2].w.Applied?
    && |called| == 2 && called[0].ControlCall? && called[0].proven && called[1].ReleaseCall? && called[1].ok
  }

  lemma AttemptOutcome(id: RowId, provider: string, wrote: seq<StoreCall>, called: seq<CloudCall>)
    requires AttemptMade(id, provider, wrote, called)
    ensures (exists name :: WentWell(id, provider, name, wrote, called)) <==>
              wrote[0].w.Applied? && called[0].report.Accepted? && DemonstratedWell(wrote[1..], called[1..])
  {
    if name :| WentWell(id, provider, name, wrote, called) {
      WellFrom(id, provider, name, wrote, called);
    } else if wrote[0].w.Applied? && called[0].report.Accepted? && DemonstratedWell(wrote[1..], called[1..]) {
      WellTo(id, provider, wrote, called);
    }
  }

  lemma WellTo(id: RowId, provider: string, wrote: seq<StoreCall>, called: seq<CloudCall>)
    requires AttemptMade(id, provider, wrote, called)
    requires wrote[0].w.Applied? && called[0].report.Accepted? && DemonstratedWell(wrote[1..], called[1..])
    ensures WentWell(id, provider, called[0].report.id, wrote, called)
  {
    assert wrote[0] in wrote && wrote[1] in wrote && wrote[3] in wrote;
    assert called[0] in called && called[1] in called && called[2] in called;
  }

  lemma WellFrom(id: RowId, provider: string, name: string, wrote: seq<StoreCall>, called: seq<CloudCall>)
    requires AttemptMade(id, provider, wrote, called) && WentWell(id, provider, name, wrote, called)
    ensures wrote[0].w.Applied? && called[0].report.Accepted? && DemonstratedWell(wrote[1..], called[1..])
  {
  }

  /** A call that leaves something behind nobody can close: an unnamed creation or a failed release. */
  predicate Unsafe(c: CloudCall) {
    (c.ClaimCall? && c.report.Anonymous?) || (c.ReleaseCall? && !c.ok)
  }

  predicate SomeUnsafe(called: seq<CloudCall>) {
    exists c :: c in called && Unsafe(c)
  }

  lemma UnsafeFirst(first: CloudCall, rest: seq<CloudCall>)
    ensures SomeUnsafe([first] + rest) <==> Unsafe(first) || SomeUnsafe(rest)
  {
    assert first in [first] + rest;
    if c :| c in rest && Unsafe(c) {
      assert c in [first] + rest;
    }
  }

  const UNSUPPORTED_ROW := Row("unsupported", Unsupported, None)

  /** How `Execute` answers for an eligible host on the allowlist, by the calls it made. A nil error for a new key
      means that the claim was accepted, its three decisive writes acknowledged, control answered positively for
      that very resource and the release successful - and then there is one. */
  ghost predicate Entered(halted: bool, attempted: set<string>, id: RowId, key: string, target: Option<string>,
                          ok: bool, wrote: seq<StoreCall>, called: seq<CloudCall>) {
    if halted then !ok && wrote == [] && called == []
    else if target.None? then
      called == [] && |wrote| == 1 && wrote[0].CreateCall? && wrote[0].row == UNSUPPORTED_ROW && ok == wrote[0].w.Applied?
    else if key in attempted then ok && wrote == [] && called == []
    else
      && AttemptMade(id, target.value, wrote, called)
      && (ok <==> exists name :: WentWell(id, target.value, name, wrote, called))
  }

  // ---------------------------------------------------------------- histories by row

  function Only<T>(items: seq<T>, keep: T -> bool): (kept: seq<T>)
    decreases |items|
  {
    if items == [] then []
    else
      var last := items[|items| - 1];
      Only(items[..|items| - 1], keep) + if keep(last) then [last] else []
  }

  lemma {:induction false} OnlyConcat<T>(a: seq<T>, b: seq<T>, keep: T -> bool)
    ensures Only(a + b, keep) == Only(a, keep) + Only(b, keep)
    decreases |b|
  {
    if b == [] {
      assert a + b == a;
    } else {
      OnlyConcat(a, b[..|b| - 1], keep);
      assert (a + b)[..|a + b| - 1] == a + b[..|b| - 1];
    }
  }

  lemma {:induction false} OnlyAll<T>(items: seq<T>, keep: T -> bool)
    requires forall c | c in items :: keep(c)
    ensures Only(items, keep) == items
    decreases |items|
  {
    if items != [] {
      OnlyAll(items[..|items| - 1], keep);
      assert items == items[..|items| - 1] + [items[|items| - 1]];
    }
  }

  lemma {:induction false} OnlyNone<T>(items: seq<T>, keep: T -> bool)
    requires forall c | c in items :: !keep(c)
    ensures Only(items, keep) == []
    decreases |items|
  {
    if items != [] {
      OnlyNone(items[..|items| - 1], keep);
      assert items[|items| - 1] in items;
    }
  }

  function WritesTo(id: RowId): StoreCall -> bool {
    (c: StoreCall) => c.UpdateCall? && c.id == id
  }

  function MadeFor(id: RowId): CloudCall -> bool {
    (c: CloudCall) => (c.RecoverCall? || c.ReleaseCall?) && c.row == id
  }

  predicate OwnCalls(id: RowId, wrote: seq<StoreCall>, called: seq<CloudCall>) {
    (forall c | c in wrote :: WritesTo(id)(c)) && (forall c | c in called :: MadeFor(id)(c))
  }

  lemma SettledIsOwn(id: RowId, receipt: Receipt, wrote: seq<StoreCall>, called: seq<CloudCall>)
    requires Settled(id, receipt, wrote, called)
    ensures OwnCalls(id, wrote, called)
  {
  }

  lemma RevertedIsOwn(id: RowId, receipt: Receipt, wrote: seq<StoreCall>, called: seq<CloudCall>)
    requires Reverted(id, receipt, wrote, called)
    ensures OwnCalls(id, wrote, called)
  {
    if wrote[0].w.Applied? {
      SettledIsOwn(id, receipt, wrote[1..], called);
      assert wrote == [wrote[0]] + wrote[1..];
    }
  }

  lemma ResolvedIsOwn(id: RowId, provider: string, answer: Recovery, wrote: seq<StoreCall>, called: seq<CloudCall>)
    requires Resolved(id, provider, answer, wrote, called)
    ensures OwnCalls(id, wrote, called)
  {
    if answer.Found? && wrote[0].w.Applied? {
      RevertedIsOwn(id, Receipt(provider, answer.id), wrote[1..], called);
      assert wrote == [wrote[0]] + wrote[1..];
    }
  }

  lemma HandledIsOwn(record: Snapshot, known: set<string>, wrote: seq<StoreCall>, called: seq<CloudCall>)
    requires Handled(record, known, wrote, called)
    ensures OwnCalls(record.id, wrote, called)
  {
    if Unusable(record, known) {
    } else if !record.row.status.Attempting? {
      RevertedIsOwn(record.id, record.row.receipt.value, wrote, called);
    } else {
      ResolvedIsOwn(record.id, record.row.provider, called[0].answer, wrote, called[1..]);
      assert called == [called[0]] + called[1..];
    }
  }

  /** The histories hold exactly the calls for the first `done` rows, row by row. */
  predicate Swept(listed: seq<Snapshot>, known: set<string>, done: nat, wrote: seq<StoreCall>, called: seq<CloudCall>)
    requires done <= |listed|
  {
    && (forall i | 0 <= i < done :: HandledIn(listed[i], known, wrote, called))
    && (forall c | c in wrote && c.UpdateCall? :: ListedAs(listed[..done], c.id))
    && (forall c | c in called :: (c.RecoverCall? || c.ReleaseCall?) && ListedAs(listed[..done], c.row))
  }

  predicate HandledIn(record: Snapshot, known: set<string>, wrote: seq<StoreCall>, called: seq<CloudCall>) {
    Handled(record, known, Only(wrote, WritesTo(record.id)), Only(called, MadeFor(record.id)))
  }

  predicate ListedAs(listed: seq<Snapshot>, id: RowId) {
    exists i | 0 <= i < |listed| :: listed[i].id == id
  }

  lemma StillHandled(record: Snapshot, known: set<string>, wrote: seq<StoreCall>, called: seq<CloudCall>,
                     id: RowId, w: seq<StoreCall>, c: seq<CloudCall>)
    requires HandledIn(record, known, wrote, called) && OwnCalls(id, w, c) && id != record.id
    ensures HandledIn(record, known, wrote + w, called + c)
  {
    OnlyConcat(wrote, w, WritesTo(record.id));
    OnlyConcat(called, c, MadeFor(record.id));
    OnlyNone(w, WritesTo(record.id));
    OnlyNone(c, MadeFor(record.id));
  }

  lemma NowHandled(record: Snapshot, known: set<string>, wrote: seq<StoreCall>, called: seq<CloudCall>,
                   w: seq<StoreCall>, c: seq<CloudCall>)
    requires Handled(record, known, w, c)
    requires forall x | x in wrote :: !WritesTo(record.id)(x)
    requires forall x | x in called :: !MadeFor(record.id)(x)
    ensures HandledIn(record, known, wrote + w, called + c)
  {
    HandledIsOwn(record, known, w, c);
    OnlyConcat(wrote, w, WritesTo(record.id));
    OnlyConcat(called, c, MadeFor(record.id));
    OnlyNone(wrote, WritesTo(record.id));
    OnlyNone(called, MadeFor(record.id));
    OnlyAll(w, WritesTo(record.id));
    OnlyAll(c, MadeFor(record.id));
  }

  predicate Ascending(listed: seq<Snapshot>) {
    forall i, j | 0 <= i < j < |listed| :: listed[i].id < listed[j].id
  }

  lemma ListedMore(listed: seq<Snapshot>, done: nat, id: RowId)
    requires done < |listed|
    ensures ListedAs(listed[..done + 1], id) <==> ListedAs(listed[..done], id) || id == listed[done].id
  {
    if ListedAs(listed[..done], id) {
      var i :| 0 <= i < done && listed[..done][i].id == id;
      assert listed[..done + 1][i].id == id;
    }
    if id == listed[done].id {
      assert listed[..done + 1][done].id == id;
    }
  }

  lemma SweptMore(listed: seq<Snapshot>, known: set<string>, done: nat, wrote: seq<StoreCall>, called: seq<CloudCall>,
                  w: seq<StoreCall>, c: seq<CloudCall>)
    requires Ascending(listed) && done < |listed| && Swept(listed, known, done, wrote, called)
    requires Handled(listed[done], known, w, c)
    ensures Swept(listed, known, done + 1, wrote + w, called + c)
  {
    var record := listed[done];
    HandledIsOwn(record, known, w, c);
    assert !ListedAs(listed[..done], record.id);
    NowHandled(record, known, wrote, called, w, c);
    forall i | 0 <= i < done + 1 ensures HandledIn(listed[i], known, wrote + w, called + c) {
      if i < done {
        StillHandled(listed[i], known, wrote, called, record.id, w, c);
      }
    }
    forall x | x in wrote + w && x.UpdateCall? ensures ListedAs(listed[..done + 1], x.id) {
      ListedMore(listed, done, x.id);
    }
    forall x | x in called + c ensures (x.RecoverCall? || x.ReleaseCall?) && ListedAs(listed[..done + 1], x.row) {
      assert x in c ==> MadeFor(record.id)(x);
      ListedMore(listed, done, x.row);
    }
  }

  lemma SomeFailedMore(wrote: seq<StoreCall>, called: seq<CloudCall>, w: seq<StoreCall>, c: seq<CloudCall>)
    ensures SomeFailed(wrote + w, called + c) <==> SomeFailed(wrote, called) || SomeFailed(w, c)
  {
    if x :| x in wrote && Unconfirmed(x) {
      assert x in wrote + w;
    }
    if x :| x in w && Unconfirmed(x) {
      assert x in wrote + w;
    }
    if x :| x in called && Unanswered(x) {
      assert x in called + c;
    }
    if x :| x in c && Unanswered(x) {
      assert x in called + c;
    }
  }

  // ---------------------------------------------------------------- what a sweep releases

  /** What a reconciliation releases for a row. */
  predicate Aims(record: Snapshot, called: seq<CloudCall>, receipt: Receipt) {
    if record.row.status.Attempting? then
      receipt.provider == record.row.provider && RecoverCall(record.row.provider, record.id, Found(receipt.id)) in called
    else record.row.receipt == Some(receipt)
  }

  predicate IsRelease(c: CloudCall) {
    c.ReleaseCall?
  }

  predicate Marked(id: RowId, receipt: Receipt, wrote: seq<StoreCall>) {
    UpdateCall(id, ReleasePending, receipt, Applied) in wrote
  }

  predicate ReleasedOnce(id: RowId, receipt: Receipt, called: seq<CloudCall>) {
    Only(called, IsRelease) == [ReleaseCall(id, receipt, true)] || Only(called, IsRelease) == [ReleaseCall(id, receipt, false)]
  }

  lemma OnlyOne<T>(x: T, rest: seq<T>, keep: T -> bool)
    ensures Only([x] + rest, keep) == (if keep(x) then [x] else []) + Only(rest, keep)
  {
    OnlyConcat([x], rest, keep);
    assert [x][..0] == [];
  }

  lemma RevertedOnceMarked(id: RowId, receipt: Receipt, wrote: seq<StoreCall>, called: seq<CloudCall>)
    requires Reverted(id, receipt, wrote, called)
    ensures forall r | Marked(id, r, wrote) :: r == receipt
    ensures if Marked(id, receipt, wrote) then ReleasedOnce(id, receipt, called) else called == []
  {
    if called != [] {
      OnlyOne(called[0], [], IsRelease);
      assert called == [called[0]] + [];
    }
  }

  lemma ResolvedOnceMarked(id: RowId, provider: string, answer: Recovery, wrote: seq<StoreCall>, called: seq<CloudCall>)
    requires Resolved(id, provider, answer, wrote, called)
    ensures forall r | Marked(id, r, wrote) :: r.provider == provider && answer == Found(r.id) && ReleasedOnce(id, r, called)
    ensures (forall r :: !Marked(id, r, wrote)) ==> called == []
  {
    if answer.Found? && wrote[0].w.Applied? {
      var receipt := Receipt(provider, answer.id);
      RevertedOnceMarked(id, receipt, wrote[1..], called);
      assert wrote == [wrote[0]] + wrote[1..];
      assert Marked(id, receipt, wrote[1..]) ==> Marked(id, receipt, wrote);
    }
  }

  /** A row is released exactly when its pending mark is acknowledged, and then once: what is released is the
      resource its receipt names, or the one the recovery found. */
  lemma ReleasedOnceMarked(record: Snapshot, known: set<string>, wrote: seq<StoreCall>, called: seq<CloudCall>)
    requires Handled(record, known, wrote, called)
    ensures forall r | Marked(record.id, r, wrote) :: Aims(record, called, r) && ReleasedOnce(record.id, r, called)
    ensures (forall r :: !Marked(record.id, r, wrote)) ==> Only(called, IsRelease) == []
    ensures !Unusable(record, known) && !record.row.status.Attempting? ==>
              exists w :: UpdateCall(record.id, ReleasePending, record.row.receipt.value, w) in wrote
  {
    if Unusable(record, known) {
    } else if !record.row.status.Attempting? {
      RevertedOnceMarked(record.id, record.row.receipt.value, wrote, called);
      assert wrote[0] == UpdateCall(record.id, ReleasePending, record.row.receipt.value, wrote[0].w);
    } else {
      assert called == [called[0]] + called[1..];
      OnlyOne(called[0], called[1..], IsRelease);
      ResolvedOnceMarked(record.id, record.row.provider, called[0].answer, wrote, called[1..]);
    }
  }

  /** What the pending marks of a sweep release. */
  predicate ReleasesMarked(listed: seq<Snapshot>, known: set<string>, wrote: seq<StoreCall>, called: seq<CloudCall>) {
    forall i | 0 <= i < |listed| && !Unusable(listed[i], known) && !listed[i].row.status.Attempting? ::
      var receipt := listed[i].row.receipt.value;
      if Marked(listed[i].id, receipt, wrote) then ReleasedOnce(listed[i].id, receipt, Only(called, MadeFor(listed[i].id)))
      else Only(called, MadeFor(listed[i].id)) == []
  }

  lemma {:induction false} OnlyKeeps<T>(items: seq<T>, keep: T -> bool, x: T)
    ensures x in Only(items, keep) <==> x in items && keep(x)
    decreases |items|
  {
    if items != [] {
      OnlyKeeps(items[..|items| - 1], keep, x);
      assert items == items[..|items| - 1] + [items[|items| - 1]];
    }
  }

  lemma SweptReleases(listed: seq<Snapshot>, known: set<string>, wrote: seq<StoreCall>, called: seq<CloudCall>)
    requires Swept(listed, known, |listed|, wrote, called)
    ensures ReleasesMarked(listed, known, wrote, called)
  {
    forall i | 0 <= i < |listed| && !Unusable(listed[i], known) && !listed[i].row.status.Attempting?
      ensures var receipt := listed[i].row.receipt.value;
              if Marked(listed[i].id, receipt, wrote) then ReleasedOnce(listed[i].id, receipt, Only(called, MadeFor(listed[i].id)))
              else Only(called, MadeFor(listed[i].id)) == []
    {
      var id, receipt := listed[i].id, listed[i].row.receipt.value;
      assert HandledIn(listed[i], known, wrote, called);
      RevertedOnceMarked(id, receipt, Only(wrote, WritesTo(id)), Only(called, MadeFor(id)));
      OnlyKeeps(wrote, WritesTo(id), UpdateCall(id, ReleasePending, receipt, Applied));
    }
  }

  predicate SomeUnusable(listed: seq<Snapshot>, known: set<string>) {
    exists i | 0 <= i < |listed| :: Unusable(listed[i], known)
  }

  lemma FailedMore(listed: seq<Snapshot>, known: set<string>, done: nat, wrote: seq<StoreCall>, called: seq<CloudCall>,
                   w: seq<StoreCall>, c: seq<CloudCall>)
    requires done < |listed|
    ensures SomeFailed(wrote + w, called + c) || SomeUnusable(listed[..done + 1], known) <==>
            SomeFailed(wrote, called) || SomeUnusable(listed[..done], known) || SomeFailed(w, c) || Unusable(listed[done], known)
  {
    SomeFailedMore(wrote, called, w, c);
    if SomeUnusable(listed[..done], known) {
      var i :| 0 <= i < done && Unusable(listed[..done][i], known);
      assert listed[..done + 1][i] == listed[i];
    }
    if Unusable(listed[done], known) {
      assert listed[..done + 1][done] == listed[done];
    }
  }

  lemma WroteFailed(first: StoreCall, wrote: seq<StoreCall>, called: seq<CloudCall>)
    ensures SomeFailed([first] + wrote, called) <==> Unconfirmed(first) || SomeFailed(wrote, called)
  {
    SomeFailedMore([first], [], wrote, called);
    assert [] + called == called;
    assert first in [first];
  }

  lemma RecoveredFailed(provider: string, row: RowId, answer: Recovery, wrote: seq<StoreCall>, called: seq<CloudCall>)
    ensures SomeFailed(wrote, [RecoverCall(provider, row, answer)] + called) <==> answer.Unknown? || SomeFailed(wrote, called)
  {
    var first := RecoverCall(provider, row, answer);
    SomeFailedMore([], [first], wrote, called);
    assert [] + wrote == wrote;
    assert first in [first];
  }

  /** The state of a sweep after `done` rows. */
  predicate SweptSoFar(listed: seq<Snapshot>, known: set<string>, done: nat, failed: bool,
                       wrote: seq<StoreCall>, called: seq<CloudCall>)
    requires done <= |listed|
  {
    && Swept(listed, known, done, wrote, called)
    && (failed <==> SomeFailed(wrote, called) || SomeUnusable(listed[..done], known))
  }

  lemma SweptOneMore(listed: seq<Snapshot>, known: set<string>, done: nat, failed: bool, failedNow: bool,
                     wrote: seq<StoreCall>, called: seq<CloudCall>, w: seq<StoreCall>, c: seq<CloudCall>)
    requires Ascending(listed) && done < |listed| && SweptSoFar(listed, known, done, failed, wrote, called)
    requires Handled(listed[done], known, w, c)
    requires failedNow <==> failed || Unusable(listed[done], known) || SomeFailed(w, c)
    ensures SweptSoFar(listed, known, done + 1, failedNow, wrote + w, called + c)
  {
    SweptMore(listed, known, done, wrote, called, w, c);
    FailedMore(listed, known, done, wrote, called, w, c);
  }

  lemma SweptAfterQuery(listed: seq<Snapshot>, known: set<string>, wrote: seq<StoreCall>, called: seq<CloudCall>)
    requires Swept(listed, known, |listed|, wrote, called)
    ensures Swept(listed, known, |listed|, [QueryCall(true)] + wrote, called)
    ensures SomeFailed([QueryCall(true)] + wrote, called) <==> SomeFailed(wrote, called)
  {
    forall i | 0 <= i < |listed| ensures HandledIn(listed[i], known, [QueryCall(true)] + wrote, called) {
      OnlyOne(QueryCall(true), wrote, WritesTo(listed[i].id));
    }
    WroteFailed(QueryCall(true), wrote, called);
  }

  /** How a reconciliation answers, by the calls it made for the listed rows. Nothing but the query is asked for
      when the query fails. Otherwise the calls are, row by row, the ones the row's status and the answers demand,
      and none for another row. It succeeds exactly when no call failed and no row is unusable. */
  predicate Reconciled(listed: seq<Snapshot>, known: set<string>, ok: bool, wrote: seq<StoreCall>, called: seq<CloudCall>) {
    && wrote != [] && wrote[0].QueryCall?
    && (ok <==> !SomeFailed(wrote, called) && forall i | 0 <= i < |listed| :: !Unusable(listed[i], known))
    && if wrote[0].ok then Swept(listed, known, |listed|, wrote, called) && ReleasesMarked(listed, known, wrote, called)
       else |wrote| == 1 && called == []
  }

  lemma NothingReconciled(listed: seq<Snapshot>, known: set<string>)
    ensures Reconciled(listed, known, false, [QueryCall(false)], [])
  {
    assert QueryCall(false) in [QueryCall(false)];
  }

  lemma AllReconciled(listed: seq<Snapshot>, known: set<string>, failed: bool, wrote: seq<StoreCall>, called: seq<CloudCall>)
    requires Swept(listed, known, |listed|, wrote, called)
    requires failed <==> SomeFailed(wrote, called) || SomeUnusable(listed, known)
    ensures Reconciled(listed, known, !failed, [QueryCall(true)] + wrote, called)
  {
    SweptAfterQuery(listed, known, wrote, called);
    SweptReleases(listed, known, [QueryCall(true)] + wrote, called);
  }
}
