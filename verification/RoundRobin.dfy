/** Choosing which passive observations enter a run: the sources take turns, each contributing its next name
    nobody has contributed yet, until the limit is reached or every source is used up. */
module RoundRobin {
  import opened Names

  function AllNames(sources: seq<seq<string>>): set<string> {
    set i, name | 0 <= i < |sources| && name in sources[i] :: name
  }

  /** The selected names of a source, in its order. */
  function Kept(source: seq<string>, selected: set<string>): seq<string>
    decreases |source|
  {
    if source == [] then []
    else
      var last := source[|source| - 1];
      Kept(source[..|source| - 1], selected) + if last in selected then [last] else []
  }

  /** `share[i]` lists what source `i` contributed: its own names, each credited once, together the selection. */
  ghost predicate Credits(sources: seq<seq<string>>, selected: set<string>, share: seq<seq<string>>) {
    && |share| == |sources|
    && (forall i | 0 <= i < |share| :: NoDuplicates(share[i]) && forall name | name in share[i] :: name in sources[i] && name in selected)
    && (forall i, j, name | 0 <= i < j < |share| && name in share[i] :: name !in share[j])
    && (forall name | name in selected :: exists i :: 0 <= i < |share| && name in share[i])
  }

  /** A source left with an unselected name contributed at most one name less than any other. */
  ghost predicate Fair(sources: seq<seq<string>>, selected: set<string>, share: seq<seq<string>>)
    requires |share| == |sources|
  {
    forall i, j | 0 <= i < |share| && 0 <= j < |share| && (exists name :: name in sources[i] && name !in selected) ::
      |share[j]| <= |share[i]| + 1
  }

  /** Everything before the position of a source has been selected. */
  ghost predicate Swept(sources: seq<seq<string>>, positions: seq<nat>, selected: set<string>) {
    && |positions| == |sources|
    && (forall i | 0 <= i < |sources| :: positions[i] <= |sources[i]|)
    && (forall i, k | 0 <= i < |sources| && 0 <= k < positions[i] :: sources[i][k] in selected)
  }

  /** After `r` full turns and the first `done` sources of the next one. */
  ghost predicate Turns(sources: seq<seq<string>>, positions: seq<nat>, share: seq<seq<string>>, r: nat, done: nat) {
    && |positions| == |sources| == |share|
    && forall i | 0 <= i < |sources| ::
         var full := if i < done then r + 1 else r;
         |share[i]| <= full && (positions[i] < |sources[i]| ==> |share[i]| == full)
  }

  lemma FairAfter(sources: seq<seq<string>>, positions: seq<nat>, selected: set<string>, share: seq<seq<string>>, r: nat, done: nat)
    requires Swept(sources, positions, selected) && Turns(sources, positions, share, r, done)
    ensures Fair(sources, selected, share)
  {
    forall i, j | 0 <= i < |share| && 0 <= j < |share| && (exists name :: name in sources[i] && name !in selected)
      ensures |share[j]| <= |share[i]| + 1
    {
      var name :| name in sources[i] && name !in selected;
      var k :| 0 <= k < |sources[i]| && sources[i][k] == name;
      assert k >= positions[i];
    }
  }

  lemma AllSelected(sources: seq<seq<string>>, positions: seq<nat>, selected: set<string>)
    requires Swept(sources, positions, selected) && selected <= AllNames(sources)
    requires forall i | 0 <= i < |sources| :: positions[i] == |sources[i]|
    ensures selected == AllNames(sources)
  {
    forall name | name in AllNames(sources) ensures name in selected {
      var i :| 0 <= i < |sources| && name in sources[i];
      var k :| 0 <= k < |sources[i]| && sources[i][k] == name;
    }
  }

  lemma SubsetSize(a: set<string>, b: set<string>)
    requires a <= b
    ensures |a| <= |b|
  {
    assert b == a + (b - a);
  }

  lemma Credited(sources: seq<seq<string>>, selected: set<string>, share: seq<seq<string>>, i: nat, name: string)
    requires Credits(sources, selected, share) && i < |share| && name in sources[i] && name !in selected
    ensures Credits(sources, selected + {name}, share[i := share[i] + [name]])
  {
    var now := share[i := share[i] + [name]];
    forall n | n in selected + {name} ensures exists j :: 0 <= j < |now| && n in now[j] {
      if n == name {
        assert n in now[i];
      } else {
        var j :| 0 <= j < |share| && n in share[j];
        assert n in now[j];
      }
    }
  }

  /** The state of the selection after `r` full turns and the first `done` sources of the next one. */
  ghost predicate Selecting(sources: seq<seq<string>>, positions: seq<nat>, selected: set<string>, share: seq<seq<string>>,
                            r: nat, done: nat) {
    && Swept(sources, positions, selected)
    && Credits(sources, selected, share)
    && Turns(sources, positions, share, r, done)
    && selected <= AllNames(sources)
  }

  lemma Taken(sources: seq<seq<string>>, positions: seq<nat>, selected: set<string>, share: seq<seq<string>>, r: nat, i: nat,
              next: nat)
    requires Selecting(sources, positions, selected, share, r, i) && i < |sources|
    requires positions[i] < next <= |sources[i]| && sources[i][next - 1] !in selected
    requires forall k | positions[i] <= k < next - 1 :: sources[i][k] in selected
    ensures var name := sources[i][next - 1];
            Selecting(sources, positions[i := next], selected + {name}, share[i := share[i] + [name]], r, i + 1)
  {
    Credited(sources, selected, share, i, sources[i][next - 1]);
    assert sources[i][next - 1] in AllNames(sources);
  }

  lemma UsedUp(sources: seq<seq<string>>, positions: seq<nat>, selected: set<string>, share: seq<seq<string>>, r: nat, i: nat)
    requires Selecting(sources, positions, selected, share, r, i) && i < |sources|
    requires forall k | positions[i] <= k < |sources[i]| :: sources[i][k] in selected
    ensures Selecting(sources, positions[i := |sources[i]|], selected, share, r, i + 1)
  {
  }

  /** Skips what is already selected and takes the next name of a source, if any. */
  method Skip(source: seq<string>, position: nat, selected: set<string>) returns (next: nat, taken: bool)
    requires position <= |source|
    ensures position <= next <= |source|
    ensures taken ==> position < next && source[next - 1] !in selected
    ensures !taken ==> next == |source|
    ensures forall k | position <= k < next - (if taken then 1 else 0) :: source[k] in selected
  {
    next, taken := position, false;
    while next < |source| && !taken
      invariant position <= next <= |source|
      invariant taken ==> position < next && source[next - 1] !in selected
      invariant forall k | position <= k < next - (if taken then 1 else 0) :: source[k] in selected
      decreases |source| - next, !taken
    {
      taken := source[next] !in selected;
      next := next + 1;
    }
  }

  /** One source takes its turn. */
  method Turn(sources: seq<seq<string>>, positions: array<nat>, chosen: set<string>, ghost credit: seq<seq<string>>, ghost r: nat,
              index: nat)
    returns (selected: set<string>, taken: bool, ghost share: seq<seq<string>>)
    requires index < |sources| && Selecting(sources, positions[..], chosen, credit, r, index)
    modifies positions
    ensures Selecting(sources, positions[..], selected, share, r, index + 1)
    ensures |selected| == |chosen| + if taken then 1 else 0
    ensures !taken ==> selected == chosen && positions[..] == old(positions[..])[index := |sources[index]|]
  {
    var next;
    next, taken := Skip(sources[index], positions[index], chosen);
    ghost var was := positions[..];
    positions[index] := next;
    assert positions[..] == was[index := next];
    if taken {
      Taken(sources, was, chosen, credit, r, index, next);
      share := credit[index := credit[index] + [sources[index][next - 1]]];
      selected := chosen + {sources[index][next - 1]};
    } else {
      UsedUp(sources, was, chosen, credit, r, index);
      selected, share := chosen, credit;
    }
  }

  /** One round: every source takes its turn, unless the limit ends the round early. */
  method Round(sources: seq<seq<string>>, limit: nat, positions: array<nat>, chosen: set<string>, ghost credit: seq<seq<string>>,
               ghost r: nat)
    returns (selected: set<string>, progressed: bool, ghost share: seq<seq<string>>, ghost done: nat)
    requires Selecting(sources, positions[..], chosen, credit, r, 0) && |chosen| < limit
    modifies positions
    ensures Selecting(sources, positions[..], selected, share, r, done) && |selected| <= limit
    ensures |selected| < limit ==> done == |sources|
    ensures progressed ==> |selected| > |chosen|
    ensures !progressed ==> selected == chosen && forall i | 0 <= i < |sources| :: positions[i] == |sources[i]|
  {
    selected, progressed, share := chosen, false, credit;
    var index := 0;
    while index < |sources| && |selected| < limit
      invariant index <= |sources| && |selected| <= limit
      invariant Selecting(sources, positions[..], selected, share, r, index)
      invariant progressed ==> |selected| > |chosen|
      invariant !progressed ==> selected == chosen && forall i | 0 <= i < index :: positions[i] == |sources[i]|
    {
      var taken;
      selected, taken, share := Turn(sources, positions, selected, share, r, index);
      progressed := progressed || taken;
      index := index + 1;
    }
    done := index;
  }

  lemma NextRound(sources: seq<seq<string>>, positions: seq<nat>, selected: set<string>, share: seq<seq<string>>, r: nat)
    requires Selecting(sources, positions, selected, share, r, |sources|)
    ensures Selecting(sources, positions, selected, share, r + 1, 0)
  {
  }

  /** The selection ends, takes as many names as the limit and the sources allow, and is fair. */
  method Select(sources: seq<seq<string>>, limit: nat) returns (selected: set<string>, ghost share: seq<seq<string>>)
    ensures selected <= AllNames(sources)
    ensures |selected| == if limit <= |AllNames(sources)| then limit else |AllNames(sources)|
    ensures Credits(sources, selected, share) && Fair(sources, selected, share)
  {
    selected, share := {}, seq(|sources|, _ => []);
    var positions := new nat[|sources|](_ => 0);
    ghost var r, done := 0, 0;
    var progressed := true;
    while |selected| < limit && progressed
      invariant Selecting(sources, positions[..], selected, share, r, done) && |selected| <= limit
      invariant |selected| < limit && progressed ==> done == 0
      invariant !progressed ==> forall i | 0 <= i < |sources| :: positions[i] == |sources[i]|
      decreases limit - |selected|, progressed
    {
      selected, progressed, share, done := Round(sources, limit, positions, selected, share, r);
      if |selected| < limit && progressed {
        NextRound(sources, positions[..], selected, share, r);
        r, done := r + 1, 0;
      }
    }
    FairAfter(sources, positions[..], selected, share, r, done);
    SubsetSize(selected, AllNames(sources));
    if |selected| < limit {
      AllSelected(sources, positions[..], selected);
    }
  }

  /** What each source keeps, and the sources marked truncated: those with a name that was dropped. */
  method Distribute(sources: seq<seq<string>>, selected: set<string>) returns (kept: seq<seq<string>>, truncated: seq<bool>)
    ensures |kept| == |truncated| == |sources|
    ensures forall i | 0 <= i < |sources| :: kept[i] == Kept(sources[i], selected)
    ensures forall i | 0 <= i < |sources| :: truncated[i] <==> exists name :: name in sources[i] && name !in selected
  {
    kept, truncated := [], [];
    var i := 0;
    while i < |sources|
      invariant i <= |sources| && |kept| == |truncated| == i
      invariant forall j | 0 <= j < i :: kept[j] == Kept(sources[j], selected)
      invariant forall j | 0 <= j < i :: truncated[j] <==> exists name :: name in sources[j] && name !in selected
    {
      var items, dropped := [], false;
      var k := 0;
      while k < |sources[i]|
        invariant 0 <= k <= |sources[i]|
        invariant items == Kept(sources[i][..k], selected)
        invariant dropped <==> exists name :: name in sources[i][..k] && name !in selected
      {
        assert sources[i][..k + 1] == sources[i][..k] + [sources[i][k]];
        if sources[i][k] in selected {
          items := items + [sources[i][k]];
        } else {
          assert sources[i][k] in sources[i][..k + 1];
          dropped := true;
        }
        k := k + 1;
      }
      assert sources[i][..k] == sources[i];
      kept, truncated := kept + [items], truncated + [dropped];
      i := i + 1;
    }
  }

  lemma {:induction false} KeptNames(source: seq<string>, selected: set<string>)
    ensures forall name :: name in Kept(source, selected) <==> name in source && name in selected
    decreases |source|
  {
    if source != [] {
      var init := source[..|source| - 1];
      KeptNames(init, selected);
      assert source == init + [source[|source| - 1]];
    }
  }
}
