/** Majority decisions over the views of several resolvers. Counting goes through maps whose iteration order
    is arbitrary; the results are stated without reference to any order. */
module Consensus {
  import opened Options
  import opened Labels

  datatype Status = Resolved | NoData | NXDomain | ServFail | Refused | Timeout | Error

  datatype View = View(status: Status, answers: seq<string>)

  datatype State = Agreed | Inconclusive | Propagating | SplitHorizon | Disabled

  /** A view that can take part in an agreement. */
  predicate Valid(v: View) {
    !v.status.Error? && !v.status.Timeout? && !v.status.ServFail?
  }

  /** Views of one class agree: the same status with the same answers. */
  datatype Class = Class(status: Status, text: string)

  function ClassOf(v: View): Class {
    Class(v.status, Join(v.answers, '\n'))
  }

  // ---------------------------------------------------------------- counting

  function Count<T>(items: seq<T>, test: T -> bool): (n: nat)
    ensures n <= |items|
    decreases |items|
  {
    if items == [] then 0 else Count(items[..|items| - 1], test) + if test(items[|items| - 1]) then 1 else 0
  }

  lemma CountLast<T>(items: seq<T>, i: nat, test: T -> bool)
    requires i < |items|
    ensures Count(items[..i + 1], test) == Count(items[..i], test) + if test(items[i]) then 1 else 0
  {
    assert items[..i + 1][..i] == items[..i];
  }

  lemma {:induction false} CountConcat<T>(a: seq<T>, b: seq<T>, test: T -> bool)
    ensures Count(a + b, test) == Count(a, test) + Count(b, test)
    decreases |b|
  {
    if b == [] {
      assert a + b == a;
    } else {
      CountConcat(a, b[..|b| - 1], test);
      assert (a + b)[..|a + b| - 1] == a + b[..|b| - 1];
    }
  }

  /** One item taken out of the list. */
  lemma TakenOut<T>(items: seq<T>, j: nat, test: T -> bool)
    requires j < |items|
    ensures multiset(items) == multiset(items[..j] + items[j + 1..]) + multiset{items[j]}
    ensures Count(items, test) == Count(items[..j] + items[j + 1..], test) + if test(items[j]) then 1 else 0
  {
    Parted(items, j);
    Spread(items[..j], items[j], items[j + 1..]);
    CountThree(items[..j], items[j], items[j + 1..], test);
  }

  lemma Parted<T>(items: seq<T>, j: nat)
    requires j < |items|
    ensures items == items[..j] + ([items[j]] + items[j + 1..])
  {
  }

  lemma Spread<T>(front: seq<T>, x: T, back: seq<T>)
    ensures multiset(front + ([x] + back)) == multiset(front + back) + multiset{x}
  {
  }

  lemma CountThree<T>(front: seq<T>, x: T, back: seq<T>, test: T -> bool)
    ensures Count(front + ([x] + back), test) == Count(front + back, test) + if test(x) then 1 else 0
  {
    CountConcat(front, back, test);
    CountConcat(front, [x] + back, test);
    CountConcat([x], back, test);
    assert [x][..0] == [];
  }

  lemma Cancel<T>(a: multiset<T>, b: multiset<T>, x: T)
    requires a + multiset{x} == b + multiset{x}
    ensures a == b
  {
    assert a == (a + multiset{x}) - multiset{x};
    assert b == (b + multiset{x}) - multiset{x};
  }

  /** Counts do not depend on the order. */
  lemma {:induction false} CountIgnoresOrder<T>(a: seq<T>, b: seq<T>, test: T -> bool)
    requires multiset(a) == multiset(b)
    ensures Count(a, test) == Count(b, test)
    decreases |a|
  {
    assert |a| == |multiset(a)| == |multiset(b)| == |b|;
    if a != [] {
      assert a[0] in multiset(b);
      var j :| 0 <= j < |b| && b[j] == a[0];
      TakenOut(a, 0, test);
      TakenOut(b, j, test);
      Cancel(multiset(a[..0] + a[1..]), multiset(b[..j] + b[j + 1..]), a[0]);
      CountIgnoresOrder(a[..0] + a[1..], b[..j] + b[j + 1..], test);
    }
  }

  /** Two tests no item passes both of share the items between them. */
  lemma {:induction false} CountsShare<T>(items: seq<T>, p: T -> bool, q: T -> bool)
    requires forall x | x in items :: !(p(x) && q(x))
    ensures Count(items, p) + Count(items, q) <= |items|
    decreases |items|
  {
    if items != [] {
      CountsShare(items[..|items| - 1], p, q);
      assert items[|items| - 1] in items;
    }
  }

  lemma {:induction false} CountImplies<T>(items: seq<T>, p: T -> bool, q: T -> bool)
    requires forall x | x in items :: p(x) ==> q(x)
    ensures Count(items, p) <= Count(items, q)
    decreases |items|
  {
    if items != [] {
      CountImplies(items[..|items| - 1], p, q);
      assert items[|items| - 1] in items;
    }
  }

  lemma {:induction false} CountExists<T>(items: seq<T>, p: T -> bool)
    requires Count(items, p) > 0
    ensures exists x :: x in items && p(x)
    decreases |items|
  {
    var last := items[|items| - 1];
    assert last in items;
    if !p(last) {
      CountExists(items[..|items| - 1], p);
      var x :| x in items[..|items| - 1] && p(x);
      assert x in items;
    }
  }

  // ---------------------------------------------------------------- what the views decide

  function InClass(c: Class): View -> bool {
    (v: View) => Valid(v) && ClassOf(v) == c
  }

  function HasStatus(s: Status): View -> bool {
    (v: View) => v.status == s
  }

  function Quorum(n: nat): nat {
    n / 2 + 1
  }

  ghost predicate Majority(views: seq<View>, quorum: nat) {
    exists c :: Count(views, InClass(c)) >= quorum
  }

  function Negative(): View -> bool {
    (v: View) => v.status.NXDomain? || v.status.NoData?
  }

  ghost function Decided(views: seq<View>, quorum: nat): State {
    if Majority(views, quorum) then Agreed
    else if Count(views, Valid) < quorum then Inconclusive
    else if Count(views, HasStatus(Resolved)) > 0 && Count(views, Negative()) > 0 then Propagating
    else SplitHorizon
  }

  /** At most one class reaches a majority. */
  lemma MajorityIsUnique(views: seq<View>, c: Class, d: Class)
    requires Count(views, InClass(c)) >= Quorum(|views|) && Count(views, InClass(d)) >= Quorum(|views|)
    ensures c == d
  {
    if c != d {
      CountsShare(views, InClass(c), InClass(d));
    }
  }

  lemma StatusIsUnique(views: seq<View>, s: Status, t: Status)
    requires Count(views, HasStatus(s)) >= Quorum(|views|) && Count(views, HasStatus(t)) >= Quorum(|views|)
    ensures s == t
  {
    if s != t {
      CountsShare(views, HasStatus(s), HasStatus(t));
    }
  }

  /** The decision does not depend on the order of the resolvers. */
  lemma DecidedIgnoresOrder(a: seq<View>, b: seq<View>, quorum: nat)
    requires multiset(a) == multiset(b)
    ensures Decided(a, quorum) == Decided(b, quorum)
  {
    forall c: Class ensures Count(a, InClass(c)) == Count(b, InClass(c)) {
      CountIgnoresOrder(a, b, InClass(c));
    }
    CountIgnoresOrder(a, b, Valid);
    CountIgnoresOrder(a, b, HasStatus(Resolved));
    CountIgnoresOrder(a, b, Negative());
  }

  /** Under agreement the status with a quorum is the one of the agreeing class: never a failure. */
  lemma AgreedStatus(views: seq<View>, s: Status)
    requires Majority(views, Quorum(|views|)) && Count(views, HasStatus(s)) >= Quorum(|views|)
    ensures !s.Error? && !s.Timeout? && !s.ServFail?
    ensures exists c: Class :: c.status == s && Count(views, InClass(c)) >= Quorum(|views|)
  {
    var c :| Count(views, InClass(c)) >= Quorum(|views|);
    CountImplies(views, InClass(c), HasStatus(c.status));
    StatusIsUnique(views, s, c.status);
    CountExists(views, InClass(c));
  }

  lemma AgreedHasStatus(views: seq<View>)
    requires Majority(views, Quorum(|views|))
    ensures exists s :: Count(views, HasStatus(s)) >= Quorum(|views|)
  {
    var c :| Count(views, InClass(c)) >= Quorum(|views|);
    CountImplies(views, InClass(c), HasStatus(c.status));
  }

  /** Two majorities over the same resolvers share a resolver. */
  lemma {:induction false} MajoritiesMeet(a: seq<View>, b: seq<View>, s: Status)
    requires |a| == |b| && Count(a, HasStatus(s)) + Count(b, HasStatus(s)) > |a|
    ensures exists i | 0 <= i < |a| :: a[i].status == s && b[i].status == s
    decreases |a|
  {
    var n := |a| - 1;
    if a[n].status != s || b[n].status != s {
      MajoritiesMeet(a[..n], b[..n], s);
      var i :| 0 <= i < n && a[..n][i].status == s && b[..n][i].status == s;
      assert a[i].status == s && b[i].status == s;
    }
  }

  // ---------------------------------------------------------------- the code

  ghost predicate Counted(counts: map<Class, nat>, views: seq<View>) {
    forall c: Class :: Count(views, InClass(c)) == if c in counts then counts[c] else 0
  }

  function Raised(counts: map<Class, nat>, view: View): map<Class, nat> {
    var key := ClassOf(view);
    counts[key := (if key in counts then counts[key] else 0) + 1]
  }

  lemma CountedMore(counts: map<Class, nat>, views: seq<View>, i: nat)
    requires i < |views| && Counted(counts, views[..i])
    ensures Counted(if Valid(views[i]) then Raised(counts, views[i]) else counts, views[..i + 1])
  {
    forall c: Class ensures Count(views[..i + 1], InClass(c)) == Count(views[..i], InClass(c)) + if InClass(c)(views[i]) then 1 else 0 {
      CountLast(views, i, InClass(c));
    }
  }

  method CountClasses(views: seq<View>) returns (counts: map<Class, nat>, valid: nat, positive: bool, negative: bool)
    ensures Counted(counts, views) && valid == Count(views, Valid)
    ensures positive <==> Count(views, HasStatus(Resolved)) > 0
    ensures negative <==> Count(views, Negative()) > 0
  {
    counts, valid, positive, negative := map[], 0, false, false;
    var i := 0;
    while i < |views|
      invariant i <= |views|
      invariant Counted(counts, views[..i]) && valid == Count(views[..i], Valid)
      invariant positive <==> Count(views[..i], HasStatus(Resolved)) > 0
      invariant negative <==> Count(views[..i], Negative()) > 0
    {
      var view := views[i];
      CountedMore(counts, views, i);
      CountLast(views, i, Valid);
      CountLast(views, i, HasStatus(Resolved));
      CountLast(views, i, Negative());
      if Valid(view) {
        valid := valid + 1;
        counts := Raised(counts, view);
        positive := positive || view.status.Resolved?;
        negative := negative || view.status.NXDomain? || view.status.NoData?;
      }
      i := i + 1;
    }
    assert views[..i] == views;
  }

  method ConsensusState(views: seq<View>, quorum: nat) returns (state: State)
    requires quorum > 0
    ensures state == Decided(views, quorum)
  {
    var counts, valid, positive, negative := CountClasses(views);
    var todo := counts.Keys;
    while todo != {}
      invariant todo <= counts.Keys
      invariant forall c | c in counts && c !in todo :: counts[c] < quorum
      decreases todo
    {
      var c :| c in todo;
      if counts[c] >= quorum {
        return Agreed;
      }
      todo := todo - {c};
    }
    assert forall c: Class :: Count(views, InClass(c)) < quorum;
    if valid < quorum {
      return Inconclusive;
    }
    if positive && negative {
      return Propagating;
    }
    return SplitHorizon;
  }

  /** The status of a quorum of views, whichever way the counts are traversed; an error without one. */
  method ConsensusStatus(views: seq<View>, quorum: nat) returns (status: Status)
    requires quorum == Quorum(|views|)
    ensures forall s :: Count(views, HasStatus(s)) >= quorum ==> status == s
    ensures (forall s :: Count(views, HasStatus(s)) < quorum) ==> status == Error
  {
    var counts := CountStatuses(views);
    var todo := counts.Keys;
    status := Error;
    while todo != {}
      invariant todo <= counts.Keys && status == Error
      invariant forall s | s in counts && s !in todo :: counts[s] < quorum
      decreases todo
    {
      var s :| s in todo;
      if counts[s] >= quorum {
        forall t: Status | Count(views, HasStatus(t)) >= quorum ensures t == s {
          StatusIsUnique(views, s, t);
        }
        return s;
      }
      todo := todo - {s};
    }
  }

  method CountStatuses(views: seq<View>) returns (counts: map<Status, nat>)
    ensures forall s :: s in counts ==> counts[s] == Count(views, HasStatus(s))
    ensures forall s :: s !in counts ==> Count(views, HasStatus(s)) == 0
  {
    counts := map[];
    var i := 0;
    while i < |views|
      invariant i <= |views|
      invariant forall s :: s in counts ==> counts[s] == Count(views[..i], HasStatus(s))
      invariant forall s :: s !in counts ==> Count(views[..i], HasStatus(s)) == 0
    {
      var key := views[i].status;
      forall s: Status ensures Count(views[..i + 1], HasStatus(s)) == Count(views[..i], HasStatus(s)) + if s == key then 1 else 0 {
        CountLast(views, i, HasStatus(s));
      }
      counts := counts[key := (if key in counts then counts[key] else 0) + 1];
      i := i + 1;
    }
    assert views[..i] == views;
  }

  /** What the addresses of a name come to when resolvers vote: resolved when the voters agree on both types and
      on an address for one of them, absent exactly when both majorities say so - some resolver then said so of
      both - and inconclusive for every other split that is not explained by propagation or a split horizon. */
  ghost predicate Decides(a: seq<View>, aaaa: seq<View>, status: Status, state: State)
    requires |a| == |aaaa|
  {
    var quorum := Quorum(|a|);
    && (status == Resolved <==>
          && Majority(a, quorum) && Majority(aaaa, quorum)
          && (Count(a, HasStatus(Resolved)) >= quorum || Count(aaaa, HasStatus(Resolved)) >= quorum))
    && (status == NXDomain <==> BothAbsent(a, aaaa, NXDomain))
    && (status == NoData <==> BothAbsent(a, aaaa, NoData))
    && (status in {NXDomain, NoData} ==> exists i | 0 <= i < |a| :: a[i].status == status && aaaa[i].status == status)
    && (status in {Resolved, NXDomain, NoData} || status == Error)
    && (state.Agreed? <==> status in {Resolved, NXDomain, NoData})
    && (state.Propagating? <==> Decided(a, quorum).Propagating? || Decided(aaaa, quorum).Propagating?)
    && (state.SplitHorizon? <==>
          && (Decided(a, quorum).SplitHorizon? || Decided(aaaa, quorum).SplitHorizon?)
          && !Decided(a, quorum).Propagating? && !Decided(aaaa, quorum).Propagating?)
    && (state.Inconclusive? <==> !state.Agreed? && !state.Propagating? && !state.SplitHorizon?)
  }

  /** Both majorities report the same absence. */
  ghost predicate BothAbsent(a: seq<View>, aaaa: seq<View>, s: Status)
    requires |a| == |aaaa|
  {
    var quorum := Quorum(|a|);
    && Majority(a, quorum) && Majority(aaaa, quorum)
    && Count(a, HasStatus(s)) >= quorum && Count(aaaa, HasStatus(s)) >= quorum
  }

  method Vote(a: seq<View>, aaaa: seq<View>) returns (status: Status, state: State)
    requires |a| == |aaaa| >= 2
    ensures Decides(a, aaaa, status, state)
  {
    var quorum := Quorum(|a|);
    var aState := ConsensusState(a, quorum);
    var aaaaState := ConsensusState(aaaa, quorum);
    if aState != Agreed || aaaaState != Agreed {
      if aState == Propagating || aaaaState == Propagating {
        return Error, Propagating;
      }
      if aState == SplitHorizon || aaaaState == SplitHorizon {
        return Error, SplitHorizon;
      }
      return Error, Inconclusive;
    }
    var aStatus := ConsensusStatus(a, quorum);
    var aaaaStatus := ConsensusStatus(aaaa, quorum);
    AgreedHasStatus(a);
    AgreedHasStatus(aaaa);
    if aStatus == Resolved || aaaaStatus == Resolved {
      return Resolved, Agreed;
    }
    if aStatus == NXDomain && aaaaStatus == NXDomain {
      MajoritiesMeet(a, aaaa, NXDomain);
      return NXDomain, Agreed;
    }
    if aStatus == NoData && aaaaStatus == NoData {
      MajoritiesMeet(a, aaaa, NoData);
      return NoData, Agreed;
    }
    return Error, Inconclusive;
  }

  /** The status of a name from one resolver's answers for A and AAAA. */
  function Alone(a: Status, aaaa: Status): (status: Status)
    ensures status == Resolved <==> a == Resolved || aaaa == Resolved
    ensures status == NXDomain <==> a == NXDomain && aaaa == NXDomain
    ensures status == NoData <==> a == NoData && aaaa == NoData
    ensures status != Resolved && (a == Timeout || aaaa == Timeout) ==> status == Timeout
  {
    if a == Resolved || aaaa == Resolved then Resolved
    else if a == Timeout || aaaa == Timeout then Timeout
    else if a == ServFail || aaaa == ServFail then ServFail
    else if a == Refused || aaaa == Refused then Refused
    else if a == Error || aaaa == Error then Error
    else if a == aaaa then a
    else Error
  }

  /** `doh` says that queries go over HTTPS. */
  datatype Settings = Settings(consensus: bool, doh: bool, servers: nat)

  predicate Enabled(resolver: Option<Settings>) {
    resolver.Some? && resolver.value.consensus && !resolver.value.doh && resolver.value.servers >= 2
  }

  /** The status of a name: by vote when consensus is switched on and there are resolvers to compare, otherwise
      by one resolver alone. */
  method AddressConsensus(resolver: Option<Settings>, soleA: Status, soleAaaa: Status, a: seq<View>, aaaa: seq<View>)
    returns (status: Status, state: State)
    requires resolver.Some? ==> |a| == |aaaa| == resolver.value.servers
    ensures state.Disabled? <==> !Enabled(resolver)
    ensures resolver.None? ==> status == Error
    ensures resolver.Some? && !Enabled(resolver) ==> status == Alone(soleA, soleAaaa)
    ensures Enabled(resolver) ==> Decides(a, aaaa, status, state)
  {
    if resolver.None? {
      return Error, Disabled;
    }
    if !resolver.value.consensus || resolver.value.doh || resolver.value.servers < 2 {
      return Alone(soleA, soleAaaa), Disabled;
    }
    status, state := Vote(a, aaaa);
  }
}
