/** Reading the scan targets: all at once into a list, or streamed in batches. Both take targets from the
    arguments, then a list file, then standard input, and keep each host once. */
module ScanInput {
  import opened Options
  import opened Labels
  import opened Names

  // ---------------------------------------------------------------- one target

  datatype Entry = Ignored | Invalid | Host(name: string)

  predicate Letter(c: char) { 'a' <= c <= 'z' }
  predicate Numeral(c: char) { '0' <= c <= '9' }

  predicate ValidLabel(part: string, last: bool) {
    && 0 < |part| <= 63 && part[0] != '-' && part[|part| - 1] != '-'
    && (forall c | c in part :: Letter(c) || Numeral(c) || c == '-' || (c == '_' && !last))
  }

  predicate ValidScanDomain(domain: string) {
    var parts := Split(domain, '.');
    && 0 < |domain| <= 253 && |parts| >= 2
    && (forall c | c in domain :: c !in "/\\:@?#%")
    && (forall i | 0 <= i < |parts| :: ValidLabel(parts[i], i == |parts| - 1))
    && (exists c :: c in parts[|parts| - 1] && Letter(c))
  }

  function ReadTarget(raw: string): Entry {
    var domain := Lower(TrimDot(TrimSpace(raw)));
    if domain == "" || domain[0] == '#' then Ignored
    else if ValidScanDomain(domain) then Host(domain)
    else Invalid
  }

  /** How a raw target is read. The program reads with `ReadTarget`; loading and streaming take the reading as
      it comes, and `LoadScanDomains` and `StreamScanDomains` put the two together. */
  type Reader = string -> Entry

  // ---------------------------------------------------------------- what the inputs hold

  /** A list file or standard input: it may not open, and reading may fail after its lines. */
  datatype File = File(opens: bool, lines: seq<string>, fails: bool)

  datatype Inputs = Inputs(args: seq<string>, list: Option<File>, stdin: Option<File>)

  function Entered(read: Reader, hosts: seq<string>, raw: string): seq<string> {
    match read(raw)
    case Host(name) => if name in hosts then hosts else hosts + [name]
    case _ => hosts
  }

  /** The hosts known after some more raw targets. */
  function Hosts(read: Reader, hosts: seq<string>, raws: seq<string>): seq<string>
    decreases |raws|
  {
    if raws == [] then hosts else Hosts(read, Entered(read, hosts, raws[0]), raws[1..])
  }

  predicate Acceptable(read: Reader, raws: seq<string>) {
    forall raw | raw in raws :: !read(raw).Invalid?
  }

  /** The raw targets before the first invalid one. */
  function Usable(read: Reader, raws: seq<string>): seq<string> {
    if raws == [] || read(raws[0]).Invalid? then [] else [raws[0]] + Usable(read, raws[1..])
  }

  function Opened(file: Option<File>): seq<string> {
    if file.Some? && file.value.opens then file.value.lines else []
  }

  predicate Readable(read: Reader, file: Option<File>) {
    file.Some? ==> file.value.opens && Acceptable(read, file.value.lines) && !file.value.fails
  }

  /** The inputs hold no invalid target and can be read to the end. */
  predicate Whole(read: Reader, inputs: Inputs) {
    Acceptable(read, inputs.args) && Readable(read, inputs.list) && Readable(read, inputs.stdin)
  }

  /** The raw targets that are reached before the first problem. */
  function Reached(read: Reader, inputs: Inputs): seq<string> {
    Usable(read, inputs.args)
    + if !Acceptable(read, inputs.args) then [] else
        Usable(read, Opened(inputs.list)) + if !Readable(read, inputs.list) then [] else Usable(read, Opened(inputs.stdin))
  }

  /** The distinct hosts of the inputs, in order of first appearance, up to the first problem. */
  function Targets(read: Reader, inputs: Inputs): seq<string> {
    Hosts(read, [], Reached(read, inputs))
  }

  lemma {:induction false} HostsConcat(read: Reader, hosts: seq<string>, a: seq<string>, b: seq<string>)
    ensures Hosts(read, hosts, a + b) == Hosts(read, Hosts(read, hosts, a), b)
    decreases |a|
  {
    if a == [] {
      assert a + b == b;
    } else {
      assert (a + b)[1..] == a[1..] + b;
      HostsConcat(read, Entered(read, hosts, a[0]), a[1..], b);
    }
  }

  lemma {:induction false} UsableConcat(read: Reader, a: seq<string>, b: seq<string>)
    requires Acceptable(read, a)
    ensures Usable(read, a + b) == a + Usable(read, b)
    decreases |a|
  {
    if a == [] {
      assert a + b == b;
    } else {
      assert a[0] in a && (a + b)[1..] == a[1..] + b;
      assert forall r | r in a[1..] :: r in a;
      UsableConcat(read, a[1..], b);
      assert [a[0]] + (a[1..] + Usable(read, b)) == a + Usable(read, b);
    }
  }

  lemma UsableSplit(read: Reader, front: seq<string>, x: string, back: seq<string>)
    requires Acceptable(read, front)
    ensures Usable(read, front + ([x] + back)) == if read(x).Invalid? then front else (front + [x]) + Usable(read, back)
  {
    UsableConcat(read, front, [x] + back);
    UsableCons(read, x, back);
    if read(x).Invalid? {
      assert front + [] == front;
    } else {
      Shift(front, x, Usable(read, back));
    }
  }

  lemma UsableStep(read: Reader, raws: seq<string>, i: nat)
    requires i < |raws| && Acceptable(read, raws[..i])
    ensures Usable(read, raws) == if read(raws[i]).Invalid? then raws[..i] else raws[..i + 1] + Usable(read, raws[i + 1..])
  {
    Regroup(raws, i);
    UsableSplit(read, raws[..i], raws[i], raws[i + 1..]);
  }

  lemma Regroup(s: seq<string>, i: nat)
    requires i < |s|
    ensures s == s[..i] + ([s[i]] + s[i + 1..]) && s[..i + 1] == s[..i] + [s[i]]
  {
  }

  lemma UsableCons(read: Reader, x: string, back: seq<string>)
    ensures Usable(read, [x] + back) == if read(x).Invalid? then [] else [x] + Usable(read, back)
  {
    assert ([x] + back)[1..] == back;
  }

  lemma Shift(front: seq<string>, x: string, rest: seq<string>)
    ensures front + ([x] + rest) == (front + [x]) + rest
  {
  }

  lemma {:induction false} AcceptableIsUsable(read: Reader, raws: seq<string>)
    requires Acceptable(read, raws)
    ensures Usable(read, raws) == raws
  {
    if raws != [] {
      assert raws[0] in raws && raws == [raws[0]] + raws[1..];
      AcceptableIsUsable(read, raws[1..]);
    }
  }

  lemma {:induction false} HostNamed(read: Reader, hosts: seq<string>, raws: seq<string>, n: string)
    ensures n in Hosts(read, hosts, raws) <==> n in hosts || Named(read, raws, n)
    decreases |raws|
  {
    if raws != [] {
      Regroup(raws, 0);
      HostNamed(read, Entered(read, hosts, raws[0]), raws[1..], n);
      assert raws == [raws[0]] + raws[1..];
      NamedCons(read, raws[0], raws[1..], n);
    }
  }

  lemma {:induction false} HostsOnce(read: Reader, hosts: seq<string>, raws: seq<string>)
    requires NoDuplicates(hosts)
    ensures NoDuplicates(Hosts(read, hosts, raws)) && hosts <= Hosts(read, hosts, raws)
    decreases |raws|
  {
    if raws != [] {
      HostsOnce(read, Entered(read, hosts, raws[0]), raws[1..]);
    }
  }

  /** The targets are distinct, and they are exactly the hosts the reached lines name. */
  lemma HostsAre(read: Reader, hosts: seq<string>, raws: seq<string>)
    requires NoDuplicates(hosts)
    ensures NoDuplicates(Hosts(read, hosts, raws)) && hosts <= Hosts(read, hosts, raws)
    ensures forall n :: n in Hosts(read, hosts, raws) <==> n in hosts || Named(read, raws, n)
  {
    HostsOnce(read, hosts, raws);
    forall n ensures n in Hosts(read, hosts, raws) <==> n in hosts || Named(read, raws, n) {
      HostNamed(read, hosts, raws, n);
    }
  }

  ghost predicate Named(read: Reader, raws: seq<string>, n: string) {
    exists raw :: raw in raws && read(raw) == Host(n)
  }

  lemma NamedCons(read: Reader, raw: string, rest: seq<string>, n: string)
    ensures Named(read, [raw] + rest, n) <==> read(raw) == Host(n) || Named(read, rest, n)
  {
    if read(raw) == Host(n) {
      assert raw in [raw] + rest;
    }
    if Named(read, rest, n) {
      var r :| r in rest && read(r) == Host(n);
      assert r in [raw] + rest;
    }
  }

  // ---------------------------------------------------------------- loading

  class Loader {
    const read: Reader
    var seen: set<string>
    var domains: seq<string>

    ghost predicate Valid()
      reads this
    {
      seen == Elements(domains)
    }

    constructor (read: Reader)
      ensures Valid() && this.read == read && domains == []
    {
      this.read, seen, domains := read, {}, [];
    }

    method Add(raw: string) returns (ok: bool)
      requires Valid()
      modifies this
      ensures Valid() && ok == !read(raw).Invalid? && domains == Entered(read, old(domains), raw)
    {
      var entry := read(raw);
      match entry
      case Ignored => ok := true;
      case Invalid => ok := false;
      case Host(name) =>
        ok := true;
        assert name in seen <==> name in domains;
        if name !in seen {
          seen := seen + {name};
          domains := domains + [name];
        }
    }

    method AddLines(lines: seq<string>) returns (ok: bool)
      requires Valid()
      modifies this
      ensures Valid() && ok == Acceptable(read, lines) && domains == Hosts(read, old(domains), Usable(read, lines))
    {
      var i := 0;
      while i < |lines|
        invariant i <= |lines| && Valid() && Acceptable(read, lines[..i])
        invariant domains == Hosts(read, old(domains), lines[..i])
      {
        assert lines[..i + 1] == lines[..i] + [lines[i]];
        UsableStep(read, lines, i);
        HostsConcat(read, old(domains), lines[..i], [lines[i]]);
        assert Hosts(read, domains, [lines[i]]) == Entered(read, domains, lines[i]) by {
          assert [lines[i]][1..] == [];
        }
        var added := Add(lines[i]);
        if !added {
          return false;
        }
        i := i + 1;
      }
      assert lines[..i] == lines;
      AcceptableIsUsable(read, lines);
      ok := true;
    }

    method AddFile(file: Option<File>) returns (ok: bool)
      requires Valid()
      modifies this
      ensures Valid() && ok == Readable(read, file) && domains == Hosts(read, old(domains), Usable(read, Opened(file)))
    {
      if file.None? || !file.value.opens {
        return file.None?;
      }
      ok := AddLines(file.value.lines);
      ok := ok && !file.value.fails;
    }
  }

  /** The hosts of the inputs: loaded exactly when the inputs are whole and name at least one. */
  method Load(read: Reader, inputs: Inputs) returns (domains: Option<seq<string>>)
    ensures domains == if Whole(read, inputs) && Targets(read, inputs) != [] then Some(Targets(read, inputs)) else None
  {
    var loader := new Loader(read);
    var a, b, c := Usable(read, inputs.args), Usable(read, Opened(inputs.list)), Usable(read, Opened(inputs.stdin));
    HostsThrice(read, a, b, c);
    var ok := loader.AddLines(inputs.args);
    if !ok {
      return None;
    }
    ok := loader.AddFile(inputs.list);
    if !ok {
      return None;
    }
    ok := loader.AddFile(inputs.stdin);
    if !ok || loader.domains == [] {
      return None;
    }
    domains := Some(loader.domains);
  }

  lemma HostsThrice(read: Reader, a: seq<string>, b: seq<string>, c: seq<string>)
    ensures Hosts(read, [], a + (b + c)) == Hosts(read, Hosts(read, Hosts(read, [], a), b), c)
    ensures Hosts(read, [], a + (b + [])) == Hosts(read, Hosts(read, [], a), b)
    ensures Hosts(read, [], a + []) == Hosts(read, [], a)
  {
    HostsConcat(read, [], a, b + c);
    HostsConcat(read, Hosts(read, [], a), b, c);
    HostsConcat(read, [], a, b + []);
    assert a + [] == a && b + [] == b;
  }

  // ---------------------------------------------------------------- streaming

  function Concat(batches: seq<seq<string>>): seq<string>
    decreases |batches|
  {
    if batches == [] then [] else Concat(batches[..|batches| - 1]) + batches[|batches| - 1]
  }

  lemma ConcatAppend(batches: seq<seq<string>>, batch: seq<string>)
    ensures Concat(batches + [batch]) == Concat(batches) + batch
  {
    assert (batches + [batch])[..|batches|] == batches;
  }

  predicate Full(batches: seq<seq<string>>, size: nat) {
    forall batch | batch in batches :: |batch| == size
  }

  /** Every batch but the last has the full size and none is empty. */
  predicate Sized(batches: seq<seq<string>>, size: nat) {
    batches != [] ==> Full(batches[..|batches| - 1], size) && 1 <= |batches[|batches| - 1]| <= size
  }

  /** What streaming rests on besides the inputs: that the index of hosts can be opened and takes a host, that the
      processor accepts a batch, and that a list file can be closed. */
  datatype Surroundings = Surroundings(opens: bool, indexes: string -> bool, accepts: seq<string> -> bool, closes: bool)

  /** The hosts were all indexed and the batches all accepted. */
  predicate Smooth(around: Surroundings, hosts: seq<string>, given: seq<seq<string>>) {
    (forall host | host in hosts :: around.indexes(host)) && (forall batch | batch in given :: around.accepts(batch))
  }

  /** `given` lists the batches handed to the processor. */
  class Streamer {
    const read: Reader
    const around: Surroundings
    const size: nat
    var seen: set<string>
    var batch: seq<string>
    var processed: nat
    var given: seq<seq<string>>

    ghost predicate Valid()
      reads this
    {
      && size >= 1 && |batch| < size && Smooth(around, Taken(), given)
      && Full(given, size) && processed == |Concat(given)|
      && seen == Elements(Concat(given) + batch)
    }

    ghost function Taken(): seq<string>
      reads this
    {
      Concat(given) + batch
    }

    constructor (read: Reader, around: Surroundings, size: nat)
      requires size >= 1
      ensures Valid() && this.read == read && this.around == around && this.size == size && Taken() == [] && given == []
    {
      this.read, this.around, this.size := read, around, size;
      seen, batch, processed, given := {}, [], 0, [];
    }

    /** Hands a batch that is not empty to the processor. */
    method Flush() returns (ok: bool)
      requires size >= 1 && |batch| <= size
      requires Full(given, size) && processed == |Concat(given)|
      modifies this`batch, this`processed, this`given
      ensures Sized(given, size) && ok == (old(batch) == [] || around.accepts(old(batch)))
      ensures given == if old(batch) == [] then old(given) else old(given) + [old(batch)]
      ensures ok ==> batch == [] && processed == |Concat(given)|
    {
      if |batch| == 0 {
        FullIsSized(given, size);
        return true;
      }
      ConcatAppend(given, batch);
      assert (given + [batch])[..|given|] == given;
      given := given + [batch];
      if !around.accepts(batch) {
        return false;
      }
      processed := processed + |batch|;
      batch := [];
      ok := true;
    }

    method Add(raw: string) returns (ok: bool)
      requires Valid()
      modifies this
      ensures ok ==> Valid() && !read(raw).Invalid? && Taken() == Entered(read, old(Taken()), raw)
      ensures !ok ==> Sized(given, size) && Concat(given) <= Entered(read, old(Taken()), raw)
      ensures !ok ==> read(raw).Invalid? || !Smooth(around, Entered(read, old(Taken()), raw), given)
    {
      var entry := read(raw);
      FullIsSized(given, size);
      if entry.Ignored? {
        return true;
      }
      if entry.Invalid? {
        return false;
      }
      if !around.indexes(entry.name) {
        assert entry.name in Entered(read, Taken(), raw);
        PrefixOf(Concat(given), batch, Entered(read, Taken(), raw));
        return false;
      }
      assert entry.name in seen <==> entry.name in Taken();
      if entry.name in seen {
        return true;
      }
      ok := Push(entry.name);
    }

    /** A new host joins the batch; a full batch is handed over. */
    method Push(name: string) returns (ok: bool)
      requires Valid() && name !in seen && around.indexes(name)
      modifies this
      ensures ok ==> Valid() && Taken() == old(Taken()) + [name]
      ensures !ok ==> Sized(given, size) && Concat(given) <= old(Taken()) + [name]
      ensures !ok ==> !Smooth(around, old(Taken()) + [name], given)
    {
      assert Concat(given) + (batch + [name]) == Taken() + [name];
      assert Elements(Taken() + [name]) == Elements(Taken()) + {name};
      ghost var before := given;
      seen := seen + {name};
      batch := batch + [name];
      if |batch| < size {
        return true;
      }
      ConcatAppend(given, batch);
      ghost var full := batch;
      ok := Flush();
      assert given == before + [full] && Concat(given) + [] == Concat(given);
      assert full in given;
    }

    method AddLines(lines: seq<string>) returns (ok: bool)
      requires Valid()
      modifies this
      ensures ok ==> Valid() && Acceptable(read, lines) && Taken() == Hosts(read, old(Taken()), lines)
      ensures !ok ==> Sized(given, size) && Concat(given) <= Hosts(read, old(Taken()), Usable(read, lines))
      ensures !ok ==> !Acceptable(read, lines) || !Smooth(around, Hosts(read, old(Taken()), Usable(read, lines)), given)
    {
      var i := 0;
      while i < |lines|
        invariant i <= |lines| && Valid() && Acceptable(read, lines[..i])
        invariant Taken() == Hosts(read, old(Taken()), lines[..i])
      {
        ghost var before := Taken();
        OneLine(read, old(Taken()), lines, i);
        var added := Add(lines[i]);
        if !added {
          PrefixThrough(Concat(given), Entered(read, before, lines[i]), Hosts(read, old(Taken()), Usable(read, lines)));
          SmoothFront(around, Entered(read, before, lines[i]), Hosts(read, old(Taken()), Usable(read, lines)), given);
          return false;
        }
        i := i + 1;
      }
      assert lines[..i] == lines;
      ok := true;
    }

    /** A list file has to be closed as well. */
    method AddFile(file: Option<File>, closing: bool) returns (ok: bool)
      requires Valid()
      modifies this
      ensures ok ==> Valid() && Readable(read, file) && Taken() == Hosts(read, old(Taken()), Opened(file))
      ensures ok && closing && file.Some? ==> around.closes
      ensures !ok ==> Sized(given, size) && Concat(given) <= Hosts(read, old(Taken()), Usable(read, Opened(file)))
      ensures !ok ==> || !Readable(read, file) || !Smooth(around, Hosts(read, old(Taken()), Usable(read, Opened(file))), given)
                      || (closing && file.Some? && !around.closes)
    {
      FullIsSized(given, size);
      if file.None? || !file.value.opens {
        return file.None?;
      }
      ok := AddLines(file.value.lines);
      if ok {
        AcceptableIsUsable(read, file.value.lines);
        FullIsSized(given, size);
        if file.value.fails {
          return false;
        }
        ok := !closing || around.closes;
      }
    }
  }

  /** Fewer hosts are no less smooth. */
  lemma SmoothFront(around: Surroundings, front: seq<string>, hosts: seq<string>, given: seq<seq<string>>)
    requires front <= hosts
    ensures Smooth(around, hosts, given) ==> Smooth(around, front, given)
  {
    forall host | host in front ensures host in hosts {
    }
  }

  /** Nothing but the inputs stands in the way. */
  predicate Undisturbed(around: Surroundings, inputs: Inputs, hosts: seq<string>, given: seq<seq<string>>) {
    around.opens && Smooth(around, hosts, given) && (inputs.list.Some? ==> around.closes)
  }

  /** Streams the targets in batches. It succeeds exactly for an admissible size when loading would succeed and nothing
      else stands in the way. Then the batches together are the list that loading returns, each but the last full and
      none empty; on failure those handed over are a prefix of that list. */
  method Stream(read: Reader, inputs: Inputs, size: int, around: Surroundings) returns (ok: bool, given: seq<seq<string>>)
    ensures Concat(given) <= Targets(read, inputs)
    ensures size >= 1 ==> Sized(given, size)
    ensures ok ==> Concat(given) == Targets(read, inputs)
    ensures ok <==>
              && 1 <= size <= 100000 && Whole(read, inputs) && Targets(read, inputs) != []
              && Undisturbed(around, inputs, Targets(read, inputs), given)
  {
    ok, given := false, [];
    if size < 1 || size > 100000 || !around.opens {
      return;
    }
    var s := new Streamer(read, around, size);
    ok := StreamInto(s, inputs);
    given := s.given;
  }

  /** The hosts after each source lie on the way to all targets. */
  lemma Stages(read: Reader, inputs: Inputs)
    ensures var first := Hosts(read, [], Usable(read, inputs.args));
            var second := Hosts(read, first, Usable(read, Opened(inputs.list)));
            && first <= Targets(read, inputs)
            && (Acceptable(read, inputs.args) ==> second <= Targets(read, inputs))
            && (Acceptable(read, inputs.args) && Readable(read, inputs.list) ==>
                  Hosts(read, second, Usable(read, Opened(inputs.stdin))) == Targets(read, inputs))
  {
    var a, b, c := Usable(read, inputs.args), Usable(read, Opened(inputs.list)), Usable(read, Opened(inputs.stdin));
    HostsThrice(read, a, b, c);
    HostsExtend(read, Hosts(read, [], a), b);
    HostsExtend(read, Hosts(read, Hosts(read, [], a), b), c);
    PrefixThrough(Hosts(read, [], a), Hosts(read, Hosts(read, [], a), b), Hosts(read, Hosts(read, Hosts(read, [], a), b), c));
  }

  method StreamInto(s: Streamer, inputs: Inputs) returns (ok: bool)
    requires s.Valid() && s.Taken() == [] && s.around.opens
    modifies s
    ensures Sized(s.given, s.size) && Concat(s.given) <= Targets(s.read, inputs)
    ensures ok ==> Concat(s.given) == Targets(s.read, inputs)
    ensures ok <==> Whole(s.read, inputs) && Targets(s.read, inputs) != []
                    && Undisturbed(s.around, inputs, Targets(s.read, inputs), s.given)
  {
    Stages(s.read, inputs);
    ok := s.AddLines(inputs.args);
    if !ok {
      SmoothFront(s.around, Hosts(s.read, [], Usable(s.read, inputs.args)), Targets(s.read, inputs), s.given);
      return;
    }
    AcceptableIsUsable(s.read, inputs.args);
    ok := StreamFiles(s, inputs);
  }

  method StreamFiles(s: Streamer, inputs: Inputs) returns (ok: bool)
    requires s.Valid() && Acceptable(s.read, inputs.args) && s.Taken() == Hosts(s.read, [], Usable(s.read, inputs.args))
    requires s.around.opens
    modifies s
    ensures Sized(s.given, s.size) && Concat(s.given) <= Targets(s.read, inputs)
    ensures ok ==> Concat(s.given) == Targets(s.read, inputs)
    ensures ok <==> Whole(s.read, inputs) && Targets(s.read, inputs) != []
                    && Undisturbed(s.around, inputs, Targets(s.read, inputs), s.given)
  {
    Stages(s.read, inputs);
    ghost var first := s.Taken();
    ok := s.AddFile(inputs.list, true);
    if !ok {
      SmoothFront(s.around, Hosts(s.read, first, Usable(s.read, Opened(inputs.list))), Targets(s.read, inputs), s.given);
      return;
    }
    FileIsUsable(s.read, inputs.list);
    ok := s.AddFile(inputs.stdin, false);
    if !ok {
      return;
    }
    FileIsUsable(s.read, inputs.stdin);
    ok := Finish(s, inputs);
  }

  /** The last batch, which may be short. */
  method Finish(s: Streamer, inputs: Inputs) returns (ok: bool)
    requires s.Valid() && s.Taken() == Targets(s.read, inputs)
    requires Whole(s.read, inputs) && s.around.opens && (inputs.list.Some? ==> s.around.closes)
    modifies s
    ensures Sized(s.given, s.size) && Concat(s.given) == Targets(s.read, inputs)
    ensures ok <==> Targets(s.read, inputs) != [] && Undisturbed(s.around, inputs, Targets(s.read, inputs), s.given)
  {
    ConcatAppend(s.given, s.batch);
    ghost var was, last := s.given, s.batch;
    ok := s.Flush();
    if last != [] {
      assert last in s.given;
      assert forall b | b in s.given :: b in was || b == last;
    }
    ok := ok && s.processed > 0;
  }

  lemma FileIsUsable(read: Reader, file: Option<File>)
    requires Readable(read, file)
    ensures Usable(read, Opened(file)) == Opened(file)
  {
    AcceptableIsUsable(read, Opened(file));
  }

  lemma FullIsSized(batches: seq<seq<string>>, size: nat)
    requires Full(batches, size) && size >= 1
    ensures Sized(batches, size)
  {
    if batches != [] {
      assert batches[|batches| - 1] in batches;
    }
  }

  lemma PrefixOf(a: seq<string>, b: seq<string>, c: seq<string>)
    requires a + b <= c
    ensures a <= c
  {
  }

  lemma PrefixThrough(a: seq<string>, b: seq<string>, c: seq<string>)
    requires a <= b && b <= c
    ensures a <= c
  {
  }

  /** One more line: what it adds, and that it lies on the way to everything usable. */
  lemma OneLine(read: Reader, hosts: seq<string>, lines: seq<string>, i: nat)
    requires i < |lines| && Acceptable(read, lines[..i])
    ensures Hosts(read, hosts, lines[..i + 1]) == Entered(read, Hosts(read, hosts, lines[..i]), lines[i])
    ensures Entered(read, Hosts(read, hosts, lines[..i]), lines[i]) <= Hosts(read, hosts, Usable(read, lines))
    ensures if read(lines[i]).Invalid? then !Acceptable(read, lines) else Acceptable(read, lines[..i + 1])
  {
    assert lines[i] in lines;
    assert lines[..i + 1] == lines[..i] + [lines[i]];
    HostsConcat(read, hosts, lines[..i], [lines[i]]);
    assert [lines[i]][1..] == [];
    UsableStep(read, lines, i);
    if !read(lines[i]).Invalid? {
      HostsConcat(read, hosts, lines[..i + 1], Usable(read, lines[i + 1..]));
      HostsExtend(read, Hosts(read, hosts, lines[..i + 1]), Usable(read, lines[i + 1..]));
    }
  }

  lemma {:induction false} HostsExtend(read: Reader, hosts: seq<string>, raws: seq<string>)
    ensures hosts <= Hosts(read, hosts, raws)
    decreases |raws|
  {
    if raws != [] {
      HostsExtend(read, Entered(read, hosts, raws[0]), raws[1..]);
    }
  }

  // ---------------------------------------------------------------- the program's reader

  lemma {:induction false} JoinChars(parts: seq<string>, sep: char, c: char)
    requires c in Join(parts, sep)
    ensures c == sep || exists i :: 0 <= i < |parts| && c in parts[i]
  {
    if |parts| == 1 {
      assert c in parts[0];
    } else if c !in parts[0] && c != sep {
      JoinChars(parts[1..], sep, c);
      var i :| 0 <= i < |parts[1..]| && c in parts[1..][i];
      assert c in parts[i + 1];
    }
  }

  lemma LastLabel(domain: string)
    requires domain != "" && domain[|domain| - 1] == '.'
    ensures var parts := Split(domain, '.'); parts[|parts| - 1] == ""
  {
    var front := domain[..|domain| - 1];
    assert domain == front + ['.'] + "";
    SplitConcat(front, "", '.');
  }

  lemma ValidIsClean(domain: string)
    requires ValidScanDomain(domain)
    ensures Clean(domain)
  {
    var parts := Split(domain, '.');
    JoinSplit(domain, '.');
    forall c | c in domain ensures CleanChar(c) {
      JoinChars(parts, '.', c);
      if c != '.' {
        var i :| 0 <= i < |parts| && c in parts[i];
        assert ValidLabel(parts[i], i == |parts| - 1);
      }
    }
    if domain[|domain| - 1] == '.' {
      LastLabel(domain);
    }
  }

  /** A host reads as itself. */
  lemma HostReadsItself(raw: string, name: string)
    requires ReadTarget(raw) == Host(name)
    ensures ValidScanDomain(name) && ReadTarget(name) == Host(name)
  {
    ValidIsClean(name);
    CleanIsNormal(name);
    assert NormalizeHost(name) == name;
    assert name[0] in name && CleanChar(name[0]);
  }

  lemma TargetsAreHosts(inputs: Inputs)
    ensures NoDuplicates(Targets(ReadTarget, inputs))
    ensures forall i | 0 <= i < |Targets(ReadTarget, inputs)| ::
              var name := Targets(ReadTarget, inputs)[i]; ValidScanDomain(name) && ReadTarget(name) == Host(name)
  {
    var targets := Targets(ReadTarget, inputs);
    HostsAre(ReadTarget, [], Reached(ReadTarget, inputs));
    forall i | 0 <= i < |targets| ensures ValidScanDomain(targets[i]) && ReadTarget(targets[i]) == Host(targets[i]) {
      assert targets[i] in targets;
      var raw :| raw in Reached(ReadTarget, inputs) && ReadTarget(raw) == Host(targets[i]);
      HostReadsItself(raw, targets[i]);
    }
  }

  lemma {:induction false} HostsOfHosts(read: Reader, done: seq<string>, names: seq<string>)
    requires NoDuplicates(done + names) && forall i | 0 <= i < |names| :: read(names[i]) == Host(names[i])
    ensures Hosts(read, done, names) == done + names
    decreases |names|
  {
    if names == [] {
      assert done + names == done;
    } else {
      forall j | 0 <= j < |done| ensures done[j] != names[0] {
        assert (done + names)[j] == done[j] && (done + names)[|done|] == names[0];
      }
      Regroup(names, 0);
      Shift(done, names[0], names[1..]);
      HostsOfHosts(read, done + [names[0]], names[1..]);
    }
  }

  lemma HostsLoad(read: Reader, names: seq<string>)
    requires NoDuplicates(names) && forall i | 0 <= i < |names| :: read(names[i]) == Host(names[i])
    ensures Whole(read, Inputs(names, None, None)) && Targets(read, Inputs(names, None, None)) == names
  {
    AcceptableIsUsable(read, names);
    assert [] + names == names && names + ([] + []) == names;
    HostsOfHosts(read, [], names);
  }

  /** The targets of a scan, given as arguments, load as themselves. */
  lemma LoadedLoadsAgain(inputs: Inputs)
    ensures var again := Inputs(Targets(ReadTarget, inputs), None, None);
            Whole(ReadTarget, again) && Targets(ReadTarget, again) == Targets(ReadTarget, inputs)
  {
    TargetsAreHosts(inputs);
    HostsLoad(ReadTarget, Targets(ReadTarget, inputs));
  }

  /** What `Load` ensures, for the reading the program uses: valid domain names only, each once. */
  method LoadScanDomains(inputs: Inputs) returns (domains: Option<seq<string>>)
    ensures domains.Some? <==> Whole(ReadTarget, inputs) && exists raw :: raw in Reached(ReadTarget, inputs) && ReadTarget(raw).Host?
    ensures domains.Some? ==> domains.value == Targets(ReadTarget, inputs) && NoDuplicates(domains.value)
                              && forall i | 0 <= i < |domains.value| :: ValidScanDomain(domains.value[i])
  {
    domains := Load(ReadTarget, inputs);
    TargetsAreHosts(inputs);
    SomeTarget(inputs);
  }

  lemma SomeTarget(inputs: Inputs)
    ensures Targets(ReadTarget, inputs) != [] <==> exists raw :: raw in Reached(ReadTarget, inputs) && ReadTarget(raw).Host?
  {
    var targets, reached := Targets(ReadTarget, inputs), Reached(ReadTarget, inputs);
    HostsAre(ReadTarget, [], reached);
    if targets != [] {
      assert targets[0] in targets && Named(ReadTarget, reached, targets[0]);
    }
    if raw :| raw in reached && ReadTarget(raw).Host? {
      assert Named(ReadTarget, reached, ReadTarget(raw).name);
    }
  }

  method StreamScanDomains(inputs: Inputs, size: int, around: Surroundings) returns (ok: bool, given: seq<seq<string>>)
    ensures Concat(given) <= Targets(ReadTarget, inputs) && (size >= 1 ==> Sized(given, size))
    ensures ok ==> Concat(given) == Targets(ReadTarget, inputs)
    ensures ok <==>
              && 1 <= size <= 100000 && Whole(ReadTarget, inputs)
              && (exists raw :: raw in Reached(ReadTarget, inputs) && ReadTarget(raw).Host?)
              && Undisturbed(around, inputs, Targets(ReadTarget, inputs), given)
    ensures forall i | 0 <= i < |Concat(given)| :: ValidScanDomain(Concat(given)[i])
  {
    ok, given := Stream(ReadTarget, inputs, size, around);
    SomeTarget(inputs);
    TargetsAreHosts(inputs);
    assert forall i | 0 <= i < |Concat(given)| :: Concat(given)[i] == Targets(ReadTarget, inputs)[i];
  }
}
