/** The S3 claim adapter over a bucket account whose calls may fail, against the provider contract: a plain
    error leaves nothing behind, recovery answers only for the attempt's own bucket, and a release that
    reports success leaves no bucket. */
module S3Provider {
  import opened Options
  import opened ClaimProtocol
  import opened Labels
  import opened ProviderContract
  import opened S3Endpoint

  const PROVIDER := "aws_s3"

  /** `maker` is the token of the attempt that created the bucket, or empty for anybody else's. `objects`
      maps object keys to the value of the proof metadata. */
  datatype Bucket = Bucket(maker: string, objects: map<string, string>)

  function ProofKey(token: string): string {
    ".well-known/subdomainabber-" + token
  }

  datatype Reply = Done | Absent | Failed

  datatype Call =
    | HeadBucketCall(bucket: string, reply: Reply)
    | CreateBucketCall(bucket: string, reply: Reply)
    | PutObjectCall(bucket: string, key: string, reply: Reply)
    | HeadObjectCall(bucket: string, key: string, reply: Reply, proof: string)
    | DeleteObjectCall(bucket: string, key: string, reply: Reply)
    | DeleteBucketCall(bucket: string, reply: Reply)

  /** The object store, and the calls made to it. A failing call changes nothing. */
  class Account {
    var buckets: map<string, Bucket>
    ghost var calls: seq<Call>

    /** Tokens are secrets: only the attempt that drew one stores it, in the bucket it created. */
    ghost predicate Faithful()
      reads this
    {
      forall b, token | b in buckets && token != "" && ProofKey(token) in buckets[b].objects
                        && buckets[b].objects[ProofKey(token)] == token :: buckets[b].maker == token
    }

    method HeadBucket(name: string) returns (reply: Reply)
      modifies this`calls
      ensures reply.Done? ==> name in buckets
      ensures reply.Absent? ==> name !in buckets
      ensures calls == old(calls) + [HeadBucketCall(name, reply)]
    {
      var fails: bool := *;
      reply := if fails then Failed else if name in buckets then Done else Absent;
      calls := calls + [HeadBucketCall(name, reply)];
    }

    method CreateBucket(name: string, maker: string) returns (reply: Reply)
      modifies this
      ensures reply.Done? ==> name !in old(buckets) && buckets == old(buckets)[name := Bucket(maker, map[])]
      ensures !reply.Done? ==> buckets == old(buckets)
      ensures calls == old(calls) + [CreateBucketCall(name, reply)]
    {
      var fails: bool := *;
      reply := if fails || name in buckets then Failed else Done;
      if reply.Done? {
        buckets := buckets[name := Bucket(maker, map[])];
      }
      calls := calls + [CreateBucketCall(name, reply)];
    }

    method PutObject(name: string, key: string, proof: string) returns (reply: Reply)
      modifies this
      ensures reply.Done? ==>
                name in old(buckets)
                && buckets == old(buckets)[name := old(buckets)[name].(objects := old(buckets)[name].objects[key := proof])]
      ensures !reply.Done? ==> buckets == old(buckets)
      ensures calls == old(calls) + [PutObjectCall(name, key, reply)]
    {
      var fails: bool := *;
      reply := if fails || name !in buckets then Failed else Done;
      if reply.Done? {
        buckets := buckets[name := buckets[name].(objects := buckets[name].objects[key := proof])];
      }
      calls := calls + [PutObjectCall(name, key, reply)];
    }

    method HeadObject(name: string, key: string) returns (reply: Reply, proof: string)
      modifies this`calls
      ensures reply.Done? ==> name in buckets && key in buckets[name].objects && proof == buckets[name].objects[key]
      ensures reply.Absent? ==> name !in buckets || key !in buckets[name].objects
      ensures calls == old(calls) + [HeadObjectCall(name, key, reply, proof)]
    {
      var fails: bool := *;
      reply, proof := Failed, "";
      if !fails {
        reply := if name in buckets && key in buckets[name].objects then Done else Absent;
        proof := if reply.Done? then buckets[name].objects[key] else "";
      }
      calls := calls + [HeadObjectCall(name, key, reply, proof)];
    }

    method DeleteObject(name: string, key: string) returns (reply: Reply)
      modifies this
      ensures reply.Done? ==>
                name in old(buckets)
                && buckets == old(buckets)[name := old(buckets)[name].(objects := old(buckets)[name].objects - {key})]
      ensures !reply.Done? ==> buckets == old(buckets)
      ensures calls == old(calls) + [DeleteObjectCall(name, key, reply)]
    {
      var fails: bool := *;
      reply := if fails then Failed else if name in buckets then Done else Absent;
      if reply.Done? {
        buckets := buckets[name := buckets[name].(objects := buckets[name].objects - {key})];
      }
      calls := calls + [DeleteObjectCall(name, key, reply)];
    }

    /** A bucket that still holds objects is not deleted. */
    method DeleteBucket(name: string) returns (reply: Reply)
      modifies this
      ensures reply.Done? ==> buckets == old(buckets) - {name}
      ensures reply.Absent? ==> name !in old(buckets)
      ensures !reply.Done? ==> buckets == old(buckets)
      ensures calls == old(calls) + [DeleteBucketCall(name, reply)]
    {
      var fails: bool := *;
      reply := if fails then Failed else if name !in buckets then Absent
               else if buckets[name].objects != map[] then Failed else Done;
      if reply.Done? {
        buckets := buckets - {name};
      }
      calls := calls + [DeleteBucketCall(name, reply)];
    }
  }

  datatype S3Receipt = S3Receipt(provider: string, id: string, proofKey: string)

  /** What the engine sees live: the buckets attempts created, with their tokens. */
  function Live(buckets: map<string, Bucket>): map<Resource, string> {
    map b | b in buckets && buckets[b].maker != "" :: Resource(PROVIDER, b) := buckets[b].maker
  }

  /** Every bucket of this attempt is the one its resource names. */
  predicate Placed(buckets: map<string, Bucket>, resource: string, token: string) {
    forall b | b in buckets && buckets[b].maker == token ::
      Parse(resource).Some? && Parse(resource).value.bucket == b
  }

  class Provider {
    const client: Account
    const region: string

    constructor (client: Account, region: string)
      ensures this.client == client && this.region == region
    {
      this.client, this.region := client, region;
    }

    /** A receipt with a nil error (`Accepted`), a plain error (`Rejected`), or a `ClaimFailure` that carries
        the receipt of the bucket it could not remove (`Partial`). `between` is the moment after the bucket was
        created, before its proof is stored. */
    method Claim(resource: string, token: string)
      returns (report: Report, receipt: S3Receipt, ghost between: Option<map<string, Bucket>>, ghost calls: seq<Call>)
      requires client.Faithful() && (token != "" ==> forall b | b in client.buckets :: client.buckets[b].maker != token)
      modifies client
      ensures client.Faithful() && (token != "" ==> Placed(client.buckets, resource, token))
      ensures ClaimMeets(old(Live(client.buckets)), Live(client.buckets), PROVIDER, token, report)
      ensures ClaimDecides(old(client.buckets), client.buckets, Parse(resource), region, token, report)
      ensures client.calls == old(client.calls) + calls && ClaimCalls(Parse(resource), region, token, calls, report)
      ensures !report.Rejected? ==> receipt == S3Receipt(PROVIDER, report.id, ProofKey(token)) && between.Some?
      ensures between.Some? ==>
                Parse(resource).Some? && Created(old(client.buckets), between.value, Parse(resource).value.bucket, token)
      ensures forall b | b in old(client.buckets) :: b in client.buckets && client.buckets[b] == old(client.buckets)[b]
    {
      var endpoint := Parse(resource);
      BucketNamed(resource);
      report, receipt, between, calls := ClaimEndpoint(endpoint, token);
      OthersKept(old(client.buckets), client.buckets, endpoint, region, token, report);
      DecidesMeets(old(client.buckets), client.buckets, endpoint, region, token, report);
    }

    method ClaimEndpoint(endpoint: Option<Endpoint>, token: string)
      returns (report: Report, receipt: S3Receipt, ghost between: Option<map<string, Bucket>>, ghost calls: seq<Call>)
      requires client.Faithful() && (token != "" ==> forall b | b in client.buckets :: client.buckets[b].maker != token)
      requires endpoint.Some? ==> endpoint.value.bucket != ""
      modifies client
      ensures client.Faithful()
      ensures token != "" ==> forall b | b in client.buckets && client.buckets[b].maker == token ::
                endpoint.Some? && endpoint.value.bucket == b
      ensures ClaimDecides(old(client.buckets), client.buckets, endpoint, region, token, report)
      ensures client.calls == old(client.calls) + calls && ClaimCalls(endpoint, region, token, calls, report)
      ensures !report.Rejected? ==> receipt == S3Receipt(PROVIDER, report.id, ProofKey(token)) && between.Some?
      ensures between.Some? ==> endpoint.Some? && Created(old(client.buckets), between.value, endpoint.value.bucket, token)
    {
      report, receipt, between, calls := Rejected, S3Receipt(PROVIDER, "", ""), None, [];
      if endpoint.Some? && (endpoint.value.region == "" || Lower(endpoint.value.region) == Lower(region)) && token != "" {
        report, between, calls := Provision(endpoint.value.bucket, token);
        receipt := S3Receipt(PROVIDER, endpoint.value.bucket, ProofKey(token));
      }
    }

    /** The ordered calls of a claim: prove absence, create, store the proof, and undo when that fails. The replies
        decide the report. */
    method Provision(bucket: string, token: string)
      returns (report: Report, ghost between: Option<map<string, Bucket>>, ghost calls: seq<Call>)
      requires client.Faithful() && token != "" && forall b | b in client.buckets :: client.buckets[b].maker != token
      modifies client
      ensures client.Faithful()
      ensures Provisioned(old(client.buckets), client.buckets, bucket, token, report)
      ensures client.calls == old(client.calls) + calls && ProvisionCalls(bucket, token, calls, report)
      ensures bucket in old(client.buckets) ==> report.Rejected?
      ensures forall b | b in client.buckets && client.buckets[b].maker == token :: b == bucket
      ensures !report.Rejected? ==> between.Some?
      ensures between.Some? ==> Created(old(client.buckets), between.value, bucket, token)
    {
      report, between := Rejected, None;
      var head := client.HeadBucket(bucket);
      calls := [HeadBucketCall(bucket, head)];
      if !head.Absent? {
        return;
      }
      var created := client.CreateBucket(bucket, token);
      calls := calls + [CreateBucketCall(bucket, created)];
      if !created.Done? {
        return;
      }
      between := Some(client.buckets);
      var stored := client.PutObject(bucket, ProofKey(token), token);
      calls := calls + [PutObjectCall(bucket, ProofKey(token), stored)];
      if stored.Done? {
        return Accepted(bucket), between, calls;
      }
      var cleaned := client.DeleteBucket(bucket);
      calls := calls + [DeleteBucketCall(bucket, cleaned)];
      if cleaned.Failed? {
        return Partial(bucket), between, calls;
      }
      assert client.buckets == old(client.buckets);
    }

    /** Finds the attempt's bucket by its private proof object. The answer is `Verdict` when no call fails and
        `Unknown` otherwise. */
    method RecoverClaim(resource: string, token: string) returns (answer: Recovery, ghost calls: seq<Call>)
      requires client.Faithful() && Placed(client.buckets, resource, token)
      modifies client`calls
      ensures RecoverMeets(Live(client.buckets), PROVIDER, token, answer)
      ensures client.calls == old(client.calls) + calls && RecoverCalls(Parse(resource), token, calls, answer)
      ensures answer == if SomeFailed(calls) then Unknown else Verdict(client.buckets, resource, token)
    {
      var endpoint := Parse(resource);
      calls := [];
      if endpoint.None? || token == "" {
        return Unknown, [];
      }
      var bucket := endpoint.value.bucket;
      var head := client.HeadBucket(bucket);
      calls := [HeadBucketCall(bucket, head)];
      assert calls[0] in calls;
      if head.Absent? {
        return NotFound, calls;
      }
      if head.Failed? {
        return Unknown, calls;
      }
      var reply, proof := client.HeadObject(bucket, ProofKey(token));
      calls := calls + [HeadObjectCall(bucket, ProofKey(token), reply, proof)];
      assert calls[1] in calls;
      if !reply.Done? || proof != token {
        return Unknown, calls;
      }
      return Found(bucket), calls;
    }

    /** Deletes the proof object and the bucket; what is already absent counts as deleted. It succeeds exactly when
        the receipt is complete and neither deletion fails. */
    method Release(receipt: S3Receipt) returns (ok: bool, ghost calls: seq<Call>)
      modifies client
      ensures ReleaseMeets(old(Live(client.buckets)), Live(client.buckets), PROVIDER, receipt.id, ok)
      ensures client.calls == old(client.calls) + calls && ReleaseCalls(receipt, calls, ok)
      ensures ok ==> receipt.id !in client.buckets
      ensures forall b | b != receipt.id :: b in client.buckets <==> b in old(client.buckets)
      ensures forall b | b in client.buckets && b != receipt.id :: client.buckets[b] == old(client.buckets)[b]
    {
      calls := [];
      if receipt.id == "" || receipt.proofKey == "" {
        return false, [];
      }
      var proof := client.DeleteObject(receipt.id, receipt.proofKey);
      calls := [DeleteObjectCall(receipt.id, receipt.proofKey, proof)];
      if proof.Failed? {
        return false, calls;
      }
      ghost var between := client.buckets;
      SameMakers(old(client.buckets), between);
      var bucket := client.DeleteBucket(receipt.id);
      calls := calls + [DeleteBucketCall(receipt.id, bucket)];
      ok := !bucket.Failed?;
      BucketRemoved(between, receipt.id);
    }
  }

  // ---------------------------------------------------------------- the calls of an operation

  predicate SomeFailed(calls: seq<Call>) {
    exists c :: c in calls && c.reply.Failed?
  }

  /** A claim asks whether the bucket is there, creates it, stores the proof, and removes the bucket again if that
      failed; each call is made only after the reply the one before needs. */
  predicate ProvisionCalls(bucket: string, token: string, calls: seq<Call>, report: Report) {
    && calls != [] && calls[0] == HeadBucketCall(bucket, calls[0].reply)
    && if !calls[0].reply.Absent? then |calls| == 1 && report.Rejected?
       else
         && |calls| > 1 && calls[1] == CreateBucketCall(bucket, calls[1].reply)
         && if !calls[1].reply.Done? then |calls| == 2 && report.Rejected?
            else
              && |calls| > 2 && calls[2] == PutObjectCall(bucket, ProofKey(token), calls[2].reply)
              && if calls[2].reply.Done? then |calls| == 3 && report == Accepted(bucket)
                 else
                   && |calls| == 4 && calls[3] == DeleteBucketCall(bucket, calls[3].reply)
                   && report == if calls[3].reply.Failed? then Partial(bucket) else Rejected
  }

  predicate ClaimCalls(endpoint: Option<Endpoint>, region: string, token: string, calls: seq<Call>, report: Report) {
    if endpoint.None? || token == "" || (endpoint.value.region != "" && Lower(endpoint.value.region) != Lower(region)) then
      calls == [] && report.Rejected?
    else ProvisionCalls(endpoint.value.bucket, token, calls, report)
  }

  predicate RecoverCalls(endpoint: Option<Endpoint>, token: string, calls: seq<Call>, answer: Recovery) {
    if endpoint.None? || token == "" then calls == [] && answer.Unknown?
    else
      && calls != [] && calls[0] == HeadBucketCall(endpoint.value.bucket, calls[0].reply)
      && if calls[0].reply.Absent? then |calls| == 1 && answer.NotFound?
         else if calls[0].reply.Failed? then |calls| == 1 && answer.Unknown?
         else
           && |calls| == 2 && calls[1].HeadObjectCall? && calls[1].bucket == endpoint.value.bucket && calls[1].key == ProofKey(token)
           && answer == if calls[1].reply.Done? && calls[1].proof == token then Found(endpoint.value.bucket) else Unknown
  }

  predicate ReleaseCalls(receipt: S3Receipt, calls: seq<Call>, ok: bool) {
    if receipt.id == "" || receipt.proofKey == "" then calls == [] && !ok
    else
      && calls != [] && calls[0] == DeleteObjectCall(receipt.id, receipt.proofKey, calls[0].reply)
      && if calls[0].reply.Failed? then |calls| == 1 && !ok
         else |calls| == 2 && calls[1] == DeleteBucketCall(receipt.id, calls[1].reply) && ok == !calls[1].reply.Failed?
  }

  /** The bucket holds the private proof of the attempt. */
  predicate Proven(buckets: map<string, Bucket>, bucket: string, token: string) {
    && bucket in buckets && ProofKey(token) in buckets[bucket].objects
    && buckets[bucket].objects[ProofKey(token)] == token
  }

  /** What recovery answers when no call fails: found by the proof, not found without the bucket, and unknown
      for a bucket without the proof. */
  function Verdict(buckets: map<string, Bucket>, resource: string, token: string): Recovery {
    if Parse(resource).None? || token == "" then Unknown
    else
      var bucket := Parse(resource).value.bucket;
      if bucket !in buckets then NotFound else if Proven(buckets, bucket, token) then Found(bucket) else Unknown
  }

  /** The moment between creating the bucket and storing its proof. */
  predicate Created(before: map<string, Bucket>, between: map<string, Bucket>, bucket: string, token: string) {
    bucket !in before && between == before[bucket := Bucket(token, map[])]
  }

  /** What a release may change: the bucket of its receipt. */
  predicate ReleasedOnly(before: map<string, Bucket>, after: map<string, Bucket>, id: string) {
    forall b | b != id && b in before :: b in after && after[b] == before[b]
  }

  /** Some operation of the adapter led from one state of the account to the next: a claim, for whatever
      endpoint and attempt, or a release aimed at another bucket. Recovery changes nothing. */
  ghost predicate Operated(before: map<string, Bucket>, after: map<string, Bucket>, bucket: string) {
    || (exists endpoint, region, token, report :: ClaimDecides(before, after, endpoint, region, token, report))
    || (exists id :: id != bucket && ReleasedOnly(before, after, id))
  }

  ghost predicate History(states: seq<map<string, Bucket>>, bucket: string) {
    forall i | 0 <= i < |states| - 1 :: Operated(states[i], states[i + 1], bucket)
  }

  lemma {:induction false} HalfwayStays(states: seq<map<string, Bucket>>, bucket: string, token: string)
    requires states != [] && bucket in states[0] && states[0][bucket] == Bucket(token, map[]) && History(states, bucket)
    ensures var last := states[|states| - 1]; bucket in last && last[bucket] == Bucket(token, map[])
    decreases |states|
  {
    if |states| > 1 {
      var init := states[..|states| - 1];
      HalfwayStays(init, bucket, token);
      var before, after := states[|states| - 2], states[|states| - 1];
      assert Operated(before, after, bucket);
      if endpoint, region, maker, report :| ClaimDecides(before, after, endpoint, region, maker, report) {
        OthersKept(before, after, endpoint, region, maker, report);
      }
    }
  }

  /** A process that dies between creating the bucket and storing its proof leaves a bucket that recovery can
      never account for. Whatever claims are made and whatever other buckets are released later on, the bucket
      stays live for the attempt, and the answer is unknown. */
  lemma InterruptedClaimStaysUnknown(before: map<string, Bucket>, states: seq<map<string, Bucket>>, resource: string, token: string)
    requires Parse(resource).Some? && token != "" && states != []
    requires Created(before, states[0], Parse(resource).value.bucket, token)
    requires History(states, Parse(resource).value.bucket)
    ensures var last, res := states[|states| - 1], Resource(PROVIDER, Parse(resource).value.bucket);
            Verdict(last, resource, token) == Unknown && res in Live(last) && Live(last)[res] == token
  {
    HalfwayStays(states, Parse(resource).value.bucket, token);
    LiveAt(states[|states| - 1], Resource(PROVIDER, Parse(resource).value.bucket));
  }

  lemma OthersKept(before: map<string, Bucket>, after: map<string, Bucket>, endpoint: Option<Endpoint>, region: string,
                   token: string, report: Report)
    requires ClaimDecides(before, after, endpoint, region, token, report)
    ensures forall b | b in before :: b in after && after[b] == before[b]
  {
  }

  /** What a claim decides: an unusable endpoint, token or region, or a bucket that exists, is refused, and a
      refusal or a failure to clean up changes nothing but the bucket the endpoint names. */
  predicate ClaimDecides(before: map<string, Bucket>, after: map<string, Bucket>, endpoint: Option<Endpoint>, region: string,
                         token: string, report: Report) {
    && (Unusable(before, endpoint, region, token) ==> report.Rejected?)
    && (if endpoint.Some? then Provisioned(before, after, endpoint.value.bucket, token, report)
        else report.Rejected? && after == before)
  }

  predicate Unusable(before: map<string, Bucket>, endpoint: Option<Endpoint>, region: string, token: string) {
    || endpoint.None?
    || token == ""
    || endpoint.value.bucket in before
    || (endpoint.value.region != "" && Lower(endpoint.value.region) != Lower(region))
  }

  lemma DecidesMeets(before: map<string, Bucket>, after: map<string, Bucket>, endpoint: Option<Endpoint>, region: string,
                     token: string, report: Report)
    requires ClaimDecides(before, after, endpoint, region, token, report)
    requires endpoint.Some? ==> endpoint.value.bucket != ""
    ensures ClaimMeets(Live(before), Live(after), PROVIDER, token, report)
  {
    if !report.Rejected? {
      ProvisionMeets(before, after, endpoint.value.bucket, token, report);
    }
  }

  lemma BucketNamed(resource: string)
    ensures Parse(resource).Some? ==> Parse(resource).value.bucket != ""
  {
  }

  /** What `Provision` leaves, in terms of buckets. */
  predicate Provisioned(before: map<string, Bucket>, after: map<string, Bucket>, bucket: string, token: string, report: Report) {
    match report
    case Accepted(id) => id == bucket && bucket !in before && after == before[bucket := Bucket(token, map[ProofKey(token) := token])]
    case Partial(id) => id == bucket && bucket !in before && after == before[bucket := Bucket(token, map[])]
    case Rejected => after == before
    case _ => false
  }

  lemma ProvisionMeets(before: map<string, Bucket>, after: map<string, Bucket>, bucket: string, token: string, report: Report)
    requires Provisioned(before, after, bucket, token, report) && bucket != "" && token != ""
    ensures ClaimMeets(Live(before), Live(after), PROVIDER, token, report)
  {
    if !report.Rejected? {
      BucketAdded(before, bucket, after[bucket]);
    }
  }

  lemma LiveAt(buckets: map<string, Bucket>, res: Resource)
    ensures res in Live(buckets) <==> res.provider == PROVIDER && res.id in buckets && buckets[res.id].maker != ""
    ensures res in Live(buckets) ==> Live(buckets)[res] == buckets[res.id].maker
  {
    if res.provider == PROVIDER {
      assert res == Resource(PROVIDER, res.id);
    }
  }

  /** Two views are the same when they agree on every resource. */
  lemma SameView(a: map<Resource, string>, b: map<Resource, string>)
    requires forall res :: res in a <==> res in b
    requires forall res | res in a && res in b :: a[res] == b[res]
    ensures a == b
  {
  }

  lemma AddedAt(buckets: map<string, Bucket>, name: string, bucket: Bucket, res: Resource)
    requires name !in buckets && bucket.maker != ""
    ensures var a, b := Live(buckets[name := bucket]), Live(buckets)[Resource(PROVIDER, name) := bucket.maker];
            (res in a <==> res in b) && (res in a && res in b ==> a[res] == b[res])
  {
    LiveAt(buckets, res);
    LiveAt(buckets[name := bucket], res);
  }

  lemma BucketAdded(buckets: map<string, Bucket>, name: string, bucket: Bucket)
    requires name !in buckets && bucket.maker != ""
    ensures Live(buckets[name := bucket]) == Live(buckets)[Resource(PROVIDER, name) := bucket.maker]
    ensures Resource(PROVIDER, name) !in Live(buckets)
  {
    var a, b := Live(buckets[name := bucket]), Live(buckets)[Resource(PROVIDER, name) := bucket.maker];
    LiveAt(buckets, Resource(PROVIDER, name));
    forall res ensures (res in a <==> res in b) && (res in a && res in b ==> a[res] == b[res]) {
      AddedAt(buckets, name, bucket, res);
    }
    SameView(a, b);
  }

  lemma RemovedAt(buckets: map<string, Bucket>, name: string, res: Resource)
    ensures var a, b := Live(buckets - {name}), Live(buckets) - {Resource(PROVIDER, name)};
            (res in a <==> res in b) && (res in a && res in b ==> a[res] == b[res])
  {
    LiveAt(buckets, res);
    LiveAt(buckets - {name}, res);
  }

  lemma BucketRemoved(buckets: map<string, Bucket>, name: string)
    ensures Live(buckets - {name}) == Live(buckets) - {Resource(PROVIDER, name)}
  {
    var a, b := Live(buckets - {name}), Live(buckets) - {Resource(PROVIDER, name)};
    forall res ensures (res in a <==> res in b) && (res in a && res in b ==> a[res] == b[res]) {
      RemovedAt(buckets, name, res);
    }
    SameView(a, b);
  }

  lemma SameMakers(a: map<string, Bucket>, b: map<string, Bucket>)
    requires a.Keys == b.Keys && forall name | name in a :: a[name].maker == b[name].maker
    ensures Live(a) == Live(b)
  {
  }
}
