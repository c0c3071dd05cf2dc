/** Parsing the bucket and the region out of an S3 virtual-hosted hostname. The parser is characterised by
    the printed forms: it answers with a bucket and a region exactly when the host is one of those forms. */
module S3Endpoint {
  import opened Options
  import opened Labels

  const DOT := '.'
  const DASH := '-'

  predicate Digit(c: char) { '0' <= c <= '9' }
  predicate LowerAlnum(c: char) { ('a' <= c <= 'z') || Digit(c) }

  // ---------------------------------------------------------------- the parser

  predicate Octet(part: string) {
    && 1 <= |part| <= 3
    && (forall c | c in part :: Digit(c))
    && (|part| > 1 ==> part[0] != '0')
    && (|part| == 3 ==> part[0] == '1' || (part[0] == '2' && (part[1] < '5' || (part[1] == '5' && part[2] <= '5'))))
  }

  /** An IPv4 literal; an IPv6 literal needs a colon, which no bucket name may hold. */
  predicate IsIP(name: string) {
    var parts := Split(name, DOT);
    |parts| == 4 && forall part | part in parts :: Octet(part)
  }

  predicate ValidBucket(bucket: string) {
    && 3 <= |bucket| <= 63
    && (forall i | 0 <= i < |bucket| - 1 :: !(bucket[i] == DOT && bucket[i + 1] == DOT))
    && !IsIP(bucket)
    && (forall c | c in bucket :: LowerAlnum(c) || c == DASH || c == DOT)
    && LowerAlnum(bucket[0]) && LowerAlnum(bucket[|bucket| - 1])
  }

  predicate ValidRegion(value: string) {
    var parts := Split(value, DASH);
    && |parts| >= 3
    && (forall i | 0 <= i < |parts| - 1 :: parts[i] != "" && forall c | c in parts[i] :: LowerAlnum(c))
    && parts[|parts| - 1] != ""
    && (forall c | c in parts[|parts| - 1] :: Digit(c))
  }

  function RegionIfValid(suffix: seq<string>, embedded: string): Option<string> {
    if embedded == "" then
      if |suffix| == 1 && ValidRegion(suffix[0]) then Some(suffix[0]) else None
    else if |suffix| == 0 && ValidRegion(embedded) then Some(embedded)
    else None
  }

  function RegionFromService(labels: seq<string>): Option<string> {
    if labels == [] then None
    else
      var service, suffix := labels[0], labels[1..];
      if service == "s3" then
        if |suffix| == 0 then Some("")
        else if |suffix| == 1 && ValidRegion(suffix[0]) then Some(suffix[0])
        else if |suffix| == 2 && suffix[0] == "dualstack" && ValidRegion(suffix[1]) then Some(suffix[1])
        else None
      else if service == "s3-website" then RegionIfValid(suffix, "")
      else if HasPrefix(service, "s3-website-") then RegionIfValid(suffix, service[|"s3-website-"|..])
      else if HasPrefix(service, "s3-") then RegionIfValid(suffix, service[|"s3-"|..])
      else None
  }

  predicate ServiceLabel(name: string) {
    name == "s3" || HasPrefix(name, "s3-")
  }

  /** The rightmost service label strictly between the first label and `upTo`, or 0. */
  function ServiceIndex(labels: seq<string>, upTo: nat): (index: nat)
    requires upTo <= |labels|
    ensures index > 0 ==> index < upTo && ServiceLabel(labels[index])
    ensures forall i | index < i < upTo :: i == 0 || !ServiceLabel(labels[i])
  {
    if upTo <= 1 then 0
    else if ServiceLabel(labels[upTo - 1]) then upTo - 1
    else ServiceIndex(labels, upTo - 1)
  }

  /** Where "amazonaws" stands in the last labels, or 0. */
  function AwsIndex(labels: seq<string>): (index: nat)
    ensures index > 0 ==> index < |labels|
  {
    var n := |labels|;
    if n < 4 then 0
    else if labels[n - 2] == "amazonaws" && labels[n - 1] == "com" then n - 2
    else if n >= 5 && labels[n - 3] == "amazonaws" && labels[n - 2] == "com" && labels[n - 1] == "cn" then n - 3
    else 0
  }

  datatype Endpoint = Endpoint(bucket: string, region: string)

  function ParseLabels(labels: seq<string>): Option<Endpoint> {
    var aws := AwsIndex(labels);
    var service := ServiceIndex(labels, aws);
    if aws == 0 || service < 1 then None
    else match RegionFromService(labels[service..aws])
      case None => None
      case Some(region) =>
        var bucket := Join(labels[..service], DOT);
        if ValidBucket(bucket) then Some(Endpoint(bucket, region)) else None
  }

  function Parse(resource: string): Option<Endpoint> {
    ParseLabels(Split(NormalizeHost(resource), DOT))
  }

  // ---------------------------------------------------------------- the printed forms

  datatype Form = Plain | Regional | DualStack | Website | Dashed | WebsiteDashed | BareDash | BareWebsiteDash

  function Service(form: Form, region: string): seq<string> {
    match form
    case Plain => ["s3"]
    case Regional => ["s3", region]
    case DualStack => ["s3", "dualstack", region]
    case Website => ["s3-website", region]
    case Dashed => ["s3-" + region]
    case WebsiteDashed => ["s3-website-" + region]
    case BareDash => ["s3-", region]
    case BareWebsiteDash => ["s3-website-", region]
  }

  function Partition(china: bool): seq<string> {
    if china then ["amazonaws", "com", "cn"] else ["amazonaws", "com"]
  }

  function Print(bucket: string, form: Form, region: string, china: bool): string {
    bucket + "." + Join(Service(form, region) + Partition(china), DOT)
  }

  predicate Carries(form: Form, region: string) {
    if form.Plain? then region == "" else ValidRegion(region)
  }

  /** The regions a form can carry back: one that reads as a service label hides the real one. */
  predicate Fits(form: Form, region: string) {
    && Carries(form, region)
    && (form.Dashed? ==> !HasPrefix(region, "website-"))
    && (form in {Regional, DualStack, Website, BareDash, BareWebsiteDash} ==> !HasPrefix(region, "s3-"))
  }

  // ---------------------------------------------------------------- proofs

  lemma {:induction false} SplitCovers(s: string, sep: char, c: char)
    requires c in s && c != sep
    ensures exists part :: part in Split(s, sep) && c in part
  {
    var rest := Split(s[1..], sep);
    if s[0] == c {
      assert c in Split(s, sep)[0];
    } else {
      assert s == [s[0]] + s[1..];
      SplitCovers(s[1..], sep, c);
      var part :| part in rest && c in part;
      if s[0] == sep {
        assert part in [""] + rest;
      } else if part == rest[0] {
        assert c in Split(s, sep)[0];
      } else {
        assert part in rest[1..];
      }
    }
  }

  lemma RegionChars(region: string)
    requires ValidRegion(region)
    ensures forall c | c in region :: LowerAlnum(c) || c == DASH
    ensures region != ""
  {
    forall c | c in region && c != DASH ensures LowerAlnum(c) {
      SplitCovers(region, DASH, c);
    }
  }

  lemma CarriesChars(form: Form, region: string)
    requires Carries(form, region)
    ensures forall part | part in Service(form, region) :: forall c | c in part :: LowerAlnum(c) || c == DASH
    ensures forall part | part in Service(form, region) :: part != ""
  {
    if form.Plain? {
      assert Service(form, region) == ["s3"];
    } else {
      RegionChars(region);
    }
  }

  lemma BucketIsClean(bucket: string)
    requires ValidBucket(bucket)
    ensures Clean(bucket)
  {
  }

  lemma CleanConcat(a: string, b: string)
    requires Clean(a) && Clean(b)
    ensures Clean(a + [DOT] + b)
  {
  }

  lemma {:induction false} JoinIsClean(parts: seq<string>)
    requires parts != [] && forall i | 0 <= i < |parts| :: Clean(parts[i])
    ensures Clean(Join(parts, DOT))
  {
    if |parts| > 1 {
      JoinIsClean(parts[1..]);
      CleanConcat(parts[0], Join(parts[1..], DOT));
    }
  }

  lemma LabelsAreClean(form: Form, region: string, china: bool)
    requires Carries(form, region)
    ensures var tail := Service(form, region) + Partition(china); forall i | 0 <= i < |tail| :: Clean(tail[i])
  {
    CarriesChars(form, region);
    var service := Service(form, region);
    forall i | 0 <= i < |service| ensures Clean(service[i]) {
      assert service[i] in service && service[i][|service[i]| - 1] in service[i];
    }
    assert forall i | 0 <= i < |Partition(china)| :: Clean(Partition(china)[i]);
  }

  lemma PrintIsNormal(bucket: string, form: Form, region: string, china: bool)
    requires ValidBucket(bucket) && Carries(form, region)
    ensures NormalizeHost(Print(bucket, form, region, china)) == Print(bucket, form, region, china)
  {
    var tail := Service(form, region) + Partition(china);
    BucketIsClean(bucket);
    LabelsAreClean(form, region, china);
    JoinIsClean(tail);
    CleanConcat(bucket, Join(tail, DOT));
    CleanIsNormal(bucket + [DOT] + Join(tail, DOT));
  }

  lemma PrintLabels(bucket: string, form: Form, region: string, china: bool)
    requires Carries(form, region)
    ensures Split(Print(bucket, form, region, china), DOT) == Split(bucket, DOT) + Service(form, region) + Partition(china)
  {
    var tail := Service(form, region) + Partition(china);
    CarriesChars(form, region);
    forall part | part in tail ensures Free(part, DOT) {
      if part in Service(form, region) {
        assert !LowerAlnum(DOT) && DOT != DASH;
      }
    }
    SplitJoin(tail, DOT);
    SplitConcat(bucket, Join(tail, DOT), DOT);
  }

  lemma RegionReads(form: Form, region: string)
    requires Fits(form, region)
    ensures RegionFromService(Service(form, region)) == Some(region)
  {
    if !form.Plain? {
      RegionChars(region);
      NotWebsite(region);
    }
    var service := Service(form, region);
    match form
    case Dashed =>
      assert service[0][|"s3-"|..] == region;
      WebsitePrefix(region);
    case WebsiteDashed => assert service[0][|"s3-website-"|..] == region;
    case BareDash => assert service[0][|"s3-"|..] == "";
    case BareWebsiteDash => assert service[0][|"s3-website-"|..] == "";
    case _ =>
  }

  lemma WebsitePrefix(region: string)
    ensures HasPrefix("s3-" + region, "s3-website-") <==> HasPrefix(region, "website-")
  {
    var service := "s3-" + region;
    if |region| >= 8 {
      assert service[3..11] == region[..8];
      assert service[..11] == "s3-" + service[3..11];
      assert "s3-website-" == "s3-" + "website-";
    }
  }

  lemma NotWebsite(region: string)
    requires ValidRegion(region)
    ensures region != "website" && region != ""
  {
    SplitFree("website", DASH);
  }

  lemma AwsFound(front: seq<string>, china: bool)
    requires |front| >= 2
    ensures AwsIndex(front + Partition(china)) == |front|
  {
    var labels := front + Partition(china);
    assert labels[|front|..] == Partition(china);
    assert labels[|labels| - 1] == if china then "cn" else "com";
    assert "cn"[1] != "com"[1];
  }

  lemma ServiceFound(bucket: seq<string>, service: seq<string>, rest: seq<string>)
    requires bucket != [] && service != [] && ServiceLabel(service[0])
    requires forall i | 1 <= i < |service| :: !ServiceLabel(service[i])
    ensures ServiceIndex(bucket + service + rest, |bucket| + |service|) == |bucket|
  {
    var labels := bucket + service + rest;
    var k := ServiceIndex(labels, |bucket| + |service|);
    assert labels[|bucket|] == service[0];
    assert forall i | |bucket| < i < |bucket| + |service| :: labels[i] == service[i - |bucket|];
  }

  lemma PrintParse(bucket: string, form: Form, region: string, china: bool)
    requires ValidBucket(bucket) && Carries(form, region)
    ensures Parse(Print(bucket, form, region, china)) == ParseLabels(Split(bucket, DOT) + Service(form, region) + Partition(china))
  {
    PrintIsNormal(bucket, form, region, china);
    PrintLabels(bucket, form, region, china);
  }

  /** The labels before the service labels are the bucket; the service labels decide the region. */
  lemma ParseAt(bucket: seq<string>, service: seq<string>, china: bool)
    requires bucket != [] && service != [] && ServiceLabel(service[0])
    requires forall i | 1 <= i < |service| :: !ServiceLabel(service[i])
    ensures ParseLabels(bucket + service + Partition(china)) ==
            match RegionFromService(service)
            case None => None
            case Some(region) =>
              if ValidBucket(Join(bucket, DOT)) then Some(Endpoint(Join(bucket, DOT), region)) else None
  {
    var labels := bucket + service + Partition(china);
    AwsFound(bucket + service, china);
    ServiceFound(bucket, service, Partition(china));
    assert labels[|bucket|..|bucket| + |service|] == service;
    assert labels[..|bucket|] == bucket;
  }

  /** Parsing undoes printing, for every bucket, form and region that fits the form. */
  lemma PrintedParses(bucket: string, form: Form, region: string, china: bool)
    requires ValidBucket(bucket) && Fits(form, region)
    ensures Parse(Print(bucket, form, region, china)) == Some(Endpoint(bucket, region))
  {
    PrintParse(bucket, form, region, china);
    NoLaterService(form, region);
    ParseAt(Split(bucket, DOT), Service(form, region), china);
    RegionReads(form, region);
    JoinSplit(bucket, DOT);
  }

  lemma NoLaterService(form: Form, region: string)
    requires Fits(form, region)
    ensures ServiceLabel(Service(form, region)[0])
    ensures forall i | 1 <= i < |Service(form, region)| :: !ServiceLabel(Service(form, region)[i])
  {
    SplitFree("s3", DASH);
    assert !ServiceLabel("dualstack") by {
      assert "dualstack"[0] != "s3-"[0];
    }
    if form in {Regional, DualStack, Website, BareDash, BareWebsiteDash} {
      assert !ServiceLabel(region);
    }
  }

  lemma Pair(labels: seq<string>)
    requires |labels| <= 2
    ensures labels == [] || labels == [labels[0]] || labels == [labels[0], labels[1]]
  {
    if |labels| == 0 {
    } else if |labels| == 1 {
      assert labels == [labels[0]];
    } else {
      assert labels == [labels[0], labels[1]];
    }
  }

  lemma FormOf(labels: seq<string>) returns (form: Form)
    requires RegionFromService(labels).Some?
    requires forall i | 1 <= i < |labels| :: !ServiceLabel(labels[i])
    ensures labels == Service(form, RegionFromService(labels).value)
    ensures Fits(form, RegionFromService(labels).value)
  {
    var region := RegionFromService(labels).value;
    var service := labels[0];
    if |labels| <= 2 {
      Pair(labels);
    }
    if service == "s3" {
      if |labels| == 3 {
        assert labels == ["s3", "dualstack", labels[2]];
      }
      form := if |labels| == 1 then Plain else if |labels| == 2 then Regional else DualStack;
    } else if service == "s3-website" {
      form := Website;
    } else if HasPrefix(service, "s3-website-") {
      assert service == "s3-website-" + service[11..] && "s3-website-" + "" == "s3-website-";
      form := if service[11..] == "" then BareWebsiteDash else WebsiteDashed;
    } else {
      assert service == "s3-" + service[3..] && "s3-" + "" == "s3-";
      WebsitePrefix(service[3..]);
      form := if service[3..] == "" then BareDash else Dashed;
    }
  }

  lemma AwsTail(labels: seq<string>)
    requires AwsIndex(labels) > 0
    ensures labels[AwsIndex(labels)..] == Partition(|labels| - AwsIndex(labels) == 3)
  {
  }

  lemma PrintedForm(host: string, e: Endpoint) returns (form: Form, china: bool)
    requires ParseLabels(Split(host, DOT)) == Some(e)
    ensures ValidBucket(e.bucket) && Fits(form, e.region) && host == Print(e.bucket, form, e.region, china)
  {
    var labels := Split(host, DOT);
    var aws := AwsIndex(labels);
    var k := ServiceIndex(labels, aws);
    form := FormOf(labels[k..aws]);
    AwsTail(labels);
    china := |labels| - aws == 3;
    ThreeParts(labels, k, aws);
    JoinConcat(labels[..k], labels[k..aws] + labels[aws..], DOT);
    JoinSplit(host, DOT);
  }

  lemma ThreeParts(labels: seq<string>, i: nat, j: nat)
    requires i <= j <= |labels|
    ensures labels == labels[..i] + (labels[i..j] + labels[j..])
  {
  }

  /** The parser answers exactly on the printed forms of a valid bucket and a fitting region. */
  lemma ParsesExactlyPrinted(resource: string, e: Endpoint)
    ensures Parse(resource) == Some(e) <==>
            ValidBucket(e.bucket) &&
            exists form, china :: Fits(form, e.region) && NormalizeHost(resource) == Print(e.bucket, form, e.region, china)
  {
    var host := NormalizeHost(resource);
    if Parse(resource) == Some(e) {
      var form, china := PrintedForm(host, e);
      assert host == Print(e.bucket, form, e.region, china);
    }
    if ValidBucket(e.bucket) && exists form, china :: Fits(form, e.region) && host == Print(e.bucket, form, e.region, china) {
      var form, china :| Fits(form, e.region) && host == Print(e.bucket, form, e.region, china);
      PrintedParses(e.bucket, form, e.region, china);
      PrintIsNormal(e.bucket, form, e.region, china);
    }
  }

  lemma Shifted(front: seq<string>, early: seq<string>, last: string, tail: seq<string>)
    ensures front + (early + [last]) + tail == (front + early) + [last] + tail
  {
  }

  /** The last label before "amazonaws" reads as a service label, so the bucket comes out longer. */
  lemma HiddenRegion(bucket: string, form: Form, region: string, china: bool)
    requires ValidBucket(bucket) && ValidRegion(region) && HasPrefix(region, "s3-")
    requires form in {Regional, DualStack, Website, BareDash, BareWebsiteDash}
    ensures Parse(Print(bucket, form, region, china)).Some? ==>
              |Parse(Print(bucket, form, region, china)).value.bucket| > |bucket|
  {
    var front, service := Split(bucket, DOT), Service(form, region);
    var early := service[..|service| - 1];
    PrintParse(bucket, form, region, china);
    assert service == early + [region];
    Shifted(front, early, region, Partition(china));
    ParseAt(front + early, [region], china);
    JoinConcat(front, early, DOT);
    JoinSplit(bucket, DOT);
  }

  lemma WebsiteHidden(bucket: string, region: string, china: bool)
    requires ValidBucket(bucket) && ValidRegion(region) && HasPrefix(region, "website-")
    ensures Parse(Print(bucket, Dashed, region, china)) != Some(Endpoint(bucket, region))
  {
    PrintParse(bucket, Dashed, region, china);
    ParseAt(Split(bucket, DOT), Service(Dashed, region), china);
    DashedReads(region);
  }

  lemma DashedReads(region: string)
    requires ValidRegion(region) && HasPrefix(region, "website-")
    ensures RegionFromService(Service(Dashed, region)) != Some(region)
  {
    WebsitePrefix(region);
    NotWebsite(region);
  }

  /** For a valid region, the condition `Fits` puts on it is exact: without it the answer is another one. */
  lemma FitsIsNeeded(bucket: string, form: Form, region: string, china: bool)
    requires ValidBucket(bucket) && ValidRegion(region) && !form.Plain?
    ensures Parse(Print(bucket, form, region, china)) == Some(Endpoint(bucket, region)) <==> Fits(form, region)
  {
    if Fits(form, region) {
      PrintedParses(bucket, form, region, china);
    } else if form.Dashed? {
      WebsiteHidden(bucket, region, china);
    } else {
      HiddenRegion(bucket, form, region, china);
    }
  }

  lemma RegionSplits()
    ensures Split("s3-a-1", DASH) == ["s3", "a", "1"]
  {
    var parts := ["s3", "a", "1"];
    assert parts[1..] == ["a", "1"] && ["a", "1"][1..] == ["1"];
    assert Join(["a", "1"], DASH) == "a-1" && Join(parts, DASH) == "s3-a-1";
    SplitJoin(parts, DASH);
  }

  lemma RegionIsValid()
    ensures ValidRegion("s3-a-1")
  {
    RegionSplits();
  }

  lemma HiddenIsLost(bucket: string, region: string, china: bool)
    requires ValidBucket(bucket) && ValidRegion(region) && HasPrefix(region, "s3-")
    ensures Parse(Print(bucket, Regional, region, china)) != Some(Endpoint(bucket, region))
  {
    FitsIsNeeded(bucket, Regional, region, china);
  }

  /** Such regions are valid: this one is read as the label of the service. */
  lemma RegionNotReturned(bucket: string, china: bool)
    requires ValidBucket(bucket)
    ensures Parse(Print(bucket, Regional, "s3-a-1", china)) != Some(Endpoint(bucket, "s3-a-1"))
  {
    RegionIsValid();
    HiddenIsLost(bucket, "s3-a-1", china);
  }
}
