# Verified model of SubdomainAbber's stateful cores

SubdomainAbber looks for subdomains whose target is gone, proves control of them by claiming and releasing a
cloud resource, and classifies what it saw. This project models the parts of it whose correctness spans many
steps, and proves what they promise.

| part | files |
|---|---|
| claim, release and recovery, with crashes | `ClaimProtocol`, `ClaimSafety`, `ClaimContract`, `ClaimStuck`, `ClaimCalls`, `ClaimEngine`, `ProviderContract` |
| the S3 and Route 53 claim adapters | `S3Endpoint`, `S3Provider`, `Route53Provider` |
| name discovery in rounds, with checkpoints | `RoundRobin`, `Catalog`, `Generation`, `Discovery` |
| SPF evaluation | `DepthFirst`, `SpfTerms`, `SpfWalk` |
| raw HTTP: chunked bodies, header blocks, the response reader | `Hex`, `ChunkedBody`, `RawMessage`, `RawTransport` |
| resolver consensus, parent zone views, delegation takeover gate | `Consensus`, `ParentView`, `ZoneCut`, `NsGate` |
| inference, classification, replay | `Similarity`, `SignTable`, `Kinds`, `Inference`, `Grounds`, `Classification`, `Processing` |
| scan input, loaded or streamed | `ScanInput` |
| shared vocabulary | `Options`, `Sequences`, `Names`, `Labels` |

`dafny verify dfyconfig.toml` checks everything.

## How the claim protocol is modelled

`ClaimProtocol` is a step machine. The audit table and the outside world survive a crash; one process adds
its memory, the operation mutex and a program counter for every goroutine. An action resolves every choice:
which store write fails (and whether a failed write happened anyway), what a provider reports, when the process
dies. `ClaimSafety` proves one inductive invariant over all runs and reads the guarantees off it. `ClaimEngine`
is the engine as an object whose methods each extend a run of that machine, so the guarantees hold of the object,
also at every point inside a method where the process may die. The store and the providers keep ghost histories of
the calls made to them and how each ended (`ClaimCalls`); what a method answers is stated in terms of those, so it
is known when a claim or a reconciliation must succeed as well as what its success means.

## What the code does not keep

Where a promise fails, the code is modelled as it is; a lemma names an input or a run on which it fails, and the
exact condition is proved where the promise concerns one operation or one reachable state.

- A claim that reports success with an unusable receipt empties the receipt column (the engine passes the
  provisional receipt, which has no external id, and the store overwrites the column), and the recovery query
  skips empty receipts. Reconciliation then returns nil and lifts the halt while the resource is live
  (`ClaimContract.RejectedReceiptIsForgotten`). The write-ahead property holds of all runs if and only if
  providers keep six clauses, this one among them (`ClaimContract.ContractIsExact`).
- Route 53 answers an error when an absent zone is deleted. If the process dies after the zone is gone and
  before the row is closed, no later reconciliation succeeds (`ClaimStuck.CrashOrphansARow`). With such a
  provider, and identifiers that are not reused, a reconciliation can succeed from a quiet engine if and only
  if every open row past ATTEMPTING still has its resource (`ClaimStuck.ReconciliationCanSucceed`).
- If the process dies between creating an S3 bucket and storing its proof, recovery answers "unknown" for good
  (`S3Provider.InterruptedClaimStaysUnknown`); the source asks for manual cleaning in that case. Which answer
  recovery gives is exact in `S3Provider.Provider.RecoverClaim`.
- The S3 endpoint parser does not return the region when a region reads as a service label
  (`S3Endpoint.FitsIsNeeded`, for instance `s3-a-1` in `S3Endpoint.RegionNotReturned`), and accepts a bare `s3-` label.
- A checkpoint written before the first round restores a frontier that reads differently when a zone transfer
  listed one of its wildcard names (`Catalog.TransferLiftsMarks`, `Catalog.ResumeReadsTheSame`; such a state is in
  `Discovery.MarkIsLifted` and `Discovery.StaleCheckpoint`); later checkpoints restore exactly what the next
  round reads.
- The chunked reader adds the announced size in signed 64-bit arithmetic; a sum past the range passes the limit
  check and the allocation fails (`ChunkedBody.PanicsExactly` and `PanicsByOverflow` say on which inputs, `ReaderPanics`
  gives one for every limit).
- The absence of a DS record counts as checked after an incomplete pass over the parent's servers when the
  recursive resolver answers that there is none (`ParentView.ParentDs`, `ParentView.AbsentUnasked`).
- A reported SPF cycle always names the repeated domain twice in a row (`SpfWalk.Walk.Descend`).
- The request writer accepts header names that consist of blanks, which the header reader refuses
  (`RawMessage.HeadersReadBack`, `RawMessage.BlankNameIsRefused`).
- More evidence can lower the reported risk (`Classification.RiskFallsExactly`, `Classification.RiskFalls`).
- The last branch of the decision, which turns a suppressed observation into a suppression, never changes
  anything (`Classification.SuppressionBranchIsDead`).

## Model

| member | source | states |
|---|---|---|
| ClaimProtocol.SnapshotsExact | internal/storage/store.go:590-613 | the recovery query lists exactly the open rows with a receipt, each once, oldest first |
| ClaimProtocol.StepKeeps | internal/claim/engine.go:65-272 | every step of every goroutine, failing writes and crashes included, keeps the protocol invariant, and all but a crash keep at most one resource live |
| ClaimProtocol.PersistKeeps | internal/claim/engine.go:412-428 | a store write, lost or unacknowledged as it may be, keeps the invariant |
| ClaimProtocol.RecoverKeeps | internal/claim/engine.go:331-396 | an answer of the recovery interface within its contract keeps the invariant |
| ClaimProtocol.NothingPending | internal/claim/engine.go:386-395 | when no row is open, nothing is live |
| ClaimSafety.WriteAheadAlways | internal/claim/engine.go:126-272 | in every reachable state each live resource is led to by an open row, by token or by id, and no closed row has a live resource |
| ClaimSafety.RecoveryIsComplete | internal/claim/engine.go:331-396 | a reconciliation that returns leaves the engine halted, or every row closed and nothing live; it lifts the halt exactly when it ends without a failure |
| ClaimSafety.FailureHasACause | internal/claim/engine.go:341-385 | a sweep counts as failed only after a skipped row, an unacknowledged write or a failed release |
| ClaimSafety.AtMostOneLive | internal/claim/engine.go:74-85 | over any interleaving from a clean moment at most one resource is live, and one left live means a halted engine or a claim in progress |
| ClaimSafety.ExecuteLeavesNothingUnhalted | internal/claim/engine.go:139-272 | an `Execute` that returns with its resource live has halted the engine |
| ClaimSafety.ClaimsStartOnce | internal/claim/engine.go:107-116 | no claim starts and nothing is created while halted, and no key is claimed twice by one engine |
| ClaimSafety.HaltLifts | internal/claim/engine.go:307-329 | the halt is lifted only by a reconciliation that left nothing live, or by the death of the process |
| ClaimSafety.ReleasesAreGenuine | internal/claim/engine.go:359-385 | a release is aimed only at a resource that the attempt of the row in hand created |
| ClaimContract.ContractIsExact | internal/claim/types.go:59-90 | the write-ahead property holds of every run if and only if providers keep all six clauses of their contract |
| ClaimContract.RejectedReceiptIsForgotten | internal/claim/engine.go:183-197 | a run in which an unusable receipt makes reconciliation succeed with the resource live |
| ClaimStuck.StuckForever | internal/claim/engine.go:378-390 | with releases that fail on absent resources and identifiers that are not reused, a row whose resource is gone stays open through every continuation |
| ClaimStuck.ReconciliationNeverSucceeds | internal/claim/aws_route53.go:198-206 | once an open row past ATTEMPTING has lost its resource, every sweep that ends leaves the engine halted |
| ClaimStuck.ReconciliationCanSucceed | internal/claim/engine.go:331-396 | from a quiet engine some continuation ends with a successful reconciliation if and only if every open row past ATTEMPTING still has its resource |
| ClaimStuck.CloseRows | internal/claim/engine.go:341-385 | a sweep over rows that have their resources, or are interrupted attempts, can close them all |
| ClaimStuck.CrashOrphansARow | internal/claim/engine.go:232-262 | a crash between removal and the closing write reaches a quiet moment from which no reconciliation succeeds |
| ClaimEngine.AuditStore.Create | internal/storage/store.go:566-577 | a row is appended or the write is reported as failed; a failed write may have happened |
| ClaimEngine.AuditStore.Update | internal/storage/store.go:579-588 | status and receipt are overwritten, the receipt also by an empty one |
| ClaimEngine.AuditStore.PendingRows | internal/storage/store.go:590-613 | the open rows in order |
| ClaimEngine.Cloud.Claim | internal/claim/types.go:59-82 | the claim clauses of the provider contract |
| ClaimEngine.Cloud.Recover | internal/claim/types.go:84-90 | found only for the attempt's own resource, not found only when there is none |
| ClaimEngine.Cloud.Release | internal/claim/types.go:76-82 | success means that the resource is gone, and no other is touched |
| ClaimEngine.Engine.constructor | internal/claim/engine.go:37-63 | a new process on the table and world any earlier run left |
| ClaimEngine.Engine.Execute | internal/claim/engine.go:65-272 | performs a run of the machine; refused while halted; a known key changes nothing. For a new key the error is nil if and only if the claim was accepted, the opening, receipt and closing writes were acknowledged, control was answered positively for that very resource and the release succeeded; the calls made are the ones the answers demand; the engine halts exactly on an unnamed creation or a failed release. Success means the new row is RELEASE_SUCCEEDED and its resource gone; from an orderly state nothing is left live unless halted |
| ClaimEngine.Engine.EnterKey | internal/claim/engine.go:107-125 | halted engines and known keys end before the store or the provider is touched; without a provider the answer is that of the one row written; otherwise the answer is that of the claim |
| ClaimEngine.Engine.Attempt | internal/claim/engine.go:126-213 | the claim proper: a nil error if and only if every decisive call went well, and then the resource is released and gone; an attempt that is not on file is not made |
| ClaimEngine.Engine.Demonstrate | internal/claim/engine.go:200-272 | the receipt is filed before control is verified, and without it the resource is released at once; the error is nil exactly when receipt and closing write are acknowledged, control is proven and the release succeeds |
| ClaimEngine.Engine.Prove | internal/claim/engine.go:200-272 | whatever the answer on control, the resource is given back; the answer decides over the error |
| ClaimEngine.Engine.Conclude | internal/claim/engine.go:240-272 | the final write; a failed release halts the engine |
| ClaimEngine.Engine.Reconcile | internal/claim/engine.go:331-396 | a nil error exactly when the query, every recovery, every write and every release ended well and no listed row has an unknown provider or an unusable receipt; the halt is lifted exactly then, every row is closed and nothing is live. Row by row the calls are the ones status and answers demand, and each row past ATTEMPTING is released exactly once, by its receipt, if its pending mark was acknowledged and not at all otherwise |
| ClaimEngine.Engine.Close | internal/claim/engine.go:341-385 | one pending row: it makes the calls the row demands and counts as failed exactly when one of them fails or the row is unusable |
| ClaimEngine.Engine.CloseAttempt | internal/claim/engine.go:347-369 | an interrupted attempt follows the recovery answer, and counts as failed exactly when that answer is unknown or a later call fails |
| ClaimEngine.Engine.CloseNamed | internal/claim/engine.go:370-385 | pending mark, release, outcome, in that order; nothing is released without the mark |
| ClaimCalls.ReleasedOnceMarked | internal/claim/engine.go:341-385 | of the calls for one row: a release happens exactly when the pending mark is acknowledged, once, and of the resource the receipt names or the recovery found |
| ClaimCalls.SweptReleases | internal/claim/engine.go:341-385 | the same for every listed row over the history of a whole reconciliation |
| ClaimEngine.EveryMoment | internal/claim/engine.go:126-272 | the write-ahead property held at every earlier moment of a run, so at any point where the process may have died |
| ClaimEngine.OrderlyExtends | internal/claim/engine.go:74-85 | between crashes a run stays orderly |
| S3Provider.Provider.Claim | internal/claim/aws_s3.go:85-143 | meets the claim contract, and the replies of the account decide the report; an existing bucket, an unusable endpoint, token or region is refused; a plain error leaves nothing; existing buckets keep; an accepted claim passes the moment with a bucket and no proof |
| S3Provider.Provider.Provision | internal/claim/aws_s3.go:97-143 | absence is shown first, then the bucket is created, then the proof stored: accepted exactly when all three replies allow it, a failed clean-up reported with the bucket, refused otherwise |
| S3Provider.Provider.RecoverClaim | internal/claim/aws_s3.go:166-202 | unknown exactly when a call fails or for a bucket without the attempt's private proof; otherwise found exactly with the proof and not found exactly without the bucket |
| S3Provider.InterruptedClaimStaysUnknown | internal/claim/aws_s3.go:111-122 | a bucket whose creator died before storing the proof stays live and is answered with unknown through every later history of claims and of releases of other buckets |
| S3Provider.Provider.Release | internal/claim/aws_s3.go:204-216 | succeeds exactly for a complete receipt when neither deletion fails; then there is no such bucket; absence counts as success; other buckets keep |
| S3Endpoint.PrintedParses | internal/claim/aws_s3.go:264-328 | parsing undoes printing for every valid bucket, host form and fitting region |
| S3Endpoint.ParsesExactlyPrinted | internal/claim/aws_s3.go:264-365 | the parser answers with a bucket and region exactly on their printed host forms |
| S3Endpoint.FitsIsNeeded | internal/claim/aws_s3.go:271-299 | for a valid region the condition on it is exact |
| S3Endpoint.HiddenRegion | internal/claim/aws_s3.go:271-299 | a region that starts with `s3-` is taken for the service label, and the bucket comes out longer |
| S3Endpoint.RegionNotReturned | internal/claim/aws_s3.go:271-299 | a valid region for which the printed endpoint does not parse back |
| S3Endpoint.ServiceIndex | internal/claim/aws_s3.go:277-286 | the rightmost service label between the bucket and the domain |
| Route53Provider.SameNameserverSetIsMultisetEquality | internal/claim/aws_route53.go:208-232 | two server lists agree exactly when they hold the same cleaned names, each as often, and at least one, whatever commas the items contain |
| Route53Provider.Provider.Claim | internal/claim/aws_route53.go:63-114 | meets the claim contract, and the replies of the account decide the report: a created zone is kept exactly when the servers assigned to it are the delegated ones, and given up again otherwise |
| Route53Provider.Provider.RecoverClaim | internal/claim/aws_route53.go:141-196 | the paged search finds the attempt's zone or shows that there is none, and answers unknown exactly for an incomplete request or after a failed call |
| Route53Provider.Provider.TakePage | internal/claim/aws_route53.go:154-194 | one page of the search settles it or leads to a further page with nothing of the attempt passed |
| Route53Provider.Provider.ScanPage | internal/claim/aws_route53.go:160-186 | a page settles the search or holds no zone of the attempt |
| Route53Provider.Provider.Release | internal/claim/aws_route53.go:198-206 | succeeds exactly when the deletion does; then the zone was there and is gone; other zones stay |
| Labels.SplitJoin | internal/claim/aws_route53.go:208-218 | splitting undoes joining for parts without the separator |
| Labels.JoinSplit | internal/claim/aws_s3.go:264-299 | joining undoes splitting |
| Names.SortDecidesMultisets | internal/claim/aws_route53.go:220-232 | comparing sorted lists decides equality of multisets |
| Names.UniqueSortedDecidesSets | internal/dns/authoritative.go:529-578 | comparing unique sorted lists decides equality of sets of non-empty names |
| RoundRobin.Select | internal/discovery/recon.go:455-477 | ends, selects as many names as limit and sources allow, credits each to one source, and is fair |
| RoundRobin.Round | internal/discovery/recon.go:457-476 | one turn of every source keeps the turn counts; no progress means that all sources are used up |
| RoundRobin.Distribute | internal/discovery/recon.go:479-491 | each source keeps its selected names in order and is marked truncated exactly when one was dropped |
| Catalog.UnseenIsNew | internal/discovery/recon.go:335-352 | what is taken up is in scope, new, without repetition and within the limit, and below the limit nothing in scope is left out |
| Catalog.UnseenTwice | internal/discovery/recon.go:297-300 | screening generated names a second time drops none |
| Catalog.MergeGrows | internal/discovery/recon.go:695-723 | names only enter, resolved stays resolved, and the limit holds, whatever arrives |
| Catalog.MergeNew | internal/discovery/recon.go:695-723 | new names that fit enter unchanged and make up the next frontier |
| Catalog.MergeCut | internal/discovery/recon.go:712-716 | new names beyond the limit fill the catalog exactly to the limit |
| Catalog.OriginsGrow | internal/discovery/recon.go:362-375 | filing origins keeps names, answers and resolution, and only a zone transfer lifts a wildcard mark |
| Catalog.CatalogReturns | internal/discovery/recon.go:249-251 | a reported catalog is rebuilt from the checkpoint exactly when it fits the limit |
| Catalog.FrontierReturns | internal/discovery/recon.go:325-333 | the restored frontier holds the same names as often, each as the catalog has it |
| Catalog.ResumeReadsTheSame | internal/discovery/recon.go:325-333 | the restored frontier reads the same exactly when no wildcard mark was lifted after its name entered |
| Catalog.TransferLiftsMarks | internal/discovery/recon.go:362-375 | marks are lifted exactly when a zone transfer lists a wildcard name of the frontier |
| Generation.BusyZone | internal/discovery/recon.go:987-1013 | a zone is expanded exactly when it is above a frontier name that is no wildcard and has enough names under it |
| Generation.RecursiveZones | internal/discovery/recon.go:987-1013 | the list of those zones, sorted, each once |
| Generation.ZonesIgnoreOrder | internal/discovery/recon.go:995-1011 | the zones do not depend on the order of the frontier |
| Generation.CountChildren | internal/discovery/recon.go:988-993 | the counts of names under each zone, in whatever order the catalog is visited |
| Generation.Gathering.Add | internal/discovery/recon.go:930-952 | one proposal is taken up or dropped as the screening of all proposals so far demands |
| Generation.UnseenMore | internal/discovery/recon.go:930-952 | screening one more proposal at the end of a list |
| Generation.GenerateSeeds | internal/discovery/recon.go:924-985 | the generated seeds are the proposals, words under the root, words under busy zones and variations of frontier names in that order, screened up to the limit; the early returns change nothing |
| Discovery.Recon.UnseenSeeds | internal/discovery/recon.go:335-352 | the loop takes up exactly the specified seeds and marks exactly their names |
| Discovery.Recon.MarkSeeds | internal/discovery/recon.go:354-360 | exactly the names in scope become attempted |
| Discovery.Recon.MergeSeedOrigins | internal/discovery/recon.go:362-375 | the catalog gains exactly the specified origins |
| Discovery.Recon.MergeCandidates | internal/discovery/recon.go:695-723 | the loop computes the specified catalog and frontier |
| Discovery.Recon.ResolveSeeds | internal/discovery/recon.go:550-631 | every name in scope is resolved once, and the candidates are what the replies yield, in any order |
| Discovery.Recon.Absorb | internal/discovery/recon.go:302-304 | each resolved name is in the catalog with what its reply yields and not otherwise; no kept name is lost for lack of space, and the run invariant holds |
| Discovery.Recon.AddSeeds | internal/discovery/recon.go:773-778 | learned names, and only they, are taken up within both budgets; below them, or with a resolver and room left, none in scope is missed; what enters is on the frontier |
| Discovery.Recon.AddCnameSeeds | internal/discovery/recon.go:824-843 | unless a budget runs out every in-scope alias target of the frontier becomes attempted, and nothing else |
| Discovery.Recon.AddPtrSeeds | internal/discovery/recon.go:845-857 | unless a budget runs out every name a reverse lookup of the frontier gives becomes attempted; no mark is lifted |
| Discovery.KeptFill | internal/discovery/recon.go:773-778 | with a resolver each kept name that is taken up enters the catalog, so a batch cut by the limit leaves no room |
| Discovery.PassiveSeeds | internal/discovery/recon.go:402-492 | the observed names in scope, cut to exactly the limit when there are more; each selected name is credited to one source, the shares are fair, and a source is marked truncated exactly when one of its names was left out |
| Discovery.FirstSeeds | internal/discovery/recon.go:264-272 | the root and as many observed names as fit both budgets, with the accounts of the sources |
| Discovery.Recon.Start | internal/discovery/recon.go:264-283 | exactly the names picked are attempted first; then, unless a budget runs out, all that the root's records, a zone transfer and reverse lookups name, and nothing else; every name that enters is on the first frontier |
| Discovery.Recon.ProposedSeeds | internal/discovery/recon.go:297-300 | the generated names all become attempted; they are a choice among the proposals, and below the limit no proposal in scope is left out |
| Discovery.Recon.RoundSeeds | internal/discovery/recon.go:286-301 | the seeds of a round are new and within the budget: first what the pages mention, then generated proposals for what is left |
| Discovery.ChosenTried | internal/discovery/recon.go:286-301 | below the budget a round leaves out neither a name its pages mention nor a proposal in scope |
| Discovery.Recon.Round | internal/discovery/recon.go:286-312 | a round keeps the run invariant and resolves only names never attempted before; it chooses its seeds as specified, puts every name that enters on the next frontier, follows the aliases of what it found and looks back from its addresses unless a budget runs out, attempts nothing else, and leaves current marks |
| Discovery.Recon.ReportProgress | internal/discovery/recon.go:377-400 | the checkpoint lists catalog, attempted names and frontier, sorted, and the accounts of the sources |
| Discovery.Recon.Load | internal/discovery/recon.go:249-262 | from any checkpoint, under whatever limits it was written, loading yields the specified state: sound, with everything listed attempted and the marks of the frontier current |
| Discovery.CheckpointRoundTrip | internal/discovery/recon.go:249-262 | loading a checkpoint under any limits rebuilds the attempted names (a blank one only with its candidate), and the catalog exactly when it fits; then also the frontier names, and from the first round on all a round reads of the frontier |
| Discovery.MarkIsLifted | internal/discovery/recon.go:264-283 | a first frontier with a wildcard mark that a zone transfer has lifted, under any limits that admit two names |
| Discovery.StaleCheckpoint | internal/discovery/recon.go:325-333 | the checkpoint of such a state restores a frontier that reads differently |
| Discovery.Recon.Rounds | internal/discovery/recon.go:286-312 | the rounds end only because the limit, the frontier or a budget is exhausted or a checkpoint could not be stored; each does all a round has to, each writes one genuine checkpoint, and the catalog only grows |
| Discovery.Recon.Discover | internal/discovery/recon.go:232-323 | over a whole run, fresh or resumed from any checkpoint under any limits: catalog within attempted, both budgets kept by what the run adds, no name resolved twice, none of a resumed checkpoint resolved again; every name that resolves, except to a wildcard, is in the catalog with the records the resolver gave; the run starts as specified and does not stop early; every checkpoint separates what was resolved before from what came after, the catalog only grows from the resumed one over every checkpoint to the last, and the accounts of the sources are carried along |
| DepthFirst.MetIsPrefix | internal/evidence/email_security.go:192-286 | a walk with a budget meets exactly the first items of the depth-first expansion |
| SpfWalk.Walk.Descend | internal/evidence/email_security.go:195-206 | one level: the path is restored on return; a name on the path adds exactly one cycle report that ends with it twice; otherwise the terms met are counted and queried |
| SpfWalk.Walk.Terms | internal/evidence/email_security.go:208-228 | the shared counter and the limit report after the terms of a record |
| SpfWalk.Walk.Visit | internal/evidence/email_security.go:229-284 | one counted term and all that it opens; a term that leads back to a name on the path adds exactly one cycle report, one that opens nothing adds none |
| SpfWalk.Walk.Ask | internal/evidence/email_security.go:237-284 | one query and what is reported of a missing or bare name |
| SpfWalk.ValidateSPF | internal/evidence/email_security.go:169-287 | at most ten queries, those of the first ten lookup terms of the expansion; each target of an `include:` or `redirect=` of the record that at most ten lookup terms precede or include is queried; the limit is reported once, exactly when there is an eleventh |
| SpfWalk.LinksAreAsked | internal/evidence/email_security.go:208-237 | a target of the record is queried as long as the terms before it, nested ones counted, leave the limit open |
| SpfWalk.NestedIs | internal/evidence/email_security.go:237-283 | the policy a name leads to is the first among its texts, unless the name or its texts do not exist |
| SpfTerms.IncludeReads | internal/evidence/email_security.go:298-308 | a term reads as an include exactly when it spells `include:` with a target, with or without a qualifier and in any letter case, and it asks for that target in lower case less one final dot, or for nothing if that is empty |
| SpfTerms.RedirectReads | internal/evidence/email_security.go:309-311 | the same of `redirect=` |
| SpfTerms.PlainReads | internal/evidence/email_security.go:312-323 | a term reads as a lookup without a query exactly when it spells `a`, `mx` or `ptr`, alone or with what may follow, or `exists:` |
| SpfTerms.NothingElseReads | internal/evidence/email_security.go:298-325 | every other term costs nothing |
| SpfTerms.WrittenReads | internal/evidence/email_security.go:298-311 | a term written with any qualifier, letter case and target is read back as that lookup |
| SpfTerms.PolicyReads | internal/evidence/email_security.go:289-296 | a text is a policy exactly when its first word starts with `v=spf1`, in any letter case |
| SpfTerms.FieldsOfJoined | internal/evidence/email_security.go:208-212 | the terms of a written record are the words it was written from |
| Hex.Print | internal/evidence/http_mutations.go:240-245 | digits that denote the number |
| Hex.PrintParses | internal/evidence/http_raw_transport.go:346-347 | the 64-bit parser reads a printed number back |
| ChunkedBody.Front | internal/evidence/http_raw_transport.go:341-381 | the chunk at the front of the input, if it is complete and fits |
| ChunkedBody.ReadsExactlyMessages | internal/evidence/http_raw_transport.go:338-382 | the reader completes with a body and a rest exactly when the input is a complete chunked message with that body, within the limit and what memory holds, followed by that rest |
| ChunkedBody.ReadIsSafe | internal/evidence/http_raw_transport.go:338-382 | the body never exceeds the limit and a complete observation reports no error |
| ChunkedBody.PanicsExactly | internal/evidence/http_raw_transport.go:366-380 | the impossible allocation happens exactly when fitting chunks are followed by a size that passes the limit check and cannot be allocated |
| ChunkedBody.PanicsByOverflow | internal/evidence/http_raw_transport.go:366-371 | under a limit that memory can hold it happens exactly when fitting chunks are followed by a size that takes the signed 64-bit sum past its range |
| ChunkedBody.ReaderPanics | internal/evidence/http_raw_transport.go:366-371 | an input on which it happens, under every limit that admits a byte |
| ChunkedBody.RoundTrip | internal/evidence/http_mutations.go:240-245 | for every split of a body within the limit into chunks that can be allocated, and whatever follows, reading undoes writing and leaves the rest unread |
| ChunkedBody.ProbeRoundTrip | internal/evidence/http_mutations.go:240-245 | the encoding the probes send reads back as its body |
| RawMessage.BuildRawRequest | internal/evidence/http_mutations.go:201-216 | a request is written exactly from a verb, a target and headers that stay on their lines, as request line, header block, blank line and body |
| RawMessage.HeadersReadBack | internal/evidence/http_raw_transport.go:269-292 | the written header block reads back, trimmed, in order, rest unread, exactly when no name is blank and the block fits the header limit |
| RawMessage.BlankNameIsRefused | internal/evidence/http_raw_transport.go:285-289 | a header name the writer accepts and the reader refuses |
| RawMessage.FieldReads | internal/evidence/http_raw_transport.go:285-291 | a written line parses to its name and value unless the name is blank |
| RawMessage.LinesRead | internal/evidence/http_raw_transport.go:270-292 | header lines are accepted one by one until the blank line, within the byte limit |
| RawMessage.MessageIsSafe | internal/evidence/http_raw_transport.go:250-336 | whatever a server sends, the body stays within the limit and a complete observation reports no error |
| RawMessage.BodyIsSafe | internal/evidence/http_raw_transport.go:294-335 | the same for each way of framing a body; under a limit that memory can hold only a chunked one can meet the impossible allocation |
| RawTransport.ReadRawHTTPObservation | internal/evidence/http_raw_transport.go:250-336 | the response reader on a connection computes the specified observation and leaves the specified bytes |
| RawTransport.ReadHeaders | internal/evidence/http_raw_transport.go:269-292 | the header loop computes the specified fields or ends the reading |
| RawTransport.ReadFixedBody | internal/evidence/http_raw_transport.go:302-322 | exactly the announced bytes, or what arrived and why it stopped, or a length that cannot be allocated |
| RawTransport.ReadOpenBody | internal/evidence/http_raw_transport.go:323-335 | everything up to the end, or one byte past the limit; nothing under the largest limit, one past which is negative |
| RawTransport.ReadChunkedBody | internal/evidence/http_raw_transport.go:338-382 | the reader on a connection computes the specified outcome and leaves the specified bytes |
| RawTransport.ReadTrailer | internal/evidence/http_raw_transport.go:352-364 | the trailer section is skipped up to its blank line |
| RawTransport.Connection.ReadLine | internal/evidence/http_raw_transport.go:341-345 | a line up to the line feed, or the end of the connection |
| RawTransport.WriteAll | internal/evidence/http_raw_transport.go:236-248 | succeeds exactly if no write failed or took nothing; then every byte was sent once in order, whatever short writes occurred; always a prefix was sent |
| Consensus.MajorityIsUnique | internal/dns/consensus.go:136-166 | at most one class of views reaches the quorum |
| Consensus.DecidedIgnoresOrder | internal/dns/consensus.go:136-166 | the state does not depend on the order of the resolvers |
| Consensus.AgreedStatus | internal/dns/consensus.go:168-179 | under consensus the status is the class's own and never ERROR, TIMEOUT or SERVFAIL |
| Consensus.MajoritiesMeet | internal/dns/consensus.go:34-53 | two majorities over the same resolvers share a resolver |
| Consensus.CountClasses | internal/dns/consensus.go:136-153 | the counts are those of each class of valid views |
| Consensus.ConsensusState | internal/dns/consensus.go:136-166 | the state is the one decided by counts, whichever way the map is traversed |
| Consensus.ConsensusStatus | internal/dns/consensus.go:168-179 | the status that has the quorum, or ERROR when none has |
| Consensus.Vote | internal/dns/consensus.go:34-57 | NXDOMAIN or NODATA exactly when both types have a majority and a quorum of that status, and some resolver then answered so for A and AAAA; RESOLVED exactly under two majorities with an address quorum; CONSENSUS exactly with one of these; the other states exactly by propagation, split horizon or neither |
| Consensus.Alone | internal/dns/authoritative.go:90-120 | one resolver: an address of either type resolves the name, and it is missing or empty only when both types say so |
| Consensus.AddressConsensus | internal/dns/consensus.go:27-57 | voting, with the same equivalences, exactly when it is switched on with two resolvers or more and without DoH; otherwise DISABLED with one resolver's status, or an error without a resolver |
| ParentView.EqualNameSetsDecides | internal/dns/authoritative.go:529-541 | the comparison decides equality of name sets |
| ParentView.AgreementIgnoresOrder | internal/dns/authoritative.go:470-498 | agreement, the published names and the glue do not depend on the order of the responses |
| ParentView.MergeGlue | internal/dns/authoritative.go:510-527 | addresses are appended exactly for servers the response publishes |
| ParentView.SummarizeDelegation | internal/dns/authoritative.go:470-498 | verified exactly when there is a view and all views publish the same name servers, at least one; the list is then that set; glue comes only from views that publish its server |
| ParentView.QueryParentServers | internal/dns/authoritative.go:439-464 | the responses are the answers of all distinct addresses in order, or of those before the interruption; the pass is complete exactly when nothing interrupts it |
| ParentView.LookupDelegation | internal/dns/authoritative.go:412-432 | verified exactly when nothing interrupts the pass and the answers of all addresses agree; then every view publishes exactly the servers returned; names and glue are those of the answers heard |
| ParentView.VerifiedAddress | internal/dns/authoritative.go:470-498 | under a verified delegation the view of each single address publishes those servers |
| ParentView.SummarizeDs | internal/dns/authoritative.go:348-364 | present when any successful response has the record, checked when any succeeded |
| ParentView.ParentDs | internal/dns/authoritative.go:293-302 | presence and its check follow from the answers of the addresses asked, the interruption of the pass and the recursive resolver; when exactly absence counts as checked |
| ParentView.AbsentUnasked | internal/dns/authoritative.go:335-341 | absence can count as checked although an address that was not asked publishes the record |
| ZoneCut.FindZone | internal/dns/authoritative.go:172-224 | fails exactly when it is cancelled or there is no SOA record and no candidate is confirmed by its parent or known to the recursive resolver; otherwise it stops at the owner of the SOA record or the first such candidate |
| ZoneCut.Walk | internal/dns/authoritative.go:188-208 | climbs to the first candidate that is a cut, and brings along the delegation its parent confirmed |
| ZoneCut.BuildZone | internal/dns/authoritative.go:263-307 | the delegation counts as verified exactly when the walk or the second lookup confirmed it; the name servers are those confirmed in the walk, else those the parent publishes, else the zone's own; glue and DS fields follow from the answers heard |
| NsGate.RemoveName | internal/evidence/ns.go:247-255 | the in-place filter keeps exactly the other names in order |
| NsGate.UniformProvider | internal/evidence/ns.go:231-245 | a provider is named exactly when all servers share one known provider |
| NsGate.Classify | internal/evidence/ns.go:53-129 | one server enters exactly the lists its probes call for; an address failure is taken back when the server answers |
| NsGate.ProbeAll | internal/evidence/ns.go:51-130 | the lists and findings over all servers |
| NsGate.Collect | internal/evidence/ns.go:29-181 | a takeover candidate exactly when every delegated server failed, the parent's delegation is verified, one provider serves all and the absence of DS is checked; no server then answers |
| NsGate.Investigate | internal/evidence/ns.go:29-181 | when a zone is found and when not; a takeover candidate exactly when the zone found meets the conditions; then all addresses of the parent's servers were asked, every view publishes the same servers, each of these fails and does not answer, one known provider serves all, and the exact condition on the DS record holds |
| Similarity.Overlap | internal/inference/http.go:382-391 | the matched tokens are the multiset intersection |
| Similarity.BodySimilarity | internal/inference/http.go:369-393 | the score of two bodies |
| Similarity.ScoreMeaning | internal/inference/http.go:369-393 | the score lies in 0..100, is symmetric, and is 100 exactly for equal token multisets up to case |
| Inference.DroppedAgain | internal/inference/http.go:467-475 | dropping derived evidence recovers what was there before it was added |
| Grounds.EvidenceOnGrounds | internal/inference/http.go:26-319 | each kind of evidence is derived exactly on the observations the table names, for any visiting order of the redirect chains |
| Grounds.FindingsOnGrounds | internal/inference/http.go:26-319 | each finding, with rule, state and kind, is made exactly on the observations the table names |
| Grounds.PlaintextEvidenceExactly | internal/inference/http.go:145-192 | PLAINTEXT_AUTH_INTERFACE, HTTP_SENSITIVE_COOKIE_WITHOUT_SECURE and PLAINTEXT_WEB_CONTENT exactly for a complete HTTP response of 200 to 299 that does not lead to HTTPS and shows a login form, an insecure cookie or a page |
| Grounds.RedirectEvidenceExactly | internal/inference/http.go:44-268 | HTTP_HTTPS_PORT_INCONSISTENT, HTTPS_DOWNGRADE_REDIRECT and DANGLING_REDIRECT exactly for an upgrade to an unusual port, an HTTPS redirect back to HTTP, and a chain with a hop whose destination is missing |
| Grounds.PlaintextFindings | internal/inference/http.go:221-231 | the findings on a response served over HTTP and their states; the gravest of its contents decides |
| Grounds.WithheldFindings | internal/inference/http.go:111-144 | the suppressed findings exactly for blocked, unavailable and failing answers |
| Grounds.UpgradeFindings | internal/inference/http.go:44-85 | the findings on the way between HTTP and HTTPS and their states |
| Grounds.ChainFindings | internal/inference/http.go:233-268 | the findings on redirect chains and their states, by the reason a chain stopped |
| Grounds.HeaderFindings | internal/inference/http.go:270-319 | the observations on HSTS and CSP |
| Classification.LevelIgnoresOrder | internal/classification/rules.go:13-156 | the level does not depend on the order of the evidence |
| Classification.ControlLevels | internal/classification/rules.go:76-99 | on exactly which evidence the levels of proven control and of a specific fingerprint are reported |
| Classification.DelegationLevels | internal/classification/rules.go:100-113 | on exactly which evidence the delegation levels are reported |
| Classification.OtherLevels | internal/classification/rules.go:114-156 | on exactly which evidence each other level is reported |
| Classification.RiskFallsExactly | internal/classification/rules.go:76-135 | for evidence lists one within the other, when exactly the larger one lowers the risk of a serious level, in terms of the facts of both |
| Classification.RiskFalls | internal/classification/rules.go:76-90 | evidence on which it does |
| Processing.SeriousFindingsFire | internal/inference/http.go:44-268 | the evidence a candidate or confirmed inference names lifts the level to MISCONFIGURED or above |
| Classification.StrongestIsMaximal | internal/classification/result.go:76-87 | the strongest inference is one of the inferences and none ranks higher |
| Classification.StrongestInference | internal/classification/result.go:76-87 | the loop finds the first of the highest rank |
| Classification.SuppressionBranchIsDead | internal/classification/result.go:21-23 | the last adjustment of the state never applies |
| Processing.StateAgreesWithLevel | internal/classification/result.go:9-74 | after processing the state is candidate or confirmed exactly when the level is MISCONFIGURED or riskier, and the impact is confirmed exactly in the confirmed state |
| Processing.ConfirmedByFacts | internal/classification/result.go:9-74 | after processing a host is confirmed exactly by proof of control, or, short of a specific fingerprint, by a verified delegation claim or an exposure with no unsettled delegation |
| Processing.DecidedByObservations | internal/classification/result.go:9-74 | level and state after processing, from the observations and the evidence that is not derived alone: serious observations count as exposures or misconfigurations, and an undecided level leaves the state to the strongest of what the observations show |
| Processing.ExposedExactly | internal/classification/rules.go:114-120 | a host is EXPOSED, and then confirmed, exactly if nothing graver is known and there is evidence of an exposure or a response over HTTP shows a login form or an insecure cookie |
| Processing.ReplayIsStable | internal/classification/engine.go:9-18 | processing the result again changes no evidence, inference, score, level or decision |
| Processing.ChainOrderDoesNotMatter | internal/inference/http.go:233-268 | level and state do not depend on the order in which the map of redirect chains is visited |
| Processing.HostAnalysis.AddEvidence | internal/inference/http.go:450-457 | evidence is added unless its kind and source are present |
| Processing.HostAnalysis.RemoveDerivedEvidence | internal/inference/http.go:467-475 | exactly the derived evidence goes |
| Processing.HostAnalysis.Analyze | internal/inference/http.go:12-24 | earlier derivations are forgotten and made again: the kinds of evidence are those of the evidence that is not derived and those the observations call for, and the findings are exactly those the observations call for |
| Processing.HostAnalysis.Process | internal/classification/engine.go:9-18 | the analysis becomes the specified outcome for some visiting order; level and state are functions of the observations and of the evidence that is not derived |
| ScanInput.HostsAre | cmd/scan_input.go:26-46 | the targets are distinct and are exactly the hosts the lines name |
| ScanInput.Load | cmd/scan_input.go:26-72 | for any reading of a line: loading succeeds exactly when the inputs are whole and name a host, with the distinct hosts in order |
| ScanInput.LoadScanDomains | cmd/scan_input.go:26-72 | with the program's reading: it succeeds exactly when the inputs are whole and some line names a host, with valid domain names only, each once |
| ScanInput.LoadedLoadsAgain | cmd/scan_input.go:29-46 | the targets of a scan, given as arguments, load as themselves |
| ScanInput.HostReadsItself | cmd/scan_input.go:29-36 | the host a line names is a valid domain name and reads as itself |
| ScanInput.Stream | cmd/scan_input.go:90-183 | for any reading of a line: it succeeds exactly for an admissible size when loading would succeed and index, processor and closing do not fail; then it gives the loaded list in batches, all but the last full and none empty; after a failure the batches are a prefix of it |
| ScanInput.StreamScanDomains | cmd/scan_input.go:90-183 | the same with the program's reading; only valid domain names are handed over |
| ScanInput.Streamer.Push | cmd/scan_input.go:139-143 | a host joins the batch, and a full batch is handed over |
| ScanInput.Streamer.Flush | cmd/scan_input.go:113-124 | a batch that is not empty is handed over once |

## Left out

Assumptions of the model:

- A failing provider or cloud call has no effect on the world; a store write that fails may or may not have happened.
- The proof token of an attempt is a fresh secret, so it is identified with its audit row, and with the bucket or zone it created.
- One process uses an audit table at a time; a new process starts after the old one died.
- During one recovery the hosted zones of the account do not change, zones of one name stand together in listing order, and a truncated page names its continuation.
- `ClaimStuck.ReconciliationCanSucceed`: a provider never uses an identifier twice.
- `ParentView.LookupDelegation`: within one pass an address answers the question once, so its answer is a function of the address; each pass is interrupted at a given address or not at all.
- `SpfWalk.ValidateSPF`: the resolver answers a name the same way each time within one walk.

Not modelled:

- `ClaimEngine.Engine.Execute`: the evidence and fields it writes into the analysis, the choice of provider and how `VerifyControl` comes to its answer, because they do not influence the protocol.
- `S3Provider.Provider.Claim` and `Route53Provider.Provider.Claim`: request details such as location constraints and proof object contents.
- `S3Endpoint.PrintedParses`: trimming and lower-casing beyond ASCII.
- `Discovery.Recon.Discover`: cancellation, which can mark names attempted that were never resolved; the wildcard cache and counters; what the network answers is given as functions (of the name, or of the frontier it is asked about), so a name has one reply in a run. When a smaller limit cuts a resumed catalog, which of its names stay is that of the order in the checkpoint.
- `Generation.GenerateSeeds`: the words learned from the catalog, numbered names and mutations are functions given as parameters.
- `Discovery.Recon.ResolveSeeds`: the worker pool is an arbitrary order, and candidates are not sorted afterwards, so the results hold for every order.
- `Discovery.CheckpointRoundTrip`: origins are a set, so their order and the sharing of backing arrays between catalog and frontier are not captured.
- `SpfWalk.ValidateSPF`: the provider fingerprints and ownership of missing names, and permissive `all` mechanisms.
- `RawTransport.ReadRawHTTPObservation`: the parsing of the status line, the canonical spelling of header names, the tokens of Transfer-Encoding and decimal numbers are parameters; blanks outside ASCII are not trimmed. Lack of memory short of the largest slice (2^48 bytes) is not modelled.
- `ZoneCut.FindZone`: DNS name case, the cache of zones, and how the candidates follow from the host name; names are taken as normalized.
- `NsGate.Investigate`: the final sorting of the lists and the text of the evidence.
- `Processing.HostAnalysis.Analyze`: the analysis functions are given as the list of additions they make, in order, and `HostAnalysis` performs it. URL parsing, number printing, header lookup and the details of the HSTS value are parameters or omitted.
- `Processing.HostAnalysis.Process`: scores and their weights are a function of the evidence; the detection of unknown providers and the reason found in transport errors are not derived.
- `ScanInput.StreamScanDomains`: line length limits; the temporary index is only known to take a host or not, and the processor to accept a batch or not.
- Command line, reports, platform clients, scrapers, WHOIS, TLS inspection and signature matching: formatting and network plumbing.
- Time: timeouts and retries are nondeterministic failures.
