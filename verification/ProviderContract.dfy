/** The contract between the claim engine and a provider, for one call each: what may be live afterwards,
    given what the call returned. `T` identifies attempts: audit rows for the engine, proof tokens for the
    adapters. */
module ProviderContract {
  import opened Options
  import opened ClaimProtocol

  datatype Recovery = Unknown | NotFound | Found(id: string)

  predicate Added<T(==)>(before: map<Resource, T>, after: map<Resource, T>, provider: string, id: string, who: T) {
    id != "" && Resource(provider, id) !in before && after == before[Resource(provider, id) := who]
  }

  ghost predicate ClaimMeets<T>(before: map<Resource, T>, after: map<Resource, T>, provider: string, who: T, report: Report) {
    match report
    case Accepted(id) => Added(before, after, provider, id, who)
    case Partial(id) => Added(before, after, provider, id, who)
    case Rejected => after == before
    case Anonymous => after == before || exists id :: Added(before, after, provider, id, who)
    case Invalid(_) => false
  }

  predicate RecoverMeets<T(==)>(live: map<Resource, T>, provider: string, who: T, answer: Recovery) {
    match answer
    case Unknown => true
    case NotFound => forall res | res in live :: live[res] != who
    case Found(id) => id != "" && Resource(provider, id) in live && live[Resource(provider, id)] == who
  }

  predicate ReleaseMeets<T(==)>(before: map<Resource, T>, after: map<Resource, T>, provider: string, id: string, ok: bool) {
    && (after == before || after == before - {Resource(provider, id)})
    && (ok ==> Resource(provider, id) !in after)
  }
}
