/** The kinds of evidence the risk rules read, and where the derived kinds stand among them. */
module Kinds {
  import opened SignTable

  const EXPOSED := {
    "CLOUD_S3_LISTABLE", "CLOUD_S3_WRITABLE", "CLOUD_AZURE_BLOB_LISTABLE", "CLOUD_GCS_LISTABLE", "DNS_AXFR_ALLOWED",
    "ORIGIN_DIRECT_MATCH", "PLAINTEXT_AUTH_INTERFACE", "HTTP_SENSITIVE_COOKIE_WITHOUT_SECURE"
  }

  const MISCONFIGURED := {
    "NS_REFUSED", "NS_SERVFAIL", "NS_ALL_DEAD", "NS_ORPHANED", "LAME_DELEGATION", "NS_SOA_MISMATCH", "MX_BROKEN",
    "MX_PRIMARY_BROKEN_WITH_FALLBACK", "MX_BACKUP_BROKEN", "SRV_BROKEN", "MX_DANGLING", "SRV_DANGLING",
    "DNSSEC_BOGUS", "SPF_BROKEN_INCLUDE", "SPF_DANGLING_TAKEOVER", "SPF_INCLUDE_WITHOUT_POLICY", "SPF_INCLUDE_CYCLE",
    "SPF_LOOKUP_LIMIT_EXCEEDED", "EMAIL_SPF_PERMISSIVE", "HTTP_OPEN_REDIRECT", "DANGLING_REDIRECT",
    "PLAINTEXT_WEB_CONTENT", "HTTP_HTTPS_PORT_INCONSISTENT", "HTTPS_DOWNGRADE_REDIRECT", "CSP_DANGLING_DEPENDENCY",
    "SUBRESOURCE_DANGLING", "DEAD_ASSET_REFERENCE", "DEAD_ASSET_HTTP"
  }

  const CONTEXT := {
    "ASN_MATCH", "CAA_ISSUER_MISMATCH", "CAA_POLICY_INCONSISTENT", "CAA_RECORD_PRESENT", "CDN_DETECTED",
    "CLOUD_IP_CONTEXT", "CNAME_CHAIN_TRACE", "CNAME_PROVIDER_MATCH", "DNAME_ALIAS", "HTTPS_BINDING",
    "HTTPS_PROVIDER_MATCH", "SVCB_BINDING", "SVCB_PROVIDER_MATCH", "DNSSEC_ARTIFACTS_OBSERVED",
    "DNS_CONSENSUS_STATE", "DNSSEC_SERVFAIL_INCONCLUSIVE", "DNSSEC_VALIDATED", "EMAIL_DMARC_MISSING",
    "EMAIL_SPF_MISSING", "HTTP_OK_ACTIVE", "HTTP_RESPONSE", "HTTP_HSTS_MISSING", "HTTP_CSP_MISSING",
    "HTTPS_HSTS_ABSENT", "HTTPS_HSTS_PRESENT", "HTTPS_CSP_ABSENT", "HTTPS_CSP_PRESENT", "HTTP_NO_HTTPS_UPGRADE",
    "HTTP_HTTPS_UPGRADE_PRESENT", "HTTP_HTTPS_CONTENT_CORRELATED", "TRANSPORT_PRIORITY_SCORE",
    "HTTP_BLOCKED_WITHOUT_REDIRECT", "HTTP_EDGE_BLOCK", "HTTP_ERROR_WITHOUT_REDIRECT", "RESOURCE_NOT_AVAILABLE",
    "EDGE_RESPONSE", "APPLICATION_RESPONSE", "ACCESS_RESPONSE", "ERROR_RESPONSE", "REDIRECT_RESPONSE",
    "HTTP_REDIRECT_HOP", "REDIRECT_TARGET_OUT_OF_SCOPE", "RELATED_DOMAIN_COOKIE_SCOPE",
    "RELATED_DOMAIN_CORS_CREDENTIALS", "CORS_PUBLIC_WILDCARD_OBSERVED", "REDIRECT_DEPTH_LIMIT",
    "REDIRECT_UNSUPPORTED_PROTOCOL", "HTTPS_UNAVAILABLE", "VHOST_DIFFERENTIAL", "HTTP_WILDCARD_DETECTED",
    "MX_PROVIDER_MATCH", "MX_UNRESOLVABLE", "NULL_MX_PRESENT", "NS_PROVIDER_MATCH", "NXDOMAIN_EXPECTED",
    "ORIGIN_EXPOSURE_CANDIDATE", "ORIGIN_EXPOSURE_HINT", "PROVIDER_MIGRATION_DETECTED",
    "PROVIDER_MIGRATION_STALE_REFERENCE", "SNI_CERT_MISMATCH", "SRV_PROVIDER_MATCH", "SRV_UNRESOLVABLE",
    "SHADOW_IT_DETECTED", "TLS_CERTIFICATE_DRIFT", "TLS_CERTIFICATE_OBSERVED", "TLS_PROVIDER_MATCH",
    "TLS_SAN_CANDIDATE", "TLS_SAN_MATCH", "TXT_OWNERSHIP_TOKEN_RESIDUAL", "TXT_VERIFICATION_TOKEN"
  }

  /** Evidence kinds that fire an EXPOSED or MISCONFIGURED rule. */
  const SERIOUS := {"PLAINTEXT_AUTH_INTERFACE", "HTTP_SENSITIVE_COOKIE_WITHOUT_SECURE", "PLAINTEXT_WEB_CONTENT",
                    "HTTP_HTTPS_PORT_INCONSISTENT", "HTTPS_DOWNGRADE_REDIRECT", "DANGLING_REDIRECT"}

  /** Evidence kinds of which a rule reads more than the kind. */
  const DETAILED := {"HTTP_RESPONSE", "CNAME_PROVIDER_MATCH", "HTTP_BODY_MATCH", "HTTP_MUTATION_REVEALED_PROVIDER_FINGERPRINT"}

  /** Kinds the rules of a level above INSUFFICIENT_EVIDENCE ask for one by one. */
  const ASKED := {"ZONE_CONTROL_CONFIRMED", "CLAIM_SUCCESS", "DELEGATION_CLAIMABILITY_VERIFIED",
                  "DELEGATION_CLAIMABILITY_NOT_DEMONSTRATED", "DELEGATION_TAKEOVER_CANDIDATE", "DELEGATION_BROKEN",
                  "CNAME_DANGLING", "CDN_DETECTED", "TECHNOLOGY_DETECTED", "HTTP_STATUS_404", "NXDOMAIN"}

  predicate SeriousSigns(s: Signs) {
    s.login || s.cookie || s.page || s.oddPort || s.downgrades || s.missingName || s.missingResource
  }

  lemma DerivedNotAsked(s: Signs, kind: string)
    requires Evidences(s, kind)
    ensures kind !in ASKED
  {
  }

  lemma DerivedExposed(s: Signs, kind: string)
    requires Evidences(s, kind) && kind in EXPOSED
    ensures s.login || s.cookie
  {
  }

  lemma DerivedMisconfigured(s: Signs, kind: string)
    requires Evidences(s, kind) && kind in MISCONFIGURED
    ensures s.page || s.oddPort || s.downgrades || s.missingName || s.missingResource
  {
  }

  lemma DerivedContext(s: Signs, kind: string)
    requires Evidences(s, kind)
    ensures SeriousSigns(s) || kind in CONTEXT
  {
  }
}
