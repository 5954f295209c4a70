/** The release-job request and the constraints a control plane may rely on.

    Strings are the values carried by the decoded request.  The three regular
    expressions are written out as predicates on characters. */
module ReleaseContract {
  import opened Texts
  import opened Wrappers

  datatype Target = Target(id: string, environment: string, profile: string, expected: Option<string>)
  datatype Image = Image(component: string, reference: string)

  datatype Request = Request(
    schema: int, jobId: string, key: string, releaseId: string, manifest: string,
    target: Target, images: seq<Image>, backupRequired: bool,
    migration: string, compatibility: string, recovery: string, healthProfile: string)

  const SCHEMA := 2
  const STAGING := "staging"
  const PRODUCTION := "production"
  const MIGRATE := "preflight-and-apply"
  const NO_MIGRATION := "none"
  const RUNTIME_ONLY := "runtime-only"
  const MANUAL := "manual"
  const DIGEST_PREFIX := "sha256:"
  const DIGEST_LENGTH := 71

  /** One to 128 characters, the first alphanumeric. */
  predicate Identifier(s: string) {
    && 1 <= |s| <= 128
    && AlphaNum(s[0])
    && forall i :: 0 <= i < |s| ==> AlphaNum(s[i]) || Separator(s[i])
  }

  predicate Digest(s: string) {
    && |s| == DIGEST_LENGTH
    && DIGEST_PREFIX <= s
    && forall i :: |DIGEST_PREFIX| <= i < |s| ==> Hex(s[i])
  }

  /** Lower-case path segments: no segment is empty, starts or ends with a
      separator, or holds two separators in a row, and there are at least two. */
  predicate Repository(s: string) {
    && s != []
    && (Lower(s[0]) || Digit(s[0]))
    && (Lower(s[|s| - 1]) || Digit(s[|s| - 1]))
    && '/' in s
    && (forall i :: 0 <= i < |s| ==> Lower(s[i]) || Digit(s[i]) || Separator(s[i]) || s[i] == '/')
    && (forall i :: 0 <= i < |s| - 1 ==> Lower(s[i]) || Digit(s[i]) || Lower(s[i + 1]) || Digit(s[i + 1]))
  }

  /** A repository pinned by digest.  The pattern leaves no room for a tag. */
  predicate PinnedImage(s: string) {
    && |s| > DIGEST_LENGTH + 1
    && Repository(s[..|s| - DIGEST_LENGTH - 1])
    && s[|s| - DIGEST_LENGTH - 1] == '@'
    && Digest(s[|s| - DIGEST_LENGTH..])
  }

  predicate ValidHeader(r: Request) {
    && r.schema == SCHEMA
    && Identifier(r.jobId) && Identifier(r.key) && Identifier(r.releaseId)
    && Identifier(r.target.id) && Identifier(r.target.profile) && Identifier(r.healthProfile)
    && Digest(r.manifest)
    && (r.target.environment == STAGING || r.target.environment == PRODUCTION)
    && (r.target.expected.Some? ==> Identifier(r.target.expected.value))
  }

  predicate ValidPolicy(r: Request) {
    && (r.migration == MIGRATE || r.migration == NO_MIGRATION)
    && (r.migration == NO_MIGRATION ==> r.compatibility == "not-applicable")
    && (r.migration == MIGRATE ==>
          r.compatibility in {"unreviewed", "online-expand-contract", "maintenance-write-freeze"})
    && (r.target.environment == STAGING ==> r.recovery == MANUAL)
    && (r.target.environment == PRODUCTION ==>
          && r.backupRequired
          && r.recovery == RUNTIME_ONLY
          && (r.migration == MIGRATE ==> r.compatibility == "online-expand-contract"))
  }

  predicate ValidImages(images: seq<Image>) {
    && 1 <= |images| <= 32
    && (forall i :: 0 <= i < |images| ==> Identifier(images[i].component) && PinnedImage(images[i].reference))
    && (forall i, j :: 0 <= i < j < |images| ==> images[i].component != images[j].component)
  }

  predicate ValidRequest(r: Request) {
    ValidHeader(r) && ValidPolicy(r) && ValidImages(r.images)
  }

  /** The chain of checks; the loop over the images remembers the components seen. */
  method Validate(r: Request) returns (ok: bool)
    ensures ok <==> ValidRequest(r)
  {
    if !ValidHeader(r) { return false; }
    if r.target.environment == PRODUCTION && !r.backupRequired { return false; }
    if r.migration != MIGRATE && r.migration != NO_MIGRATION { return false; }
    if r.migration == NO_MIGRATION && r.compatibility != "not-applicable" { return false; }
    if r.migration == MIGRATE && r.compatibility != "unreviewed"
       && r.compatibility != "online-expand-contract" && r.compatibility != "maintenance-write-freeze" {
      return false;
    }
    if r.target.environment == STAGING && r.recovery != MANUAL { return false; }
    if r.target.environment == PRODUCTION {
      if r.migration == MIGRATE && r.compatibility != "online-expand-contract" { return false; }
      if r.recovery != RUNTIME_ONLY { return false; }
    }
    ok := ValidateImages(r.images);
  }

  method ValidateImages(images: seq<Image>) returns (ok: bool)
    ensures ok <==> ValidImages(images)
  {
    if |images| == 0 || |images| > 32 { return false; }
    var components: set<string> := {};
    for i := 0 to |images|
      invariant components == set k | 0 <= k < i :: images[k].component
      invariant forall k :: 0 <= k < i ==> Identifier(images[k].component) && PinnedImage(images[k].reference)
      invariant forall j, k :: 0 <= j < k < i ==> images[j].component != images[k].component
    {
      if !Identifier(images[i].component) { return false; }
      if images[i].component in components { return false; }
      components := components + {images[i].component};
      if !PinnedImage(images[i].reference) { return false; }
    }
    return true;
  }
}
