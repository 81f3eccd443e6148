/** The GitHub webhook handler: its permission gate on the `x-github-event`
    and `x-hub-signature` headers, and its callback, which answers a ping,
    filters pushes to the default branch and updates the matching project. */
module GitHubHandler {
  import opened PhpValues
  import opened Requests
  import opened Projects

  const EventHeader := "x-github-event"
  const SignatureHeader := "x-hub-signature"

  const HtmlUrl: seq<string> := ["repository", "html_url"]
  const DefaultBranch: seq<string> := ["repository", "default_branch"]
  const Ref: seq<string> := ["ref"]
  const PrivateFlag: seq<string> := ["private"]

  function Event(req: Request): Option<string> {
    Header(req, EventHeader)
  }

  /** The signature header a push must carry: `sha1=` and the hex HMAC-SHA1
      of the raw body keyed with the configured secret. */
  function ExpectedSignature(req: Request, secret: string, hmac: Hmac): string {
    "sha1=" + hmac(Sha1, req.body, secret)
  }

  /** `permission_callback`. `secret` is the configured GitHub secret, None
      when it is not defined. A ping needs no credentials; a push needs the
      secret and a signature header equal to the expected one; every other
      event, and a missing event header, is refused. */
  function PermissionCallback(req: Request, secret: Option<string>, hmac: Hmac): (allowed: bool)
    ensures !HasHeader(req, EventHeader) ==> !allowed
    ensures Event(req) == Some("ping") ==> allowed
    ensures Event(req) != Some("ping") && Event(req) != Some("push") ==> !allowed
    ensures Event(req) == Some("push") && (secret.None? || !HasHeader(req, SignatureHeader)) ==> !allowed
    ensures Event(req) == Some("push") ==>
              (allowed <==> secret.Some? && Header(req, SignatureHeader) == Some(ExpectedSignature(req, secret.value, hmac)))
  {
    if !HasHeader(req, EventHeader) then false
    else if Event(req) == Some("ping") then true
    else if Event(req) != Some("push") then false
    else if secret.None? then false
    else if !HasHeader(req, SignatureHeader) then false
    else Header(req, SignatureHeader).value == ExpectedSignature(req, secret.value, hmac)
  }

  /** Where the callback's decision chain ends before it touches any project. */
  datatype Route = Ping | Malformed | OtherBranch | Lookup(repositoryUrl: string)

  /** The branch a push must name: `refs/heads/` followed by the payload's
      default branch, which is read without `isset` (absent reads as ""). */
  function DefaultRef(params: Json): string {
    "refs/heads/" + ToPhpString(Get(params, DefaultBranch))
  }

  /** The checks of `callback` up to the project lookup, in their order:
      a ping, then the payload's shape, then the branch. */
  function Triage(req: Request): (r: Route)
    ensures r == Ping <==> Event(req) == Some("ping")
    ensures r == Malformed <==>
              Event(req) != Some("ping") && !(IsSet(req.params, HtmlUrl) && IsSet(req.params, Ref))
    ensures r == OtherBranch <==>
              Event(req) != Some("ping") && IsSet(req.params, HtmlUrl) && IsSet(req.params, Ref)
              && Get(req.params, Ref) != Str(DefaultRef(req.params))
    ensures r.Lookup? <==>
              Event(req) != Some("ping") && IsSet(req.params, HtmlUrl) && Get(req.params, Ref) == Str(DefaultRef(req.params))
    ensures r.Lookup? ==> r.repositoryUrl == ToPhpString(Get(req.params, HtmlUrl))
  {
    if Event(req) == Some("ping") then Ping
    else if !IsSet(req.params, HtmlUrl) || !IsSet(req.params, Ref) then Malformed
    else if Get(req.params, Ref) != Str(DefaultRef(req.params)) then OtherBranch
    else Lookup(ToPhpString(Get(req.params, HtmlUrl)))
  }

  /** The response for a route, given whether the lookup found a project. */
  function OutcomeOf(r: Route, found: bool): Outcome {
    match r
    case Ping => Ok
    case Malformed => BadRequest
    case OtherBranch => NotDefaultBranch
    case Lookup(_) => if found then Ok else NotFound
  }

  /** The project's metadata after a successful push: the URL is always the
      payload's, the visibility follows `private` when it is set, and the
      repository type and VCS type are filled in only when unset. */
  function Apply(m: Meta, params: Json): (r: Meta)
    ensures r.url == Some(ToPhpString(Get(params, HtmlUrl)))
    ensures !IsSet(params, PrivateFlag) ==> r.visibility == m.visibility
    ensures Get(params, PrivateFlag) == Bool(false) ==> r.visibility == Some(Public)
    ensures IsSet(params, PrivateFlag) && Get(params, PrivateFlag) != Bool(false) ==> r.visibility == Some(Private)
    ensures r.repoType == if Truthy(m.repoType) then m.repoType else Some(TypeGitHub)
    ensures r.vcsType == if Truthy(m.vcsType) then m.vcsType else Some(Git)
  {
    Meta(VisibilityAfter(m.visibility, Get(params, PrivateFlag)),
         Some(ToPhpString(Get(params, HtmlUrl))),
         FillIfUnset(m.repoType, TypeGitHub),
         FillIfUnset(m.vcsType, Git))
  }

  /** The project the callback updates: the one the locator returns for the
      repository URL, and none when the chain ends before the lookup. */
  function Found(req: Request, locator: map<string, Project>): Option<Project> {
    match Triage(req)
    case Lookup(url) => if url in locator then Some(locator[url]) else None
    case _ => None
  }

  function Touched(req: Request, locator: map<string, Project>): set<Project> {
    if Found(req, locator).Some? then {Found(req, locator).value} else {}
  }

  /** `callback`. `locator` holds the projects the project locator finds, by
      repository URL; `updater` receives
      the scheduled update. Only the found project and the updater change. */
  method Callback(req: Request, locator: map<string, Project>, updater: Updater) returns (out: Outcome)
    modifies updater, Touched(req, locator)
    ensures out == OutcomeOf(Triage(req), Found(req, locator).Some?)
    ensures Found(req, locator).None? ==> updater.scheduled == old(updater.scheduled)
    ensures Found(req, locator).Some? ==>
              var p := Found(req, locator).value;
              p.Metadata() == Apply(old(p.Metadata()), req.params) && updater.scheduled == old(updater.scheduled) + [p]
  {
    if Event(req) == Some("ping") {
      assert Triage(req) == Ping;
      return Ok;
    }
    if !IsSet(req.params, HtmlUrl) || !IsSet(req.params, Ref) {
      assert Triage(req) == Malformed;
      return BadRequest;
    }
    if Get(req.params, Ref) != Str(DefaultRef(req.params)) {
      assert Triage(req) == OtherBranch;
      return NotDefaultBranch;
    }
    var url := ToPhpString(Get(req.params, HtmlUrl));
    assert Triage(req) == Lookup(url);
    if url !in locator {
      return NotFound;
    }
    var p := locator[url];
    var flag := Get(req.params, PrivateFlag);
    if flag != Null {
      p.SetVisibility(if flag == Bool(false) then Public else Private);
    }
    p.SetUrl(url);
    if !Truthy(p.repoType) {
      p.SetRepoType(TypeGitHub);
    }
    if !Truthy(p.vcsType) {
      p.SetVcsType(Git);
    }
    updater.ScheduleUpdate(p);
    out := Ok;
  }

  /** A ping is answered OK whatever the locator holds, and nothing is looked
      up, changed or scheduled. */
  lemma PingIsInert(req: Request, locator: map<string, Project>)
    requires Event(req) == Some("ping")
    ensures OutcomeOf(Triage(req), Found(req, locator).Some?) == Ok
    ensures Found(req, locator).None? && Touched(req, locator) == {}
  {
  }

  /** A push that is not a ping and lacks the repository URL or the ref is a
      bad request, whatever the locator holds: the shape check comes before
      the branch check and the lookup. */
  lemma MalformedIsBadRequest(req: Request, locator: map<string, Project>)
    requires Event(req) != Some("ping")
    requires !IsSet(req.params, HtmlUrl) || !IsSet(req.params, Ref)
    ensures OutcomeOf(Triage(req), Found(req, locator).Some?) == BadRequest
    ensures Touched(req, locator) == {}
  {
  }

  /** A well-formed push to another branch is a benign no-op for every
      locator: nothing is looked up, changed or scheduled. */
  lemma OtherBranchIsNoOp(req: Request, locator: map<string, Project>)
    requires Event(req) != Some("ping") && IsSet(req.params, HtmlUrl) && IsSet(req.params, Ref)
    requires Get(req.params, Ref) != Str(DefaultRef(req.params))
    ensures OutcomeOf(Triage(req), Found(req, locator).Some?) == NotDefaultBranch
    ensures Touched(req, locator) == {}
  {
  }

  /** A push of `refs/heads/feature` to a repository whose default branch is
      `main` is not acted on. */
  lemma FeatureBranchIsIgnored(req: Request)
    requires Event(req) != Some("ping") && IsSet(req.params, HtmlUrl)
    requires Get(req.params, Ref) == Str("refs/heads/feature")
    requires Get(req.params, DefaultBranch) == Str("main")
    ensures Triage(req) == OtherBranch
  {
  }

  /** The default branch is read without `isset`: when the payload has none,
      exactly the ref `refs/heads/` is taken for the default branch. */
  lemma MissingDefaultBranchReadsAsEmpty(req: Request)
    requires Event(req) != Some("ping") && IsSet(req.params, HtmlUrl)
    requires !IsSet(req.params, DefaultBranch)
    ensures Triage(req).Lookup? <==> Get(req.params, Ref) == Str("refs/heads/")
  {
  }

  /** Delivering the same push twice leaves the project as delivering it once. */
  lemma ReplayIsIdempotent(m: Meta, params: Json)
    ensures Apply(Apply(m, params), params) == Apply(m, params)
  {
  }
}
