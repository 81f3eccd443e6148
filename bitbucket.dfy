/** The Bitbucket webhook handler: its permission gate on the `x-event-key`
    and `x-hub-signature` headers, and its callback, which updates the
    matching project for every push, whatever the branch. */
module BitbucketHandler {
  import opened PhpValues
  import opened Requests
  import opened Projects

  const EventHeader := "x-event-key"
  const SignatureHeader := "x-hub-signature"

  const Href: seq<string> := ["repository", "links", "html", "href"]
  const IsPrivate: seq<string> := ["repository", "is_private"]
  const Scm: seq<string> := ["repository", "scm"]

  function Event(req: Request): Option<string> {
    Header(req, EventHeader)
  }

  /** The signature header a push must carry: `sha256=` and the hex
      HMAC-SHA256 of the raw body keyed with the configured secret. */
  function ExpectedSignature(req: Request, secret: string, hmac: Hmac): string {
    "sha256=" + hmac(Sha256, req.body, secret)
  }

  /** `permission_callback`. `secret` is the configured Bitbucket secret,
      None when it is not defined. Only a `repo:push` event is let through,
      and only with the secret and a signature header equal to the expected
      one. */
  function PermissionCallback(req: Request, secret: Option<string>, hmac: Hmac): (allowed: bool)
    ensures !HasHeader(req, EventHeader) || Event(req) != Some("repo:push") ==> !allowed
    ensures secret.None? || !HasHeader(req, SignatureHeader) ==> !allowed
    ensures allowed <==>
              Event(req) == Some("repo:push") && secret.Some?
              && Header(req, SignatureHeader) == Some(ExpectedSignature(req, secret.value, hmac))
  {
    if !HasHeader(req, EventHeader) then false
    else if Event(req) != Some("repo:push") then false
    else if secret.None? then false
    else if !HasHeader(req, SignatureHeader) then false
    else Header(req, SignatureHeader).value == ExpectedSignature(req, secret.value, hmac)
  }

  /** The VCS type a push names: `git` when `repository.scm` is exactly the
      string "git", Mercurial otherwise (an absent `scm` reads as null). */
  function VcsOf(params: Json): (v: string)
    ensures v == Git <==> Get(params, Scm) == Str("git")
    ensures v != Git ==> v == Mercurial
  {
    if Get(params, Scm) == Str("git") then Git else Mercurial
  }

  /** The project's metadata after a push: the URL is always the payload's,
      the visibility follows `repository.is_private` when it is set, and the
      repository type and VCS type are filled in only when unset. */
  function Apply(m: Meta, params: Json): (r: Meta)
    ensures r.url == Some(ToPhpString(Get(params, Href)))
    ensures !IsSet(params, IsPrivate) ==> r.visibility == m.visibility
    ensures Get(params, IsPrivate) == Bool(false) ==> r.visibility == Some(Public)
    ensures IsSet(params, IsPrivate) && Get(params, IsPrivate) != Bool(false) ==> r.visibility == Some(Private)
    ensures r.repoType == if Truthy(m.repoType) then m.repoType else Some(TypeBitbucket)
    ensures r.vcsType == if Truthy(m.vcsType) then m.vcsType else Some(VcsOf(params))
  {
    Meta(VisibilityAfter(m.visibility, Get(params, IsPrivate)),
         Some(ToPhpString(Get(params, Href))),
         FillIfUnset(m.repoType, TypeBitbucket),
         FillIfUnset(m.vcsType, VcsOf(params)))
  }

  /** The project the callback updates: the one the locator holds for the
      payload's repository URL, if that URL is set. */
  function Found(req: Request, locator: map<string, Project>): Option<Project> {
    var url := ToPhpString(Get(req.params, Href));
    if IsSet(req.params, Href) && url in locator then Some(locator[url]) else None
  }

  function Touched(req: Request, locator: map<string, Project>): set<Project> {
    if Found(req, locator).Some? then {Found(req, locator).value} else {}
  }

  /** The response of the callback: a bad request without a repository URL,
      not found without a project, OK otherwise. No branch is filtered. */
  function Respond(req: Request, locator: map<string, Project>): (out: Outcome)
    ensures out == BadRequest <==> !IsSet(req.params, Href)
    ensures out == NotFound <==> IsSet(req.params, Href) && Found(req, locator).None?
    ensures out == Ok <==> Found(req, locator).Some?
    ensures out != NotDefaultBranch
  {
    if !IsSet(req.params, Href) then BadRequest
    else if Found(req, locator).None? then NotFound
    else Ok
  }

  /** `callback`. `locator` holds the projects the project locator finds, by
      repository URL; `updater` receives the scheduled update. Only the found
      project and the updater change. */
  method Callback(req: Request, locator: map<string, Project>, updater: Updater) returns (out: Outcome)
    modifies updater, Touched(req, locator)
    ensures out == Respond(req, locator)
    ensures Found(req, locator).None? ==> updater.scheduled == old(updater.scheduled)
    ensures Found(req, locator).Some? ==>
              var p := Found(req, locator).value;
              p.Metadata() == Apply(old(p.Metadata()), req.params) && updater.scheduled == old(updater.scheduled) + [p]
  {
    if !IsSet(req.params, Href) {
      return BadRequest;
    }
    var url := ToPhpString(Get(req.params, Href));
    if url !in locator {
      return NotFound;
    }
    var p := locator[url];
    var flag := Get(req.params, IsPrivate);
    if flag != Null {
      p.SetVisibility(if flag == Bool(false) then Public else Private);
    }
    p.SetUrl(url);
    if !Truthy(p.repoType) {
      p.SetRepoType(TypeBitbucket);
    }
    if !Truthy(p.vcsType) {
      p.SetVcsType(VcsOf(req.params));
    }
    updater.ScheduleUpdate(p);
    out := Ok;
  }

  /** Delivering the same push twice leaves the project as delivering it once. */
  lemma ReplayIsIdempotent(m: Meta, params: Json)
    ensures Apply(Apply(m, params), params) == Apply(m, params)
  {
  }
}
