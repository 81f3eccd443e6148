/** The webhook handler factory: picks the provider's handler from the
    marker headers in a fixed order of precedence, then lets the
    `traduttore.webhook_handler` filter replace the choice. */
module HandlerFactory {
  import opened PhpValues
  import opened Requests

  /** The handler classes. Gitea's and GitLab's handlers are not part of this
      model beyond their names; `Other` is a class a filter may supply. */
  datatype Provider = Gitea | GitHub | GitLab | Bitbucket | Other(name: string)

  /** A handler instance: its class and the request it was built for. */
  datatype Handler = Handler(provider: Provider, request: Request)

  /** A callback registered on the `traduttore.webhook_handler` filter: it
      receives the chosen handler (or none) and the request. */
  type Filter = (Option<Handler>, Request) -> Option<Handler>

  const GiteaMarker := "x-gitea-event"
  const GitHubMarker := "x-github-event"
  const GitLabMarker := "x-gitlab-event"
  const BitbucketMarker := "x-event-key"

  /** The built-in choice. Gitea sends GitHub-style event headers as well,
      so its marker is tested first. */
  function BuiltinHandler(req: Request): (h: Option<Handler>)
    ensures h.Some? ==> h.value.request == req
    ensures HasHeader(req, GiteaMarker) ==> h == Some(Handler(Gitea, req))
    ensures h == Some(Handler(GitHub, req)) <==>
              HasHeader(req, GitHubMarker) && !HasHeader(req, GiteaMarker)
    ensures h == Some(Handler(GitLab, req)) <==>
              HasHeader(req, GitLabMarker) && !HasHeader(req, GiteaMarker) && !HasHeader(req, GitHubMarker)
    ensures h == Some(Handler(Bitbucket, req)) <==>
              HasHeader(req, BitbucketMarker) && !HasHeader(req, GiteaMarker) && !HasHeader(req, GitHubMarker)
              && !HasHeader(req, GitLabMarker)
    ensures h == None <==>
              !HasHeader(req, GiteaMarker) && !HasHeader(req, GitHubMarker) && !HasHeader(req, GitLabMarker)
              && !HasHeader(req, BitbucketMarker)
  {
    if HasHeader(req, GiteaMarker) then Some(Handler(Gitea, req))
    else if HasHeader(req, GitHubMarker) then Some(Handler(GitHub, req))
    else if HasHeader(req, GitLabMarker) then Some(Handler(GitLab, req))
    else if HasHeader(req, BitbucketMarker) then Some(Handler(Bitbucket, req))
    else None
  }

  /** `get_handler`: the built-in choice passed through the filter, once. */
  function GetHandler(req: Request, filter: Filter): (h: Option<Handler>)
    ensures h == filter(BuiltinHandler(req), req)
    ensures (forall c, r :: filter(c, r) == c) ==> h == BuiltinHandler(req)
  {
    filter(BuiltinHandler(req), req)
  }

  /** With no callback on the filter (WordPress then returns the value it
      was given), the factory returns the built-in choice. */
  lemma UnfilteredIsBuiltin(req: Request)
    ensures GetHandler(req, (h, r) => h) == BuiltinHandler(req)
  {
  }

  /** The precedence as an ordered table of (marker header, handler class). */
  const Precedence: seq<(string, Provider)> :=
    [(GiteaMarker, Gitea), (GitHubMarker, GitHub), (GitLabMarker, GitLab), (BitbucketMarker, Bitbucket)]

  /** The position of the first table entry whose marker the request carries. */
  function FirstMarked(req: Request, table: seq<(string, Provider)>): (r: Option<nat>)
    ensures r.Some? ==> r.value < |table| && HasHeader(req, table[r.value].0)
    ensures r.Some? ==> forall j :: 0 <= j < r.value ==> !HasHeader(req, table[j].0)
    ensures r.None? ==> forall j :: 0 <= j < |table| ==> !HasHeader(req, table[j].0)
    decreases |table|
  {
    if table == [] then None
    else if HasHeader(req, table[0].0) then Some(0)
    else match FirstMarked(req, table[1..])
      case None => None
      case Some(k) => Some(k + 1)
  }

  /** The choice a first-match-wins scan of a table makes. */
  function ChooseByTable(req: Request, table: seq<(string, Provider)>): Option<Handler> {
    match FirstMarked(req, table)
    case None => None
    case Some(i) => Some(Handler(table[i].1, req))
  }

  /** The factory's if/elseif chain is the first-match-wins scan of the
      precedence table: whichever markers overlap, the earliest-ranked
      provider wins, and no marker means no handler. */
  lemma {:induction false} BuiltinIsFirstMatch(req: Request)
    ensures BuiltinHandler(req) == ChooseByTable(req, Precedence)
  {
    var r := FirstMarked(req, Precedence);
    assert Precedence[0].0 == GiteaMarker && Precedence[1].0 == GitHubMarker;
    assert Precedence[2].0 == GitLabMarker && Precedence[3].0 == BitbucketMarker;
    if r.Some? {
      var i := r.value;
      assert i == 0 || i == 1 || i == 2 || i == 3;
      if i > 0 { assert !HasHeader(req, Precedence[0].0); }
      if i > 1 { assert !HasHeader(req, Precedence[1].0); }
      if i > 2 { assert !HasHeader(req, Precedence[2].0); }
    }
  }
}
