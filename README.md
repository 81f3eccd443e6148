# Traduttore webhook handlers, modelled in Dafny

Traduttore receives push webhooks from code hosts and schedules an update of
the matching translation project. This project models the part that decides
what to do with such a request:

- the handler factory, which picks the provider's handler from marker headers
  in a fixed order (Gitea, GitHub, GitLab, Bitbucket) and then passes the choice
  through the `traduttore.webhook_handler` filter;
- the GitHub and Bitbucket permission callbacks, which check the event header,
  the configured secret, the `x-hub-signature` header and the prefixed HMAC;
- the GitHub and Bitbucket callbacks, which turn the decoded payload into one
  outcome (OK, not the default branch, 400, 404) and, on success, update the
  project's repository metadata and schedule exactly one update.

Files, one module each:

- `php_values.dfy` (`PhpValues`): PHP's view of the request parameters. `Json`
  is a decoded value, and `Null` stands for both null and a missing key.
  `Truthy` is what `if ( $x )` tests on a string or null, the negation of
  `! $x`. `Get` and `IsSet` read and `isset` a nested path. `ToPhpString` is
  the conversion that `.` applies.
- `requests.dfy` (`Requests`): the request as headers, raw body and
  parameters, and the `Outcome` a callback answers. `Hmac` is the type of
  `hash_hmac`. The signature functions and the permission callbacks take it
  as a parameter, and so does `CrossProvider.SignatureGatesAreDisjoint`.
- `projects.dfy` (`Projects`): the `Project` class with its four mutable
  fields and setters, the `Updater` with a ghost log of scheduled projects,
  and the two write rules both callbacks share.
- `github.dfy` (`GitHubHandler`), `bitbucket.dfy` (`BitbucketHandler`): each
  permission callback as a function, each callback as a method that changes
  the project in place. The method is proved against pure functions: `Triage`,
  `OutcomeOf`, `Apply` and `Found` for GitHub, `Respond`, `Apply` and `Found`
  for Bitbucket.
- `factory.dfy` (`HandlerFactory`): `get_handler` as a function, plus a
  reference definition of the same precedence as an ordered table scanned
  first-match-wins.
- `cross_provider.dfy` (`CrossProvider`): properties that relate the two
  handlers.

Where the code and the intended design differ, the model follows the code:

- The factory has no SourceForge route. Only four marker headers are tested.
- The Bitbucket callback filters no branch. Every push with a repository URL
  and a known project schedules an update.
- A header or a stored type counts as missing when it is null, `""` or `"0"`.
  This is PHP truthiness, so `"0"` is missing too, not only an absent or empty
  value.
- GitHub's `repository.default_branch` is read without `isset`. An absent
  value reads as `""`, so a push whose ref is exactly `refs/heads/` passes
  the branch check (`GitHubHandler.MissingDefaultBranchReadsAsEmpty`).
- Bitbucket's `repository.scm` is read without `isset`. An absent value is not
  `"git"`, so the VCS type becomes `hg`.
- The URL is always written, and so is the visibility whenever the privacy
  flag is set. Only the repository type and the VCS type are filled in only
  when unset.

## Model

| member | source | states |
|---|---|---|
| `PhpValues.ToPhpString` | inc/WebhookHandler/GitHub.php:75 | the string the default branch contributes after `refs/heads/`: a string stays itself, null, absent and `false` become "", `true` becomes "1", an integer its decimal form with a leading "-" when negative, an array "Array" |
| `PhpValues.DecimalRoundTrip` | inc/WebhookHandler/GitHub.php:75 | the decimal form of a number denotes that number, so two different integer default branches give two different refs |
| `Projects.Project.SetVisibility` | inc/WebhookHandler/GitHub.php:87 | only the visibility changes, to the given value |
| `Projects.Project.SetUrl` | inc/WebhookHandler/GitHub.php:90 | only the repository URL changes, to the given value |
| `Projects.Project.SetRepoType` | inc/WebhookHandler/GitHub.php:93 | only the repository type changes, to the given value |
| `Projects.Project.SetVcsType` | inc/WebhookHandler/GitHub.php:97 | only the VCS type changes, to the given value |
| `Projects.Updater.ScheduleUpdate` | inc/WebhookHandler/GitHub.php:100 | each call schedules exactly one update, for the given project |
| `Projects.VisibilityAfter` | inc/WebhookHandler/Bitbucket.php:72-74 | an unset flag keeps the visibility; a set flag gives `public` exactly when it is `false` and `private` for every other value |
| `Projects.FillIfUnset` | inc/WebhookHandler/Bitbucket.php:78-84 | a truthy stored type is never overwritten; a missing one is filled in |
| `GitHubHandler.PermissionCallback` | inc/WebhookHandler/GitHub.php:29-57 | refused without the event header or for an event other than ping or push; a ping is allowed with or without secret and signature; a push fails closed without the secret or the signature, and is allowed exactly when the signature header equals `sha1=` + HMAC-SHA1(body, secret) |
| `GitHubHandler.Triage` | inc/WebhookHandler/GitHub.php:62-84 | the callback's checks in order: ping exactly when the event is `ping`; malformed exactly when not a ping and the repository URL or the ref is unset; another branch exactly when the ref is not `refs/heads/` + default branch; otherwise the lookup by the repository URL |
| `GitHubHandler.Apply` | inc/WebhookHandler/GitHub.php:86-98 | after a push the URL is the payload's; the visibility changes only when `private` is set (public iff exactly false); type `github` and VCS type `git` are written only when unset |
| `GitHubHandler.Callback` | inc/WebhookHandler/GitHub.php:62-103 | the outcome matches `Triage` and the lookup; when no project is found nothing changes and nothing is scheduled; otherwise the project's metadata becomes `Apply` of its old metadata and exactly one update is scheduled for it |
| `GitHubHandler.PingIsInert` | inc/WebhookHandler/GitHub.php:66-68 | a ping is answered OK with no lookup, no change and no update |
| `GitHubHandler.MalformedIsBadRequest` | inc/WebhookHandler/GitHub.php:70-72 | a non-ping payload without the repository URL or the ref is a bad request, for every locator, before the branch check and the lookup |
| `GitHubHandler.OtherBranchIsNoOp` | inc/WebhookHandler/GitHub.php:74-77 | a well-formed push to another branch answers "Not the default branch", for every locator, with nothing looked up, changed or scheduled |
| `GitHubHandler.FeatureBranchIsIgnored` | inc/WebhookHandler/GitHub.php:74-77 | a push of `refs/heads/feature` to a repository whose default branch is `main` is not the default branch |
| `GitHubHandler.MissingDefaultBranchReadsAsEmpty` | inc/WebhookHandler/GitHub.php:75 | without a default branch in the payload, exactly the ref `refs/heads/` reaches the lookup |
| `GitHubHandler.ReplayIsIdempotent` | inc/WebhookHandler/GitHub.php:86-98 | applying the same push twice leaves the same metadata as applying it once |
| `BitbucketHandler.PermissionCallback` | inc/WebhookHandler/Bitbucket.php:29-53 | refused unless the event is `repo:push`; fails closed without the secret or the signature; allowed exactly when the signature header equals `sha256=` + HMAC-SHA256(body, secret) |
| `BitbucketHandler.VcsOf` | inc/WebhookHandler/Bitbucket.php:83 | `git` exactly when `repository.scm` is the string "git", `hg` for every other value including an absent one |
| `BitbucketHandler.Apply` | inc/WebhookHandler/Bitbucket.php:72-84 | after a push the URL is the payload's; the visibility changes only when `is_private` is set (public iff exactly false); type `bitbucket` and the scm's VCS type are written only when unset |
| `BitbucketHandler.Respond` | inc/WebhookHandler/Bitbucket.php:58-89 | bad request exactly when the repository URL is unset; not found exactly when it is set and no project matches; OK exactly when a project is found; never "Not the default branch" |
| `BitbucketHandler.Callback` | inc/WebhookHandler/Bitbucket.php:58-89 | the outcome is `Respond`; without a project nothing changes and nothing is scheduled; with one its metadata becomes `Apply` of its old metadata and exactly one update is scheduled for it |
| `BitbucketHandler.ReplayIsIdempotent` | inc/WebhookHandler/Bitbucket.php:72-84 | applying the same push twice leaves the same metadata as applying it once |
| `HandlerFactory.BuiltinHandler` | inc/WebhookHandlerFactory.php:31-45 | a Gitea marker always selects Gitea; GitHub iff its marker and no Gitea marker; GitLab iff its marker and neither earlier one; Bitbucket iff `x-event-key` and none of the earlier three; no handler iff none of the four markers |
| `HandlerFactory.GetHandler` | inc/WebhookHandlerFactory.php:47-53 | the result is the filter applied once to the built-in choice and the request; when the filter returns the choice it is given, the result is the built-in choice |
| `HandlerFactory.UnfilteredIsBuiltin` | inc/WebhookHandlerFactory.php:47-53 | with an identity filter the result is the built-in choice |
| `HandlerFactory.FirstMarked` | inc/WebhookHandlerFactory.php:37-45 | the position of the first table entry whose marker the request carries; none exactly when no entry's marker is present |
| `HandlerFactory.BuiltinIsFirstMatch` | inc/WebhookHandlerFactory.php:34-45 | the if/elseif chain equals a first-match-wins scan of the ordered precedence table, so with overlapping markers the earliest-ranked provider wins |
| `CrossProvider.SignatureGatesAreDisjoint` | inc/WebhookHandler/GitHub.php:54-56 | no request passes both the GitHub and the Bitbucket gate except as a GitHub ping, whatever the secrets and the HMAC |
| `CrossProvider.SignaturePrefixesDiffer` | inc/WebhookHandler/Bitbucket.php:50 | a `sha1=` signature never equals a `sha256=` signature |
| `CrossProvider.FirstWriterWins` | inc/WebhookHandler/Bitbucket.php:78-84 | a repository type and VCS type set by one provider's push survive a later push of the other provider |

## Left out

- HMAC-SHA1 and HMAC-SHA256 are not computed. `hash_hmac` is the parameter
  `hmac`, so every property holds for any keyed hash. That a changed body
  breaks the signature is a property of the hash and is not stated.
- `hash_equals` is modelled as string equality. Its constant running time
  cannot be expressed here.
- WordPress REST plumbing is not modelled. Header names are taken as already
  lower-case and single-valued, and the JSON body as already decoded into
  `Json`. JSON floats are not represented, and PHP's notices on missing keys
  are not modelled.
- `ProjectLocator::get_project` is not part of this model. Its result is a map
  from repository URL to project, and its URL normalisation is not modelled.
  The URL it receives is the PHP string form of the payload value.
- `Updater::schedule_update` is not part of this model. It is a call that
  appends the project to a ghost log, and the scheduling of the update job
  is not modelled.
- The Gitea, GitLab and SourceForge handlers are not part of this model. They
  appear only as the provider names the factory can choose.
- The REST route that runs a handler's permission callback and then its
  callback is not part of this model. Each is modelled on its own.
- The repository type values `github` and `bitbucket` stand for the
  `Repository::TYPE_GITHUB` and `Repository::TYPE_BITBUCKET` constants. The
  Repository and Project classes are not part of this model. Project's
  getters are modelled as returning the stored string or null.
- `PhpValues.ToPhpString`: PHP decodes a JSON integer above PHP_INT_MAX to a
  float, which prints differently. `Int` is unbounded here, so that case is not
  modelled.
- Reading through a payload value that is not an array gives null here. PHP's
  string-offset behaviour in that case is not modelled.
