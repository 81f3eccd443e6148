/** Properties that relate the GitHub and Bitbucket handlers to each other. */
module CrossProvider {
  import opened PhpValues
  import opened Requests
  import opened Projects
  import GitHubHandler
  import BitbucketHandler

  /** Both handlers read the same `x-hub-signature` header, but their
      schemes are told apart by the prefix: no header value is both a valid
      `sha1=` and a valid `sha256=` signature. So no request passes both
      gates except as a GitHub ping, whatever the secrets and the digest. */
  lemma SignatureGatesAreDisjoint(req: Request, gitHubSecret: Option<string>, bitbucketSecret: Option<string>, hmac: Hmac)
    requires GitHubHandler.PermissionCallback(req, gitHubSecret, hmac)
    requires BitbucketHandler.PermissionCallback(req, bitbucketSecret, hmac)
    ensures GitHubHandler.Event(req) == Some("ping")
  {
    match (gitHubSecret, bitbucketSecret)
    case (Some(g), Some(b)) =>
      SignaturePrefixesDiffer(hmac(Sha1, req.body, g), hmac(Sha256, req.body, b));
    case _ =>
  }

  /** A `sha1=` signature and a `sha256=` signature differ in their fourth
      character, whatever digests follow the prefixes. */
  lemma SignaturePrefixesDiffer(sha1Digest: string, sha256Digest: string)
    ensures "sha1=" + sha1Digest != "sha256=" + sha256Digest
  {
    var sha1Prefix, sha256Prefix := "sha1=", "sha256=";
    assert (sha1Prefix + sha1Digest)[3] == sha1Prefix[3] == '1';
    assert (sha256Prefix + sha256Digest)[3] == sha256Prefix[3] == '2';
  }

  /** The repository type and VCS type are first-writer-wins: a project
      first updated by a GitHub push keeps `github` and `git` when a
      Bitbucket push for it arrives later, and the other way round. */
  lemma FirstWriterWins(m: Meta, gitHubParams: Json, bitbucketParams: Json)
    ensures var r := BitbucketHandler.Apply(GitHubHandler.Apply(m, gitHubParams), bitbucketParams);
            r.repoType == GitHubHandler.Apply(m, gitHubParams).repoType
            && r.vcsType == GitHubHandler.Apply(m, gitHubParams).vcsType
    ensures var r := GitHubHandler.Apply(BitbucketHandler.Apply(m, bitbucketParams), gitHubParams);
            r.repoType == BitbucketHandler.Apply(m, bitbucketParams).repoType
            && r.vcsType == BitbucketHandler.Apply(m, bitbucketParams).vcsType
  {
  }
}
