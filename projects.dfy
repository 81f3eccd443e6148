/** The project record the handlers update, the update scheduler they hand
    it to, and the write rules both providers'
    callbacks share. */
module Projects {
  import opened PhpValues

  const Public := "public"
  const Private := "private"
  const TypeGitHub := "github"
  const TypeBitbucket := "bitbucket"
  const Git := "git"
  const Mercurial := "hg"

  /** The repository metadata of a project, as its getters return it. */
  datatype Meta = Meta(visibility: Option<string>, url: Option<string>, repoType: Option<string>, vcsType: Option<string>)

  /** A project whose repository metadata the callbacks set in place. */
  class Project {
    var visibility: Option<string>
    var url: Option<string>
    var repoType: Option<string>
    var vcsType: Option<string>

    function Metadata(): Meta
      reads this
    {
      Meta(visibility, url, repoType, vcsType)
    }

    method SetVisibility(v: string)
      modifies this
      ensures Metadata() == old(Metadata()).(visibility := Some(v))
    {
      visibility := Some(v);
    }

    method SetUrl(u: string)
      modifies this
      ensures Metadata() == old(Metadata()).(url := Some(u))
    {
      url := Some(u);
    }

    method SetRepoType(t: string)
      modifies this
      ensures Metadata() == old(Metadata()).(repoType := Some(t))
    {
      repoType := Some(t);
    }

    method SetVcsType(t: string)
      modifies this
      ensures Metadata() == old(Metadata()).(vcsType := Some(t))
    {
      vcsType := Some(t);
    }
  }

  /** The update scheduler. Only the requests it receives are modelled: a
      log of the projects handed to it, one entry per call. */
  class Updater {
    ghost var scheduled: seq<Project>

    method ScheduleUpdate(p: Project)
      modifies this
      ensures scheduled == old(scheduled) + [p]
    {
      scheduled := scheduled + [p];
    }
  }

  /** The visibility after a callback, given the provider's privacy flag:
      an unset flag keeps what is there, exactly `false` makes the project
      public and any other set value makes it private. */
  function VisibilityAfter(current: Option<string>, flag: Json): (r: Option<string>)
    ensures flag == Null ==> r == current
    ensures flag != Null ==> (r == Some(Public) <==> flag == Bool(false))
    ensures flag != Null ==> (r == Some(Private) <==> flag != Bool(false))
  {
    if flag == Null then current
    else if flag == Bool(false) then Some(Public)
    else Some(Private)
  }

  /** A type field after a callback: filled in when falsy, kept otherwise. */
  function FillIfUnset(current: Option<string>, v: string): (r: Option<string>)
    ensures Truthy(current) ==> r == current
    ensures !Truthy(current) ==> r == Some(v)
  {
    if Truthy(current) then current else Some(v)
  }
}
