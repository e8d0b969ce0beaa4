/**
 * RepositoryService: lookups of a repository and of one of its tags. The
 * repository and tag names are put into the path as they are, unescaped.
 * (Client has no field that holds a RepositoryService; one is reached by
 * viewing the shared service as one.)
 */
module Repositories {
  import opened Wrappers
  import opened Text
  import opened Decimal
  import opened Client
  import Webhooks

  datatype Permissions = Permissions(read: bool, write: bool, admin: bool)

  /** Repository, without its time field. */
  datatype Repository = Repository(
    user: string, name: string, namespace: string, repositoryType: string, status: int,
    description: string, isPrivate: bool, isAutomated: bool, canEdit: bool,
    starCount: int, pullCount: int, isMigrated: bool, hasStarred: bool,
    fullDescription: Option<string>, affiliation: string, permissions: Permissions)

  const ZeroRepository: Repository :=
    Repository("", "", "", "", 0, "", false, false, false, 0, 0, false, false, None, "", Permissions(false, false, false))

  datatype Image = Image(architecture: string, features: string, variant: Option<string>, digest: string,
                         os: string, osFeatures: string, osVersion: Option<string>, size: int)

  /** Tag, without its time field. */
  datatype Tag = Tag(creator: int, id: int, imageId: Option<string>, images: seq<Image>, lastUpdater: int,
                     lastUpdaterUsername: string, name: string, repository: int, fullSize: int, v2: bool)

  const ZeroTag: Tag := Tag(0, 0, None, [], 0, "", "", 0, 0, false)

  function FindCall(repo: string): (c: Call)
    ensures c.verb == "GET" && !c.hasIn && c.hasOut
    ensures RelativeDir(c.path) && StartsWith(c.path, "v2/repositories/" + repo)
  {
    Call("GET", "v2/repositories/" + repo + "/", false, true)
  }

  function FindTagCall(repo: string, tag: string): (c: Call)
    ensures c.verb == "GET" && !c.hasIn && c.hasOut
    ensures RelativeDir(c.path) && StartsWith(c.path, FindCall(repo).path)
  {
    Call("GET", "v2/repositories/" + repo + "/tags/" + tag + "/", false, true)
  }

  /** The webhook collection of a repository lies under the repository's own path. */
  lemma WebhooksUnderRepository(repo: string)
    ensures StartsWith(Webhooks.ListCall(repo).path, FindCall(repo).path)
  {
    assert Webhooks.ListCall(repo).path == FindCall(repo).path + "webhooks/";
  }

  /**
   * Because the repository name is not escaped, a name holding '/' can
   * address another resource: looking up the repository "<r>/webhooks/<id>/hooks"
   * requests the hook list of webhook <id> of repository <r>.
   */
  lemma UnescapedRepositoryName(r: string, id: int)
    ensures FindCall(r + "/webhooks/" + Dec(id) + "/hooks").path == Webhooks.ListHooksCall(r, id).path
  {
  }

  method Find(s: Service, repo: string, env: Env<Repository>) returns (out: Repository, res: Response?, err: Option<DoError>)
    ensures var o := Execute(s.client.dumpHook, s.client.TransportOf(), FindCall(repo), env);
      Reports(o, res, err) && out == o.out.GetOr(ZeroRepository)
    ensures res != null ==> fresh(res) && res.page == ZeroPage
  {
    var decoded;
    res, err, decoded := s.client.Do(FindCall(repo), env);
    out := decoded.GetOr(ZeroRepository);
  }

  method FindTag(s: Service, repo: string, tag: string, env: Env<Tag>) returns (out: Tag, res: Response?, err: Option<DoError>)
    ensures var o := Execute(s.client.dumpHook, s.client.TransportOf(), FindTagCall(repo, tag), env);
      Reports(o, res, err) && out == o.out.GetOr(ZeroTag)
    ensures res != null ==> fresh(res) && res.page == ZeroPage
  {
    var decoded;
    res, err, decoded := s.client.Do(FindTagCall(repo, tag), env);
    out := decoded.GetOr(ZeroTag);
  }
}
