/**
  The router's route table: which handler answers which method and path,
  and whether the `auth` middleware runs first.
 */
module Routes {
  import opened Types

  datatype Verb = Get | Post | Patch | Delete

  /** The handlers the router mounts, with the path parameter they receive. */
  datatype Handler =
    | GetPosts
    | CreatePost
    | UpdatePost(id: Id)
    | DeletePost(id: Id)
    | LikePost(id: Id)

  /** The matched handler and whether `auth` guards it. */
  datatype RouteMatch = RouteMatch(handler: Handler, guarded: bool)

  /**
    The five routes, matched on the path's segments (`[]` is `/`, `[id]`
    is `/:id`, `[id, "likePost"]` is `/:id/likePost`). A `:id` parameter
    never matches an empty segment.
   */
  function Route(verb: Verb, path: seq<string>): (r: Option<RouteMatch>)
    ensures r.Some? ==> (r.value.guarded <==> verb != Get)
    ensures verb == Get && path != [] ==> r.None?
    ensures r.Some? && r.value.handler.LikePost? ==> verb == Patch && path == [r.value.handler.id, "likePost"]
    ensures r.Some? && (r.value.handler.UpdatePost? || r.value.handler.DeletePost?) ==> path == [r.value.handler.id]
    ensures path == [] && verb == Get ==> r == Some(RouteMatch(GetPosts, false))
    ensures path == [] && verb == Verb.Post ==> r == Some(RouteMatch(CreatePost, true))
    // Only the five mounted routes match.
    ensures r.Some? ==>
      || (path == [] && verb in {Get, Verb.Post})
      || (|path| == 1 && path[0] != "" && verb in {Patch, Delete})
      || (|path| == 2 && path[0] != "" && path[1] == "likePost" && verb == Patch)
  {
    if |path| == 0 then
      match verb
      case Get => Some(RouteMatch(GetPosts, false))
      case Post => Some(RouteMatch(CreatePost, true))
      case _ => None
    else if path[0] == "" then None
    else if |path| == 1 then
      match verb
      case Patch => Some(RouteMatch(UpdatePost(path[0]), true))
      case Delete => Some(RouteMatch(DeletePost(path[0]), true))
      case _ => None
    else if |path| == 2 && verb == Patch && path[1] == "likePost" then
      Some(RouteMatch(LikePost(path[0]), true))
    else None
  }

  /** There is no `GET /:id`: `getPost` is defined but never mounted. */
  lemma NoSinglePostRoute(id: Id)
    ensures Route(Get, [id]) == None
  {
  }

  /** Every route mounted for a non-empty id reaches the handler with that id. */
  lemma IdRoutes(id: Id)
    requires id != ""
    ensures Route(Patch, [id]) == Some(RouteMatch(UpdatePost(id), true))
    ensures Route(Delete, [id]) == Some(RouteMatch(DeletePost(id), true))
    ensures Route(Patch, [id, "likePost"]) == Some(RouteMatch(LikePost(id), true))
  {
  }
}
