/**
  The request handlers of the posts router over the post collection, and
  the dispatch that runs `auth` before the guarded routes.
 */
module Posts {
  import opened Types
  import opened Likes
  import opened Auth
  import opened Routes

  /** The plain-text body of the 404 sent for a malformed id. */
  function NotFoundText(id: Id): string {
    "No post with id: " + id
  }

  /** `res.status(404).send(`No post with id: ${id}`)`. */
  function NotFound(id: Id): (r: Response)
    ensures r.status == 404 && r.body.TextBody?
    ensures |r.body.plain| == 17 + |id|
    ensures r.body.plain[..17] == "No post with id: " && r.body.plain[17..] == id
  {
    Response(404, TextBody(NotFoundText(id)))
  }

  /** `res.status(code).json({ message })`. */
  function Failure(code: nat, message: string): Response {
    Response(code, JsonBody(Message(message)))
  }

  /**
    `!req.userId` is false: `undefined` and the empty string are falsy,
    every other string is truthy.
   */
  predicate Authenticated(userId: Option<string>): (b: bool)
    ensures userId.None? ==> !b
    ensures userId == Some("") ==> !b
    ensures userId.Some? && userId.value != "" ==> b
  {
    userId.Some? && userId.value != ""
  }

  /**
    `new PostMessage({ ...post, creator: req.userId, createdAt: now })`:
    the body's fields, except that `creator` is the caller's identity
    (absent included) and `createdAt` is the server's clock.
   */
  function NewPost(body: PostBody, userId: Option<string>, now: string): (p: Post)
    ensures p.creator == userId && p.createdAt == Some(now)
    ensures p.title == body.title && p.message == body.message
    ensures p.tags == body.tags && p.selectedFile == body.selectedFile
    ensures p.likes == body.likes.GetOr([])
  {
    Types.Post(body.title, body.message, userId, body.tags, body.selectedFile, body.likes.GetOr([]), Some(now))
  }

  /** Whatever `creator` and `createdAt` the caller sends, the created post is the same. */
  lemma CreatorNotTakenFromBody(body: PostBody, creator: Option<string>, createdAt: Option<string>,
                                userId: Option<string>, now: string)
    ensures NewPost(body.(creator := creator, createdAt := createdAt), userId, now) == NewPost(body, userId, now)
  {
  }

  /**
    The spread copies a `likes` array from the body as it is, so a created
    post can hold the same user id twice.
   */
  lemma CreateKeepsBodyLikes(body: PostBody, userId: Option<string>, now: string, u: string)
    requires body.likes == Some([u, u])
    ensures !NoDup(NewPost(body, userId, now).likes)
  {
    assert NewPost(body, userId, now).likes[0] == NewPost(body, userId, now).likes[1];
  }

  /** `{ creator, title, message, tags, selectedFile, _id: id }`. */
  function UpdateOf(body: PostBody, id: Id): (u: UpdatedPost)
    ensures u.id == id
    ensures u.creator == body.creator && u.title == body.title && u.message == body.message
    ensures u.tags == body.tags && u.selectedFile == body.selectedFile
  {
    UpdatedPost(body.creator, body.title, body.message, body.tags, body.selectedFile, id)
  }

  /** The stored post after `findByIdAndUpdate(id, update)`: the five fields are replaced. */
  function Applied(post: Post, update: UpdatedPost): (r: Post)
    ensures r.likes == post.likes && r.createdAt == post.createdAt
    ensures r.creator == update.creator && r.title == update.title && r.message == update.message
    ensures r.tags == update.tags && r.selectedFile == update.selectedFile
  {
    post.(creator := update.creator, title := update.title, message := update.message,
          tags := update.tags, selectedFile := update.selectedFile)
  }

  /** An update replaces exactly what the body sends: applying it twice is applying it once. */
  lemma AppliedIdempotent(post: Post, update: UpdatedPost)
    ensures Applied(Applied(post, update), update) == Applied(post, update)
  {
  }

  /** An incoming request as the router sees it. */
  datatype Request = Request(verb: Verb, path: seq<string>, authorization: Option<string>, body: PostBody)

  /**
    What the world outside the router supplies to one request: the clock,
    the id the driver assigns to a new document, and, when the store call
    raises, the error's message.
   */
  datatype Env = Env(now: string, newId: Id, fault: Option<string>)

  /** The post collection, reached through the document store. */
  class PostStore {
    var posts: map<Id, Post>
    /** `mongoose.Types.ObjectId.isValid`, whose definition belongs to the driver. */
    const validId: Id -> bool

    constructor(validId: Id -> bool, posts: map<Id, Post>)
      ensures this.validId == validId && this.posts == posts
    {
      this.validId := validId;
      this.posts := posts;
    }

    /** No post lists a user twice among its likes. */
    ghost predicate LikesUnique()
      reads this
    {
      forall id :: id in posts ==> NoDup(posts[id].likes)
    }

    /** `getPosts`: the whole collection, or 404 with the store's error message. */
    method GetPosts(fault: Option<string>) returns (r: Response)
      ensures fault.Some? ==> r == Failure(404, fault.value)
      ensures fault.None? ==> r == Ok(Documents(posts))
    {
      match fault
      case Some(message) => r := Failure(404, message);
      case None => r := Ok(Documents(posts));
    }

    /**
      `getPost`: the post with that id, `null` when there is none, or 404
      with the store's error message.
     */
    method GetPost(id: Id, fault: Option<string>) returns (r: Response)
      ensures fault.Some? ==> r == Failure(404, fault.value)
      ensures fault.None? && id in posts ==> r == Ok(Document(id, posts[id]))
      ensures fault.None? && id !in posts ==> r == Ok(Null)
    {
      if fault.Some? {
        return Failure(404, fault.value);
      }
      if id in posts {
        r := Ok(Document(id, posts[id]));
      } else {
        r := Ok(Null);
      }
    }

    /**
      `createPost`: saves the new post under the id the driver assigns and
      answers 201 with it, or 409 with the store's error message.
     */
    method CreatePost(body: PostBody, userId: Option<string>, now: string, newId: Id, fault: Option<string>)
      returns (r: Response)
      requires newId !in posts
      modifies this
      ensures fault.Some? ==> r == Failure(409, fault.value) && posts == old(posts)
      ensures fault.None? ==>
        && posts == old(posts)[newId := NewPost(body, userId, now)]
        && r == Response(201, JsonBody(Document(newId, NewPost(body, userId, now))))
      ensures old(LikesUnique()) && NoDup(body.likes.GetOr([])) ==> LikesUnique()
    {
      var post := NewPost(body, userId, now);
      match fault
      case Some(message) =>
        r := Failure(409, message);
      case None =>
        posts := posts[newId := post];
        r := Response(201, JsonBody(Document(newId, post)));
    }

    /**
      `updatePost`: a malformed id is answered 404 in plain text before the
      store is touched; otherwise the five body fields replace the stored
      ones (nothing happens when no post has that id) and the locally built
      object is echoed, whatever the store holds. A store error is not
      caught, so no response is sent.
     */
    method UpdatePost(id: Id, body: PostBody, fault: Option<string>) returns (out: Outcome)
      modifies this
      ensures !validId(id) ==> out == Sent(NotFound(id)) && posts == old(posts)
      ensures validId(id) && fault.Some? ==> out == NoResponse && posts == old(posts)
      ensures validId(id) && fault.None? ==> out == Sent(Ok(Echo(UpdateOf(body, id))))
      ensures validId(id) && fault.None? && id in old(posts) ==>
        posts == old(posts)[id := Applied(old(posts)[id], UpdateOf(body, id))]
      ensures id !in old(posts) ==> posts == old(posts)
      ensures old(LikesUnique()) ==> LikesUnique()
    {
      if !validId(id) {
        return Sent(NotFound(id));
      }
      var update := UpdateOf(body, id);
      if fault.Some? {
        return NoResponse;
      }
      if id in posts {
        posts := posts[id := Applied(posts[id], update)];
      }
      out := Sent(Ok(Echo(update)));
    }

    /**
      `deletePost`: a malformed id is answered 404 in plain text; otherwise
      the post (if any) is removed and success is reported in every case.
     */
    method DeletePost(id: Id, fault: Option<string>) returns (out: Outcome)
      modifies this
      ensures !validId(id) ==> out == Sent(NotFound(id)) && posts == old(posts)
      ensures validId(id) && fault.Some? ==> out == NoResponse && posts == old(posts)
      ensures validId(id) && fault.None? ==>
        out == Sent(Ok(Message("Post deleted successfully."))) && posts == old(posts) - {id}
      ensures old(LikesUnique()) ==> LikesUnique()
    {
      if !validId(id) {
        return Sent(NotFound(id));
      }
      if fault.Some? {
        return NoResponse;
      }
      posts := posts - {id};
      out := Sent(Ok(Message("Post deleted successfully.")));
    }

    /**
      `likePost`: without a user id it answers `{ message: "Unauthenticated" }`
      with status 200, then a malformed id gets the plain-text 404, both
      before the store is touched. Otherwise the caller's like is toggled
      and the stored post is sent back. A missing post makes `post.likes`
      throw and a store error is not caught: no response is sent.
     */
    method LikePost(id: Id, userId: Option<string>, fault: Option<string>) returns (out: Outcome)
      modifies this
      ensures !Authenticated(userId) ==> out == Sent(Ok(Message("Unauthenticated"))) && posts == old(posts)
      ensures Authenticated(userId) && !validId(id) ==> out == Sent(NotFound(id)) && posts == old(posts)
      ensures Authenticated(userId) && validId(id) && (fault.Some? || id !in old(posts)) ==>
        out == NoResponse && posts == old(posts)
      ensures Authenticated(userId) && validId(id) && fault.None? && id in old(posts) ==>
        && posts == old(posts)[id := old(posts)[id].(likes := Toggle(old(posts)[id].likes, userId.value))]
        && out == Sent(Ok(Document(id, posts[id])))
      ensures old(LikesUnique()) ==> LikesUnique()
    {
      if !Authenticated(userId) {
        return Sent(Ok(Message("Unauthenticated")));
      }
      if !validId(id) {
        return Sent(NotFound(id));
      }
      if fault.Some? || id !in posts {
        return NoResponse;
      }
      var post := posts[id];
      var user := userId.value;
      var index := FindIndex(post.likes, user);
      if index == -1 {
        post := post.(likes := post.likes + [user]);
      } else {
        post := post.(likes := RemoveAll(post.likes, user));
      }
      if NoDup(posts[id].likes) {
        ToggleKeepsNoDup(posts[id].likes, user);
      }
      posts := posts[id := post];
      out := Sent(Ok(Document(id, post)));
    }

    /**
      One request through the router: route matching, then `auth` on the
      guarded routes (a stopped middleware means the handler never runs),
      then the handler with the user id `auth` recorded.
     */
    method Handle(req: Request, verify: (string, string) -> JwtOutcome, decode: string -> JwtOutcome, env: Env)
      returns (out: Outcome)
      requires env.newId !in posts
      modifies this
      ensures Route(req.verb, req.path).None? ==> out == Unrouted && posts == old(posts)
      ensures Route(req.verb, req.path).Some? && Route(req.verb, req.path).value.guarded
              && Authenticate(req.authorization, verify, decode).Stopped? ==>
        out == NoResponse && posts == old(posts)
      // GET /: no token needed, and the store is only read.
      ensures req.verb == Get && req.path == [] ==>
        && out == Sent(if env.fault.Some? then Failure(404, env.fault.value) else Ok(Documents(old(posts))))
        && posts == old(posts)
      // POST /: the post is created with the user id `auth` found.
      ensures var auth := Authenticate(req.authorization, verify, decode);
        req.verb == Verb.Post && req.path == [] && auth.Continue? ==>
        if env.fault.Some? then
          out == Sent(Failure(409, env.fault.value)) && posts == old(posts)
        else
          && posts == old(posts)[env.newId := NewPost(req.body, auth.userId, env.now)]
          && out == Sent(Response(201, JsonBody(Document(env.newId, NewPost(req.body, auth.userId, env.now)))))
      // PATCH /:id and DELETE /:id: who the caller is plays no part once `auth` lets the request on.
      ensures req.verb in {Patch, Delete} && |req.path| == 1 && req.path[0] != ""
              && Authenticate(req.authorization, verify, decode).Continue? ==>
        var id := req.path[0];
        if !validId(id) then out == Sent(NotFound(id)) && posts == old(posts)
        else if env.fault.Some? then out == NoResponse && posts == old(posts)
        else if req.verb == Patch then
          && out == Sent(Ok(Echo(UpdateOf(req.body, id))))
          && posts == (if id in old(posts) then old(posts)[id := Applied(old(posts)[id], UpdateOf(req.body, id))] else old(posts))
        else
          out == Sent(Ok(Message("Post deleted successfully."))) && posts == old(posts) - {id}
      // PATCH /:id/likePost: the like is toggled for the user id `auth` found.
      ensures var auth := Authenticate(req.authorization, verify, decode);
        req.verb == Patch && |req.path| == 2 && req.path[0] != "" && req.path[1] == "likePost" && auth.Continue? ==>
        var id := req.path[0];
        if !Authenticated(auth.userId) then out == Sent(Ok(Message("Unauthenticated"))) && posts == old(posts)
        else if !validId(id) then out == Sent(NotFound(id)) && posts == old(posts)
        else if env.fault.Some? || id !in old(posts) then out == NoResponse && posts == old(posts)
        else
          && posts == old(posts)[id := old(posts)[id].(likes := Toggle(old(posts)[id].likes, auth.userId.value))]
          && out == Sent(Ok(Document(id, posts[id])))
      ensures old(LikesUnique()) && NoDup(req.body.likes.GetOr([])) ==> LikesUnique()
    {
      var route := Route(req.verb, req.path);
      if route.None? {
        return Unrouted;
      }
      var userId: Option<string> := None;
      if route.value.guarded {
        match Authenticate(req.authorization, verify, decode)
        case Stopped =>
          return NoResponse;
        case Continue(u) =>
          userId := u;
      }
      match route.value.handler
      case GetPosts =>
        var r := GetPosts(env.fault);
        out := Sent(r);
      case CreatePost =>
        var r := CreatePost(req.body, userId, env.now, env.newId, env.fault);
        out := Sent(r);
      case UpdatePost(id) =>
        out := UpdatePost(id, req.body, env.fault);
      case DeletePost(id) =>
        out := DeletePost(id, env.fault);
      case LikePost(id) =>
        out := LikePost(id, userId, env.fault);
    }
  }

  /**
    A user likes a post nobody had liked and then likes it again: the first
    answer lists the user, the second gives back the post as it was.
   */
  method LikeTwiceScenario(validId: Id -> bool, id: Id, post: Post, user: string)
    returns (first: Outcome, second: Outcome)
    requires validId(id) && post.likes == [] && user != ""
    ensures first == Sent(Ok(Document(id, post.(likes := [user]))))
    ensures second == Sent(Ok(Document(id, post)))
  {
    var store := new PostStore(validId, map[id := post]);
    first := store.LikePost(id, Some(user), None);
    ToggleTwiceFromAbsent([], user);
    second := store.LikePost(id, Some(user), None);
  }

  /**
    `POST /` with `Bearer <token>`, where the token is a custom one whose
    verified payload carries `id: "u1"`: the answer is 201 and the created
    post's creator is "u1", whatever the body says.
   */
  method CreateWithTokenScenario(validId: Id -> bool, verify: (string, string) -> JwtOutcome,
                                 decode: string -> JwtOutcome, token: string, body: PostBody,
                                 now: string, newId: Id)
    returns (out: Outcome)
    requires ' ' !in token && IsCustomToken(token)
    requires verify(token, SECRET) == Decoded(Some(Claims(Some("u1"), None)))
    ensures out.Sent? && out.response.status == 201
    ensures out.response.body.JsonBody? && out.response.body.json.Document?
    ensures out.response.body.json.post.creator == Some("u1")
    ensures out.response.body.json.post.createdAt == Some(now)
  {
    var store := new PostStore(validId, map[]);
    TokenOfBearerHeader(token);
    out := store.Handle(Request(Verb.Post, [], Some("Bearer " + token), body), verify, decode, Env(now, newId, None));
  }
}
