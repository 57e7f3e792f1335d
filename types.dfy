/**
  Values shared by the posts router: the stored post document, the request
  body a client sends, and the HTTP responses the handlers produce.
 */
module Types {

  /** A JavaScript value that may be `undefined` (or `null`). */
  datatype Option<+T> = None | Some(value: T) {
    function GetOr(default: T): T {
      if Some? then value else default
    }
  }

  /** A document identifier, as it arrives in the request path. */
  type Id = string

  /**
    A post document as the store holds it. The fields a client may leave
    out are optional; `likes` is the ordered list of user ids that liked
    the post (`[]` when absent, as Mongoose fills an array path).
   */
  datatype Post = Post(
    title: Option<string>,
    message: Option<string>,
    creator: Option<string>,
    tags: Option<seq<string>>,
    selectedFile: Option<string>,
    likes: seq<string>,
    createdAt: Option<string>)

  /** The JSON body of a create or update request: every field is optional. */
  datatype PostBody = PostBody(
    title: Option<string>,
    message: Option<string>,
    creator: Option<string>,
    tags: Option<seq<string>>,
    selectedFile: Option<string>,
    likes: Option<seq<string>>,
    createdAt: Option<string>)

  /** The object `updatePost` builds from the request and sends back. */
  datatype UpdatedPost = UpdatedPost(
    creator: Option<string>,
    title: Option<string>,
    message: Option<string>,
    tags: Option<seq<string>>,
    selectedFile: Option<string>,
    id: Id)

  /** The JSON values the handlers send. */
  datatype Json =
    | Message(text: string)                // { message: text }
    | Document(docId: Id, post: Post)     // one stored post
    | Documents(all: map<Id, Post>)        // the whole collection
    | Null                                 // `null`: no post with that id
    | Echo(update: UpdatedPost)            // the locally built update object

  /** `res.json(...)` sends a JSON body, `res.send(string)` a plain-text one. */
  datatype Body = JsonBody(json: Json) | TextBody(plain: string)

  datatype Response = Response(status: nat, body: Body)

  /**
    What becomes of a request: a response is sent; no response is ever sent
    (the middleware swallowed an error without calling `next()`, or the
    handler threw outside any `try`); or no route of this router matches.
   */
  datatype Outcome = Sent(response: Response) | NoResponse | Unrouted

  /** `res.json(value)`: the status stays at Express's default, 200. */
  function Ok(json: Json): Response {
    Response(200, JsonBody(json))
  }
}
