# Posts router: a Dafny model

This project models the Express router of a small "memories" social app
(`server/routes/posts.js`). The router lists, creates, updates and deletes
posts and toggles a user's like on a post. The mutating routes are guarded
by an `auth` middleware that reads a user id out of a bearer token.

The model has five modules:

- `Types` (`types.dfy`) holds the shared values. These are the stored post,
  the request body, the object `updatePost` echoes, the JSON and plain-text
  responses, and the `Outcome` of a request. A request either gets a
  response, never gets one, or is not routed here.
- `Likes` (`likes.dfy`) holds the like toggle as pure functions. `FindIndex`
  is `findIndex`, `RemoveAll` is `filter`, and `Toggle` is the push-or-filter
  choice. The lemmas prove its round trip, its order and multiplicity
  guarantees, and that it keeps the ids of `likes` distinct.
- `Auth` (`auth.dfy`) holds the middleware as a function of the
  `Authorization` header. It covers `split(" ")[1]`, the 500-character
  classification, `jwt.verify` with the router's secret against
  `jwt.decode`, and the `id` against `sub` claim.
- `Routes` (`routes.dfy`) holds the route table.
- `Posts` (`posts.dfy`) holds the class `PostStore`. It keeps the collection
  as a `map` from id to post, plus the driver's id-format check. Each
  handler is a method on it, and `Handle` runs one request through routing,
  `auth` and the handler.

The document store and the JWT library are abstracted. `validId` stands for
`ObjectId.isValid` and is a parameter of the store. `verify` and `decode` are
function parameters. The clock, the id assigned to a new document and any
exception the store raises come in as an `Env` value or as explicit
parameters.

Some behaviours of the code are easy to misread; the model follows the code:

- The header is split on a single space character, not on any whitespace.
- When splitting, verifying or decoding throws, the middleware logs the
  error and does not call `next()`. The handler never runs and no response
  is sent (`Stopped`, then `NoResponse`). The request does not go on
  unauthenticated.
- A store error inside `updatePost`, `deletePost` or `likePost` is not
  caught, and neither is the `TypeError` that `likePost` raises on a missing
  post. Both are modelled as `NoResponse`.
- `createPost` spreads the whole body, so a `likes` array sent by the client
  is stored as it is. Such an array can hold duplicates
  (`CreateKeepsBodyLikes`). The "no duplicate likes" invariant is therefore
  kept by every handler, and by `createPost` only when the body's `likes`
  has no duplicates.

## Model

| member | source | states |
|---|---|---|
| `Likes.FindIndex` | server/routes/posts.js:102 | returns -1 exactly when the user id is absent; otherwise the first position that holds it |
| `Likes.RemoveAll` | server/routes/posts.js:107 | the result contains no occurrence of the user id, and every other id keeps its multiplicity |
| `Likes.RemoveAllKeepsOrder` | server/routes/posts.js:107 | the remaining ids keep their original relative order (the result is a subsequence of the input) |
| `Likes.RemoveAllAbsent` | server/routes/posts.js:107 | filtering out an id that is not there leaves `likes` unchanged |
| `Likes.RemoveAllAppended` | server/routes/posts.js:105-107 | filtering an id out after it was pushed also removes the pushed copy |
| `Likes.RemoveAllKeepsNoDup` | server/routes/posts.js:107 | filtering keeps the ids pairwise distinct |
| `Likes.Toggle` | server/routes/posts.js:102-108 | an absent user is appended at the end with earlier ids unchanged; a present user is removed entirely, and the others keep their multiplicities and order |
| `Likes.ToggleFlipsMembership` | server/routes/posts.js:102-108 | the user's membership flips, and every other id's membership is unchanged |
| `Likes.ToggleKeepsNoDup` | server/routes/posts.js:104-108 | if `likes` has no duplicates, neither does the toggled list |
| `Likes.ToggleTwiceFromAbsent` | server/routes/posts.js:102-108 | like then unlike, starting from a post the user had not liked, restores `likes` exactly |
| `Likes.ToggleTwiceFromPresent` | server/routes/posts.js:102-108 | unlike then like, on duplicate-free likes, gives back the same ids with the same multiplicities, with the user moved to the end |
| `Auth.Split` | server/routes/posts.js:11 | `split(" ")` yields at least one piece, no piece contains a space, and there is exactly one piece iff the header has no space |
| `Auth.JoinSplit` | server/routes/posts.js:11 | joining the pieces with single spaces gives back the header |
| `Auth.SplitJoin` | server/routes/posts.js:11 | splitting space-free pieces joined by single spaces gives back those pieces |
| `Auth.BearerToken` | server/routes/posts.js:11 | a token exists iff the header contains a space, and the token contains no space |
| `Auth.TokenIsSecondField` | server/routes/posts.js:11 | the token is the header's second space-separated field, whatever follows it |
| `Auth.TokenOfBearerHeader` | server/routes/posts.js:11 | the header `Bearer <t>` yields `t` |
| `Auth.UserIdClaim` | server/routes/posts.js:16-27 | the middleware stops exactly when the JWT call throws |
| `Auth.Authenticate` | server/routes/posts.js:9-32 | a missing header, or a header without a space, stops the request before `next()`; a request goes on only with a token present |
| `Auth.IsCustomToken` | server/routes/posts.js:12-16 | the empty token is never verified; any other token is verified exactly when it is shorter than 500 characters |
| `Auth.CustomTokenPath` | server/routes/posts.js:12-18 | a non-empty token under 500 characters is verified with the secret and `decode` is never consulted; a throw stops the request; a payload gives its `id` claim as the user id; a `null` payload lets the request go on with no user id |
| `Auth.DecodedTokenPath` | server/routes/posts.js:12-26 | any other token, the empty one included, is only decoded and `verify` is never consulted; a throw stops the request; a payload gives its `sub` claim as the user id; a `null` result lets the request go on with no user id |
| `Auth.EmptyBearerFailsOpen` | server/routes/posts.js:11-28 | the header `Bearer ` carries the empty token, which is decoded; when decoding gives `null` the request goes on with no user id |
| `Auth.FailOpen` | server/routes/posts.js:16-28 | a verified token with no user claim still lets the request through, with no user id |
| `Routes.Route` | server/routes/posts.js:129-133 | `GET /` reaches the listing unguarded and `POST /` reaches create behind `auth`; every other mounted route runs `auth` first; the id routes pass the path segment as the id; only the five mounted method and path shapes match, so `GET /:id`, `DELETE /` or `POST /:id` are not routed |
| `Routes.NoSinglePostRoute` | server/routes/posts.js:129-133 | `GET /:id` is not routed, so `getPost` is unreachable |
| `Routes.IdRoutes` | server/routes/posts.js:131-133 | `PATCH /:id`, `DELETE /:id` and `PATCH /:id/likePost` reach update, delete and like with that id, each behind `auth` |
| `Posts.NotFound` | server/routes/posts.js:73 | the malformed-id answer is status 404 with the plain-text body `No post with id: ` followed by the id |
| `Posts.Authenticated` | server/routes/posts.js:95 | an absent user id and the empty string count as unauthenticated; every other string counts as authenticated |
| `Posts.NewPost` | server/routes/posts.js:57 | the created post's `creator` is the caller's identity (absent included) and `createdAt` is the server's timestamp; title, message, tags, selectedFile and likes are the body's (likes `[]` when absent) |
| `Posts.CreatorNotTakenFromBody` | server/routes/posts.js:57 | a `creator` or `createdAt` sent in the body has no effect on the created post |
| `Posts.CreateKeepsBodyLikes` | server/routes/posts.js:57 | a body whose `likes` repeats a user yields a created post with duplicate likes |
| `Posts.UpdateOf` | server/routes/posts.js:75 | the echoed update object carries the body's creator, title, message, tags and selectedFile, and the path id as `_id` |
| `Posts.Applied` | server/routes/posts.js:77 | the update replaces the five body fields and leaves `likes` and `createdAt` as stored |
| `Posts.AppliedIdempotent` | server/routes/posts.js:77 | applying the same update twice stores the same post as applying it once |
| `Posts.PostStore.GetPosts` | server/routes/posts.js:35-42 | 200 with the whole collection, or 404 `{message}` with the store's error |
| `Posts.PostStore.GetPost` | server/routes/posts.js:44-52 | 200 with the post, 200 `null` when no post has the id, or 404 `{message}` on a store error |
| `Posts.PostStore.CreatePost` | server/routes/posts.js:54-67 | on success the new post is stored under the driver's id and echoed with 201; on a save error, 409 `{message}` and the store is unchanged; the duplicate-free likes invariant survives when the body's likes are duplicate-free |
| `Posts.PostStore.UpdatePost` | server/routes/posts.js:69-80 | a malformed id gives the plain-text 404 with the store untouched; otherwise the locally built object is echoed with 200 whether or not a post existed; the stored post changes only in the five fields, and only if it exists |
| `Posts.PostStore.DeletePost` | server/routes/posts.js:82-90 | a malformed id gives the plain-text 404 with the store untouched; any well-formed id reports success and leaves the store without that id |
| `Posts.PostStore.LikePost` | server/routes/posts.js:92-111 | a missing or empty user id gets 200 `{message:"Unauthenticated"}` before the id check; then a malformed id gets the plain-text 404; neither touches the store; otherwise only the post's `likes` change, by the toggle, and the stored post is returned; duplicate-free likes stay duplicate-free |
| `Posts.PostStore.Handle` | server/routes/posts.js:129-133 | an unmatched route is not handled here; a guarded route whose `auth` stops sends nothing and changes nothing; `GET /` needs no token and leaves the store as it was; `POST /` creates the post with the user id `auth` found (409 and no change on a save error); update and delete behave as their handlers for any caller `auth` lets through, even one without a user id; like toggles the like of the user id `auth` found, or answers "Unauthenticated" when it found none |
| `Posts.LikeTwiceScenario` | server/routes/posts.js:92-111 | two likes by the same user on a post without likes return first `likes: [user]` and then the original post |
| `Posts.CreateWithTokenScenario` | server/routes/posts.js:9-18 | `POST /` with a custom token whose payload has `id: "u1"` answers 201 with a post whose creator is "u1" and whose createdAt is the server's timestamp |

## Left out

- Express plumbing is not modelled: `express.Router`, path decoding, case-insensitive and trailing-slash matching, and the framework's own 404 for unrouted requests (`Unrouted`).
- Mongoose persistence is abstracted. `find`, `findById`, `save`, `findByIdAndUpdate` and `findByIdAndRemove` act on a map. The driver's id check is a parameter (`validId`), and so is the id a new document gets. A body-supplied `_id`, schema casting and validation, and the stripping of unknown fields are not modelled. A save error is an input, not derived.
- The order in which `find()` returns documents is not modelled: `GetPosts` returns the collection as a map.
- Posts.Applied: an absent body field replaces the stored one by "absent". Mongoose versions differ on whether an `undefined` field in an update is dropped or stored as `null`, and that difference is not modelled.
- JWT signature checking and base64/JSON decoding are left to the `verify` and `decode` parameters. The secret is kept only as the literal passed to `verify`.
- Token claims are taken to be strings. `String(req.userId)` for a non-string claim is not modelled.
- String lengths count Dafny characters, not JavaScript's UTF-16 code units.
- The clock (`new Date().toISOString()`) is a parameter, and `console.log` is left out.
- Concurrency is left out. Interleaving of async handlers, and the lost update in the non-atomic read-modify-write of `likePost`, are not modelled. Each request runs to completion on its own.
- A store exception in `getPosts`, `getPost` and `createPost` is represented only by its message.
- Posts.PostStore.GetPost: the cast error the store raises for a malformed id is one of the faults passed in; the model does not derive it from `validId`.
- Posts.NewPost: the post schema is not part of this model. `likes` is taken to be declared as an array, which Mongoose fills with `[]` when absent. `tags` stays optional, as the body gives it.
- An uncaught rejection in `updatePost`, `deletePost` or `likePost` is modelled only as the request getting no response. Express 4 does not catch it. Under Node 15 and later the default is for an unhandled rejection to end the whole process, and that effect is not modelled.
