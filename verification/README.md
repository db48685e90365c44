# Blog post store

A model of the in-memory post store behind the blog API's `/api/posts`
endpoint. The store keeps an insertion-ordered list of posts. Each post has
an `id`, a `title` and a `content`. The list starts with two seed posts,
with ids 1 and 2. The store serves two requests:

- **list** returns the list as it is.
- **create** checks that the JSON body carries both `title` and `content`.
  If either is missing, it reports every missing field, `title` first.
  Otherwise it appends a new post whose id is one more than the largest
  current id, or 1 when the list is empty.

`posts.dfy` (module `Posts`) holds the values and the pure rules:
- the `Post` record and the request `Body`, an optional map of string fields;
- id assignment (`NextId`, over `MaxId`);
- validation (`MissingFields`);
- the effect of one create on the list (`Create`);
- the lemmas about them.

`post_store.dfy` (module `PostStore`) holds the `Store` class. It owns the
list as a `seq<Post>` field. Its `AddPost` method builds the missing-field
list by successive appends and appends the new post in place, as the source
does. `AddPost` is proved against `Create`. `Store.Valid` (ids distinct and
positive) is the invariant the constructor sets up and `AddPost` preserves.

## Model

| member | source | states |
|---|---|---|
| Posts.Seed | backend/backend_app.py:8-11 | the store starts with two posts, with ids 1 and 2 |
| Posts.MaxId | backend/backend_app.py:16 | the result is the id of some post in the non-empty list and no post's id exceeds it |
| Posts.NextId | backend/backend_app.py:14-17 | 1 for an empty list; otherwise some existing id plus one; strictly greater than every id in the list, so it never collides with an existing post |
| Posts.NextIdOneIffEmpty | backend/backend_app.py:14-17 | when ids are positive, the next id is 1 exactly when the list is empty, and otherwise it is the maximum id plus one |
| Posts.MissingFields | backend/backend_app.py:31-35 | a field is reported exactly when it is `title` or `content` and absent from the body; `title` comes before `content`; nothing is reported exactly when both are present; an absent or empty body reports both |
| Posts.SeedIsWellFormed | backend/backend_app.py:8-17 | the seed posts have distinct, positive ids, and the first create after the seed receives id 3 |
| Posts.CreateSucceedsIffComplete | backend/backend_app.py:30-46 | a create succeeds exactly when the body carries both `title` and `content`; a rejection reports the missing fields, and that list is never empty |
| Posts.CreateAppendsOne | backend/backend_app.py:39-46 | a successful create makes the list exactly one longer and keeps earlier posts unchanged; the new post is last, has the next id and carries the body's title and content |
| Posts.RejectedCreateKeepsPosts | backend/backend_app.py:30-36 | a body lacking `title` or `content` leaves the list unchanged and reports the missing fields |
| Posts.CreatePreservesIds | backend/backend_app.py:39-44 | if ids are distinct and positive before a create, they are still distinct and positive after it |
| Posts.CreateIgnoresExtraKeys | backend/backend_app.py:30-43 | two bodies that agree on the presence and values of `title` and `content` give the same result, whatever other keys they carry; extra keys never reach the post |
| Posts.CreateAcceptsAnyValues | backend/backend_app.py:30-43 | a body carrying both keys is accepted whatever their values; the post holds exactly those values and the next id |
| PostStore.Store.constructor | backend/backend_app.py:8-11 | the new store holds the seed posts and satisfies the id invariant |
| PostStore.Store.GetPosts | backend/backend_app.py:21-22 | returns the current list as it is, without changing it |
| PostStore.Store.AddPost | backend/backend_app.py:26-46 | keeps ids distinct and positive; the new list and the outcome are those of `Create`; a success appends the reported post with the next id; a rejection leaves the list as it was and names the missing fields |
| PostStore.SeedThenCreate | backend/backend_app.py:8-46 | creating a post with title "T" and content "C" in a fresh store gives a third post, with id 3, at the end of the list |

## Left out

- The Flask application, routes, `request.get_json`, `jsonify`, HTTP status codes and `app.run` are transport glue over a library, so they are not modelled. The outcome `Created`/`Missing` stands for the 201/400 responses.
- CORS set-up is a single library call with no logic of its own.
- The text of the error message is not modelled. The model keeps the list of missing field names, not the string made by joining them with `", "`.
- Field values are modelled as strings. JSON lets them be numbers, `null` or nested values. The store only copies them, so their type does not affect any property here.
- Bodies that are not JSON objects are not modelled, for example a top-level list, where Python's `in` tests element membership.
- frontend/static/main.js is not part of this model. It holds browser UI and network calls.
- The source has no lock around the shared list. The model treats each request as one atomic step.
