/** The values of the blog post store: post records, request bodies, the
    outcome of a create, and the pure rules that decide them (id assignment,
    field validation, the effect of one create on the post list). */
module Posts {

  datatype Option<+T> = None | Some(value: T)

  /** One blog post record with its three fields. */
  datatype Post = Post(id: int, title: string, content: string)

  /** A decoded JSON request body: absent, or an object of named fields. */
  type Body = Option<map<string, string>>

  /** What a create reports: the stored post, or the required fields that
      were missing from the request, in the order they were checked. */
  datatype Outcome = Created(post: Post) | Missing(fields: seq<string>)

  const TitleKey: string := "title"
  const ContentKey: string := "content"

  /** The two posts the store starts with. */
  function Seed(): (s: seq<Post>)
    ensures |s| == 2 && s[0].id == 1 && s[1].id == 2
  {
    [ Post(1, "First post", "This is the first post."),
      Post(2, "Second post", "This is the second post.") ]
  }

  /** No two posts in the list share an id. */
  ghost predicate UniqueIds(posts: seq<Post>)
  {
    forall i, j :: 0 <= i < j < |posts| ==> posts[i].id != posts[j].id
  }

  /** Every id in the list is at least 1, as every id the store hands out is. */
  ghost predicate PositiveIds(posts: seq<Post>)
  {
    forall i :: 0 <= i < |posts| ==> posts[i].id >= 1
  }

  /** The largest id in a non-empty list of posts. */
  function MaxId(posts: seq<Post>): (m: int)
    requires posts != []
    ensures exists i :: 0 <= i < |posts| && posts[i].id == m
    ensures forall i :: 0 <= i < |posts| ==> posts[i].id <= m
  {
    if |posts| == 1 then posts[0].id
    else
      var rest := MaxId(posts[1..]);
      if posts[0].id < rest then rest else posts[0].id
  }

  /** The id the next created post receives: one more than the largest
      existing id, or 1 for an empty list. */
  function NextId(posts: seq<Post>): (r: int)
    ensures posts == [] ==> r == 1
    ensures posts != [] ==> exists i :: 0 <= i < |posts| && r == posts[i].id + 1
    ensures forall i :: 0 <= i < |posts| ==> posts[i].id < r
  {
    if posts != [] then MaxId(posts) + 1 else 1
  }

  /** The body carries no data: it is absent or an empty object. */
  predicate NoData(body: Body)
  {
    body.None? || body.value == map[]
  }

  /** The body carries the named field. */
  predicate Has(body: Body, key: string)
  {
    !NoData(body) && key in body.value
  }

  /** The required fields absent from the body, title before content. */
  function MissingFields(body: Body): (r: seq<string>)
    ensures forall k :: k in r <==> (k == TitleKey || k == ContentKey) && !Has(body, k)
    ensures forall i, j :: 0 <= i < j < |r| ==> r[i] == TitleKey && r[j] == ContentKey
    ensures r == [] <==> Has(body, TitleKey) && Has(body, ContentKey)
    ensures NoData(body) ==> r == [TitleKey, ContentKey]
  {
    (if !Has(body, TitleKey) then [TitleKey] else [])
      + (if !Has(body, ContentKey) then [ContentKey] else [])
  }

  /** The post list and the outcome after one create request. */
  datatype Step = Step(posts: seq<Post>, outcome: Outcome)

  /** The effect of one create request on the post list. */
  function Create(posts: seq<Post>, body: Body): (s: Step)
  {
    if NoData(body) || TitleKey !in body.value || ContentKey !in body.value then
      Step(posts, Missing(MissingFields(body)))
    else
      var post := Post(NextId(posts), body.value[TitleKey], body.value[ContentKey]);
      Step(posts + [post], Created(post))
  }

  /** The next id is 1 exactly when the list is empty, given that ids are
      positive; otherwise it is the largest id plus one. */
  lemma NextIdOneIffEmpty(posts: seq<Post>)
    requires PositiveIds(posts)
    ensures NextId(posts) == 1 <==> posts == []
    ensures posts != [] ==> NextId(posts) == MaxId(posts) + 1
  {
  }

  /** The seed list has distinct, positive ids, and its next id is 3. */
  lemma SeedIsWellFormed()
    ensures UniqueIds(Seed()) && PositiveIds(Seed())
    ensures NextId(Seed()) == 3
  {
  }

  /** A create succeeds exactly when both required keys are present, and
      then reports no missing field. */
  lemma CreateSucceedsIffComplete(posts: seq<Post>, body: Body)
    ensures Create(posts, body).outcome.Created?
        <==> Has(body, TitleKey) && Has(body, ContentKey)
    ensures Create(posts, body).outcome.Missing? ==>
              Create(posts, body).outcome.fields == MissingFields(body)
              && MissingFields(body) != []
  {
  }

  /** A successful create appends exactly one post, last, carrying the next
      id and the body's title and content, and leaves earlier posts as they were. */
  lemma CreateAppendsOne(posts: seq<Post>, body: Body)
    requires Create(posts, body).outcome.Created?
    ensures var s := Create(posts, body);
      |s.posts| == |posts| + 1
      && s.posts[..|posts|] == posts
      && s.posts[|posts|] == s.outcome.post
      && s.outcome.post.id == NextId(posts)
      && s.outcome.post.title == body.value[TitleKey]
      && s.outcome.post.content == body.value[ContentKey]
  {
  }

  /** A rejected create leaves the list as it was. */
  lemma RejectedCreateKeepsPosts(posts: seq<Post>, body: Body)
    requires !Has(body, TitleKey) || !Has(body, ContentKey)
    ensures Create(posts, body).posts == posts
    ensures Create(posts, body).outcome == Missing(MissingFields(body))
  {
  }

  /** Distinct ids stay distinct across any create, and ids stay positive. */
  lemma CreatePreservesIds(posts: seq<Post>, body: Body)
    requires UniqueIds(posts) && PositiveIds(posts)
    ensures UniqueIds(Create(posts, body).posts)
    ensures PositiveIds(Create(posts, body).posts)
  {
  }

  /** Only key presence and the two required values matter: two bodies that
      agree on which required keys are present and on their values give the
      same result, whatever other keys either carries. */
  lemma CreateIgnoresExtraKeys(posts: seq<Post>, b1: map<string, string>, b2: map<string, string>)
    requires Has(Some(b1), TitleKey) == Has(Some(b2), TitleKey)
    requires Has(Some(b1), ContentKey) == Has(Some(b2), ContentKey)
    requires Has(Some(b1), TitleKey) ==> b1[TitleKey] == b2[TitleKey]
    requires Has(Some(b1), ContentKey) ==> b1[ContentKey] == b2[ContentKey]
    ensures Create(posts, Some(b1)) == Create(posts, Some(b2))
  {
  }

  /** A body that carries both keys is accepted, whatever their values and
      whatever else it carries. */
  lemma CreateAcceptsAnyValues(posts: seq<Post>, body: map<string, string>, title: string, content: string)
    ensures Create(posts, Some(body[TitleKey := title][ContentKey := content])).outcome
         == Created(Post(NextId(posts), title, content))
  {
  }
}
