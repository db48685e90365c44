/** The store that owns the post list and serves the list and create requests. */
module PostStore {
  import opened Posts

  class Store {
    /** The posts in insertion order. */
    var posts: seq<Post>

    /** Ids are distinct and positive. */
    ghost predicate Valid()
      reads this
    {
      UniqueIds(posts) && PositiveIds(posts)
    }

    /** A store holding the two seed posts. */
    constructor ()
      ensures Valid()
      ensures posts == Seed()
    {
      posts := Seed();
      SeedIsWellFormed();
    }

    /** The current list of posts, as it is. */
    method GetPosts() returns (r: seq<Post>)
      ensures r == posts
    {
      r := posts;
    }

    /** Handles one create request: reports the missing required fields, or
        appends a new post with the next id and the body's title and content. */
    method AddPost(body: Body) returns (o: Outcome)
      requires Valid()
      modifies this
      ensures Valid()
      ensures posts == Create(old(posts), body).posts
      ensures o == Create(old(posts), body).outcome
      ensures o.Created? ==> posts == old(posts) + [o.post] && o.post.id == NextId(old(posts))
      ensures o.Missing? ==> posts == old(posts) && o.fields == MissingFields(body)
    {
      CreatePreservesIds(posts, body);
      if NoData(body) || TitleKey !in body.value || ContentKey !in body.value {
        var missing: seq<string> := [];
        if NoData(body) || TitleKey !in body.value {
          missing := missing + [TitleKey];
        }
        if NoData(body) || ContentKey !in body.value {
          missing := missing + [ContentKey];
        }
        return Missing(missing);
      }
      var post := Post(NextId(posts), body.value[TitleKey], body.value[ContentKey]);
      posts := posts + [post];
      o := Created(post);
    }
  }

  /** From the seed list, creating a post with a title and a content stores
      it with id 3 at the end of the list. */
  method SeedThenCreate() returns (r: seq<Post>)
    ensures |r| == 3 && r[2] == Post(3, "T", "C")
  {
    var store := new Store();
    var o := store.AddPost(Some(map[TitleKey := "T", ContentKey := "C"]));
    SeedIsWellFormed();
    r := store.GetPosts();
  }
}
