/**
 * `/api/comments` of the mock back end: `GET` filters by `postId`, `POST` creates an
 * unapproved comment with defaults and prepends it.
 */
module CommentsRoute {
  import opened Wrappers
  import opened JsStrings
  import opened JsValues
  import opened Seqs
  import opened BlogTypes
  import opened DataStore

  /** The `postId` filter applies unless it is absent, empty or `all`. */
  predicate PostIdFilterActive(postId: Option<string>) {
    postId.Some? && postId.value != "" && postId.value != "all"
  }

  function ForPost(postId: string): Comment -> bool {
    (c: Comment) => c.postId == postId
  }

  /** The `GET` answer for a snapshot of the stored comments. */
  function ListComments(comments: seq<Comment>, postId: Option<string>): (r: seq<Comment>)
    ensures !PostIdFilterActive(postId) ==> r == comments
    ensures PostIdFilterActive(postId) ==>
      forall i :: 0 <= i < |r| ==> r[i] in comments && r[i].postId == postId.value
    ensures PostIdFilterActive(postId) ==>
      forall i :: 0 <= i < |comments| && comments[i].postId == postId.value ==> comments[i] in r
  {
    if PostIdFilterActive(postId) then Filter(comments, ForPost(postId.value)) else comments
  }

  /** The filtered list keeps store order: it distributes over any split of the store. */
  lemma ListCommentsKeepsOrder(a: seq<Comment>, b: seq<Comment>, postId: Option<string>)
    ensures ListComments(a + b, postId) == ListComments(a, postId) + ListComments(b, postId)
  {
    if PostIdFilterActive(postId) {
      FilterConcat(a, b, ForPost(postId.value));
    }
  }

  /** Filtering for a post's id and asking again gives the same list. */
  lemma ListCommentsIdempotent(comments: seq<Comment>, postId: Option<string>)
    ensures ListComments(ListComments(comments, postId), postId) == ListComments(comments, postId)
  {
    if PostIdFilterActive(postId) {
      var once := Filter(comments, ForPost(postId.value));
      FilterKeepsAll(once, ForPost(postId.value));
    }
  }

  /** The `GET` handler: reads the store only. */
  method HandleGet(store: Store, postId: Option<string>) returns (r: seq<Comment>)
    ensures r == ListComments(store.comments, postId)
  {
    var comments := store.GetComments();
    r := ListComments(comments, postId);
  }

  /** The `POST` body: any subset of the comment's fields. */
  datatype CommentBody = CommentBody(
    postId: Option<string>,
    name: Option<string>,
    email: Option<string>,
    message: Option<string>)

  /**
   * The comment that `POST` creates when the store holds `comments`: each field is
   * `body.f || default`, so a missing or empty value takes the default.
   */
  function NewComment(comments: seq<Comment>, body: CommentBody, today: string): (c: Comment)
    ensures c.id == "c" + NatToString(|comments| + 1)
    ensures !c.approved
    ensures c.name != ""
    ensures body.postId.Some? && body.postId.value != "" ==> c.postId == body.postId.value
    ensures body.postId.None? || body.postId.value == "" ==> c.postId == ""
    ensures body.name.Some? && body.name.value != "" ==> c.name == body.name.value
    ensures body.name.None? || body.name.value == "" ==> c.name == "Anonymous"
    ensures body.email.Some? && body.email.value != "" ==> c.email == body.email.value
    ensures body.email.None? || body.email.value == "" ==> c.email == ""
    ensures body.message.Some? && body.message.value != "" ==> c.message == body.message.value
    ensures body.message.None? || body.message.value == "" ==> c.message == ""
    ensures c.createdAt == today
  {
    Comment(
      id := "c" + NatToString(|comments| + 1),
      postId := OptOr(body.postId, ""),
      name := OptOr(body.name, "Anonymous"),
      email := OptOr(body.email, ""),
      message := OptOr(body.message, ""),
      createdAt := today,
      approved := false)
  }

  /** The `POST` handler: 201 with the new comment, prepended; everything else unchanged. */
  method HandlePost(store: Store, body: CommentBody, today: string) returns (status: int, created: Comment)
    modifies store
    ensures status == 201
    ensures created == NewComment(old(store.comments), body, today)
    ensures store.comments == [created] + old(store.comments)
    ensures store.posts == old(store.posts) && store.subscribers == old(store.subscribers)
  {
    var comments := store.GetComments();
    created := NewComment(comments, body, today);
    store.SetComments([created] + comments);
    status := 201;
  }
}
