/**
 * The mock back end's module state: three collections, each read by a getter and
 * replaced wholesale by a setter.
 */
module DataStore {
  import opened BlogTypes

  class Store {
    var posts: seq<Post>
    var comments: seq<Comment>
    var subscribers: seq<Subscriber>

    /** The collections start as copies of the seed arrays. */
    constructor (seedPosts: seq<Post>, seedComments: seq<Comment>, seedSubscribers: seq<Subscriber>)
      ensures posts == seedPosts && comments == seedComments && subscribers == seedSubscribers
    {
      posts := seedPosts;
      comments := seedComments;
      subscribers := seedSubscribers;
    }

    method GetPosts() returns (r: seq<Post>)
      ensures r == posts
    {
      r := posts;
    }

    method SetPosts(next: seq<Post>)
      modifies this`posts
      ensures posts == next
      ensures comments == old(comments) && subscribers == old(subscribers)
    {
      posts := next;
    }

    method GetComments() returns (r: seq<Comment>)
      ensures r == comments
    {
      r := comments;
    }

    method SetComments(next: seq<Comment>)
      modifies this`comments
      ensures comments == next
      ensures posts == old(posts) && subscribers == old(subscribers)
    {
      comments := next;
    }

    method GetSubscribers() returns (r: seq<Subscriber>)
      ensures r == subscribers
    {
      r := subscribers;
    }

    method SetSubscribers(next: seq<Subscriber>)
      modifies this`subscribers
      ensures subscribers == next
      ensures posts == old(posts) && comments == old(comments)
    {
      subscribers := next;
    }
  }

  /** A setter followed by its getter reads back exactly what was set, whatever the other setters did before. */
  method SetThenGet(store: Store, ps: seq<Post>, cs: seq<Comment>, ns: seq<Subscriber>)
    returns (rp: seq<Post>, rc: seq<Comment>, rn: seq<Subscriber>)
    modifies store
    ensures rp == ps && rc == cs && rn == ns
  {
    store.SetPosts(ps);
    store.SetComments(cs);
    store.SetSubscribers(ns);
    rp := store.GetPosts();
    rc := store.GetComments();
    rn := store.GetSubscribers();
  }
}
