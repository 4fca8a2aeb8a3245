/** `POST /api/newsletter/subscribe`: reject a missing email, otherwise prepend a subscriber. */
module SubscribeRoute {
  import opened Wrappers
  import opened JsStrings
  import opened BlogTypes
  import opened DataStore

  datatype SubscribeResponse =
    | BadRequest(message: string)
    | Created(subscriber: Subscriber)
  {
    function Status(): int {
      if BadRequest? then 400 else 201
    }
  }

  function NewSubscriber(subscribers: seq<Subscriber>, email: string, today: string): (n: Subscriber)
    ensures n.id == "n" + NatToString(|subscribers| + 1)
    ensures n.email == email && n.subscribedAt == today
  {
    Subscriber("n" + NatToString(|subscribers| + 1), email, today)
  }

  /**
   * The handler. A missing or empty email is answered with 400 and leaves the store
   * alone; otherwise 201 with the new subscriber, which is prepended.
   */
  method HandleSubscribe(store: Store, email: Option<string>, today: string) returns (resp: SubscribeResponse)
    modifies store
    ensures (email.None? || email.value == "") <==> resp.Status() == 400
    ensures resp.BadRequest? ==> resp.message == "Email required" && store.subscribers == old(store.subscribers)
    ensures resp.Created? ==>
      resp.subscriber == NewSubscriber(old(store.subscribers), email.value, today) &&
      store.subscribers == [resp.subscriber] + old(store.subscribers)
    ensures store.posts == old(store.posts) && store.comments == old(store.comments)
  {
    if email.None? || email.value == "" {
      return BadRequest("Email required");
    }
    var subscribers := store.GetSubscribers();
    var created := NewSubscriber(subscribers, email.value, today);
    store.SetSubscribers([created] + subscribers);
    resp := Created(created);
  }

  /** A successful subscription grows the store by exactly one. */
  method SubscribeGrowsByOne(store: Store, email: string, today: string)
    requires email != ""
    modifies store
    ensures |store.subscribers| == |old(store.subscribers)| + 1
    ensures store.subscribers[0].email == email
  {
    var resp := HandleSubscribe(store, Some(email), today);
  }
}
