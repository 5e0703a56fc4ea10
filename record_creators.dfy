/**
 * The three Lambdas that each build one item and write it: `tweet` and
 * `addTask` (a text item owned by the caller) and `postConfirmation` (the Cognito
 * trigger that stores a user). `id` and `createdAt` are the handlers' `ulid()`
 * and `new Date().toJSON()`; each table is the one its environment variable
 * names; a write named in `faults` rejects the handler's promise.
 */
module RecordCreators {
  import opened Wrappers
  import opened Aws

  /** `event.arguments.input` of the `tweet` and `addTask` mutations. */
  datatype TextInput = TextInput(text: string)

  /** The item both text handlers build. */
  function TextItem(id: string, owner: string, text: string, createdAt: string): (item: Item)
    ensures item.Keys == {"id", "owner", "text", "createdAt"}
    ensures item["id"] == Str(id) && item["owner"] == Str(owner)
    ensures item["text"] == Str(text) && item["createdAt"] == Str(createdAt)
  {
    map["id" := Str(id), "owner" := Str(owner), "text" := Str(text), "createdAt" := Str(createdAt)]
  }

  /** The new item is exactly `id`, `owner`, `text`, `createdAt`, owned by the caller, and is what the write stores. */
  predicate WroteOwnedText(table: Table, identity: Identity, input: TextInput, id: string, createdAt: string,
                           item: Item, t: Table)
  {
    && item.Keys == {"id", "owner", "text", "createdAt"}
    && item["id"] == Str(id)
    && item["owner"] == Str(identity.username)
    && item["text"] == Str(input.text)
    && item["createdAt"] == Str(createdAt)
    && t.Keys == table.Keys + {id}
    && t[id] == item
    && (forall k :: k in table && k != id ==> t[k] == table[k])
  }

  /** `tweet`: writes the item to TWEETS_TABLE and returns it. */
  function Tweet(tweets: Table, identity: Identity, input: TextInput, id: string, createdAt: string, faults: set<Call>)
    : (r: Result<(Item, Table), Error>)
    ensures r.Failure? <==> Write in faults
    ensures r.Failure? ==> r.error == ServiceError(Write)
    ensures r.Success? ==> WroteOwnedText(tweets, identity, input, id, createdAt, r.value.0, r.value.1)
  {
    var data := TextItem(id, identity.username, input.text, createdAt);
    if Write in faults then Failure(ServiceError(Write)) else Success((data, Put(tweets, data)))
  }

  /** `addTask`: writes the item to TASKS_TABLE and returns it. */
  function AddTask(tasks: Table, identity: Identity, input: TextInput, id: string, createdAt: string, faults: set<Call>)
    : (r: Result<(Item, Table), Error>)
    ensures r.Failure? <==> Write in faults
    ensures r.Failure? ==> r.error == ServiceError(Write)
    ensures r.Success? ==> WroteOwnedText(tasks, identity, input, id, createdAt, r.value.0, r.value.1)
  {
    var data := TextItem(id, identity.username, input.text, createdAt);
    if Write in faults then Failure(ServiceError(Write)) else Success((data, Put(tasks, data)))
  }

  /**
   * The record is bound to the identity, not to the input: two callers with
   * the same input get records that differ in the owner only, and one caller's
   * records carry its username whatever text it sends.
   */
  lemma TweetOwnerIsCaller(t: Table, a: Identity, b: Identity, input: TextInput, id: string, createdAt: string)
    requires a != b
    ensures Tweet(t, a, input, id, createdAt, {}).Success? && Tweet(t, b, input, id, createdAt, {}).Success?
    ensures Tweet(t, a, input, id, createdAt, {}).value.0["owner"] != Tweet(t, b, input, id, createdAt, {}).value.0["owner"]
    ensures Tweet(t, a, input, id, createdAt, {}).value.0 - {"owner"} == Tweet(t, b, input, id, createdAt, {}).value.0 - {"owner"}
  {
  }

  /** The Cognito post-confirmation event; the handler reads only the user attributes. */
  datatype ConfirmationEvent = ConfirmationEvent(userName: string, triggerSource: string, userAttributes: map<string, string>)

  /**
   * `postConfirmation`: writes `{id: sub, email, createdAt}` to USERS_TABLE and
   * returns the event. A missing attribute reaches the document client as
   * `undefined`, which it refuses to marshal, so nothing is written.
   */
  function PostConfirmation(users: Table, event: ConfirmationEvent, createdAt: string, faults: set<Call>)
    : (r: Result<(ConfirmationEvent, Table), Error>)
    ensures r.Success? <==> "sub" in event.userAttributes && "email" in event.userAttributes && Write !in faults
    ensures "sub" !in event.userAttributes ==> r == Failure(UndefinedAttribute("id"))
    ensures r.Success? ==>
      var sub := event.userAttributes["sub"];
      && r.value.0 == event
      && r.value.1.Keys == users.Keys + {sub}
      && r.value.1[sub].Keys == {"id", "email", "createdAt"}
      && r.value.1[sub]["id"] == Str(sub)
      && r.value.1[sub]["email"] == Str(event.userAttributes["email"])
      && r.value.1[sub]["createdAt"] == Str(createdAt)
      && (forall k :: k in users && k != sub ==> r.value.1[k] == users[k])
  {
    var attrs := event.userAttributes;
    if "sub" !in attrs then Failure(UndefinedAttribute("id"))
    else if "email" !in attrs then Failure(UndefinedAttribute("email"))
    else
      var data := map["id" := Str(attrs["sub"]), "email" := Str(attrs["email"]), "createdAt" := Str(createdAt)];
      if Write in faults then Failure(ServiceError(Write)) else Success((event, Put(users, data)))
  }
}
