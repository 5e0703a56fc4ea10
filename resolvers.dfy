/**
 * The AppSync JavaScript resolvers: each `request` turns the resolver context
 * into a DynamoDB request descriptor and each `response` shapes the result.
 * `QueryMatches`, `FilterAdmits` and `GetItem` give the descriptors their
 * meaning over a table (pagination and ordering are not modelled).
 */
module Resolvers {
  import opened Wrappers
  import opened Aws

  const MaxPageSize := 25

  /** `context.arguments` of the two listing queries. */
  datatype PageArgs = PageArgs(limit: Option<int>, nextToken: Option<string>)

  /** A DynamoDB `Query` descriptor. */
  datatype QueryRequest = QueryRequest(
    operation: string,
    expression: string,
    expressionNames: map<string, string>,
    expressionValues: map<string, Value>,
    index: Option<string>,
    nextToken: Option<string>,
    limit: Option<int>,
    scanIndexForward: bool,
    consistentRead: bool,
    select: string)

  /** A scan filter condition on one attribute. */
  datatype Condition = Eq(value: Value)

  /** A DynamoDB `Scan` descriptor as `dynamodb.scan` receives it. */
  datatype ScanRequest = ScanRequest(
    filter: map<string, Condition>,
    limit: Option<int>,
    nextToken: Option<string>,
    consistentRead: bool,
    select: string,
    scanIndexForward: bool)

  /** A DynamoDB `GetItem` descriptor. */
  datatype GetRequest = GetRequest(key: map<string, Value>)

  /** What the data source hands back to `response`. */
  datatype QueryResult = QueryResult(items: seq<Item>, nextToken: Option<string>, scannedCount: nat)

  /** What the listing resolvers return to the client. */
  datatype Page = Page(items: seq<Item>, nextToken: Option<string>)

  /** `util.dynamodb.toDynamoDB` of a string. */
  function ToDynamoDB(s: string): Value {
    Obj(map["S" := Str(s)])
  }

  /** The plain value a typed DynamoDB string value stands for. */
  function FromDynamoDB(v: Value): Option<Value> {
    if v.Obj? && "S" in v.attrs then Some(v.attrs["S"]) else None
  }

  /** An item satisfies an equality key condition `<#name> = <:value>`. */
  ghost predicate QueryMatches(q: QueryRequest, item: Item) {
    exists n, v :: n in q.expressionNames && v in q.expressionValues && q.expression == n + " = " + v
      && q.expressionNames[n] in item
      && FromDynamoDB(q.expressionValues[v]) == Some(item[q.expressionNames[n]])
  }

  /** The items of `t` a query selects, before paging. */
  ghost function QueryItems(t: Table, q: QueryRequest): set<Item> {
    set k | k in t && QueryMatches(q, t[k]) :: t[k]
  }

  /**
   * getTasks `request`: a `limit` above 25 is an error; otherwise a `Query` on
   * the `byOwner` index for the caller's username, paging arguments forwarded.
   */
  function GetTasksRequest(identity: Identity, args: PageArgs): (r: Result<QueryRequest, Error>)
    ensures r.Failure? <==> args.limit.Some? && args.limit.value > MaxPageSize
    ensures r.Failure? ==> r.error == ResolverError("max length is 25")
    ensures r.Success? ==>
      && r.value.operation == "Query"
      && r.value.index == Some("byOwner")
      && r.value.limit == args.limit
      && r.value.nextToken == args.nextToken
      && r.value.scanIndexForward
      && !r.value.consistentRead
      && r.value.select == "ALL_ATTRIBUTES"
  {
    if args.limit.Some? && args.limit.value > MaxPageSize then Failure(ResolverError("max length is 25"))
    else Success(QueryRequest(
      "Query",
      "#owner = :userId",
      map["#owner" := "owner"],
      map[":userId" := ToDynamoDB(identity.username)],
      Some("byOwner"),
      args.nextToken,
      args.limit,
      true,
      false,
      "ALL_ATTRIBUTES"))
  }

  /**
   * The getTasks query selects exactly the caller's items: whatever the
   * arguments, an item matches if and only if its `owner` is the caller's
   * username.
   */
  lemma GetTasksSelectsCallerItems(identity: Identity, args: PageArgs, item: Item)
    requires GetTasksRequest(identity, args).Success?
    ensures QueryMatches(GetTasksRequest(identity, args).value, item)
            <==> "owner" in item && item["owner"] == Str(identity.username)
  {
    var q := GetTasksRequest(identity, args).value;
    if "owner" in item && item["owner"] == Str(identity.username) {
      assert q.expression == "#owner" + " = " + ":userId";
      assert FromDynamoDB(q.expressionValues[":userId"]) == Some(item[q.expressionNames["#owner"]]);
    }
  }

  /** Every item the getTasks query returns from any table belongs to the caller, and every caller item is returned. */
  lemma GetTasksOwnerScoped(t: Table, identity: Identity, args: PageArgs)
    requires GetTasksRequest(identity, args).Success?
    ensures forall item :: item in QueryItems(t, GetTasksRequest(identity, args).value) ==>
              "owner" in item && item["owner"] == Str(identity.username)
    ensures forall k :: k in t && "owner" in t[k] && t[k]["owner"] == Str(identity.username) ==>
              t[k] in QueryItems(t, GetTasksRequest(identity, args).value)
  {
    var q := GetTasksRequest(identity, args).value;
    forall item | item in QueryItems(t, q)
      ensures "owner" in item && item["owner"] == Str(identity.username)
    {
      GetTasksSelectsCallerItems(identity, args, item);
    }
    forall k | k in t && "owner" in t[k] && t[k]["owner"] == Str(identity.username)
      ensures t[k] in QueryItems(t, q)
    {
      GetTasksSelectsCallerItems(identity, args, t[k]);
    }
  }

  /** Both listing `response`s: the items and the token of the result, nothing else. */
  function PageResponse(result: QueryResult): (p: Page)
    ensures p.items == result.items && p.nextToken == result.nextToken
  {
    Page(result.items, result.nextToken)
  }

  /** An item passes a scan filter when every filtered attribute is present and equal. */
  predicate FilterAdmits(filter: map<string, Condition>, item: Item) {
    forall a :: a in filter ==> a in item && item[a] == filter[a].value
  }

  /** The items of `t` a scan admits, before paging. */
  ghost function ScanItems(t: Table, s: ScanRequest): set<Item> {
    set k | k in t && FilterAdmits(s.filter, t[k]) :: t[k]
  }

  /** getImages `request`: a scan filtered on `status = "public"`, paging arguments forwarded without a bound. */
  function GetImagesRequest(args: PageArgs): (r: ScanRequest)
    ensures r.limit == args.limit && r.nextToken == args.nextToken
    ensures !r.consistentRead && r.select == "ALL_ATTRIBUTES"
  {
    ScanRequest(map["status" := Eq(Str("public"))], args.limit, args.nextToken, false, "ALL_ATTRIBUTES", true)
  }

  /** The getImages filter admits an item if and only if its status is "public". */
  lemma GetImagesAdmitsOnlyPublic(args: PageArgs, item: Item)
    ensures FilterAdmits(GetImagesRequest(args).filter, item) <==> "status" in item && item["status"] == Str("public")
  {
    if "status" in item && item["status"] == Str("public") {
      forall a | a in GetImagesRequest(args).filter
        ensures a in item && item[a] == GetImagesRequest(args).filter[a].value
      {
        assert a == "status";
      }
    }
  }

  /** No listed image is anything but public, and every public image of the table is listed. */
  lemma GetImagesListsPublicImages(t: Table, args: PageArgs)
    ensures forall item :: item in ScanItems(t, GetImagesRequest(args)) ==> item["status"] == Str("public")
    ensures forall k :: k in t && "status" in t[k] && t[k]["status"] == Str("public") ==>
              t[k] in ScanItems(t, GetImagesRequest(args))
  {
    forall item | item in ScanItems(t, GetImagesRequest(args))
      ensures item["status"] == Str("public")
    {
      GetImagesAdmitsOnlyPublic(args, item);
    }
    forall k | k in t && "status" in t[k] && t[k]["status"] == Str("public")
      ensures t[k] in ScanItems(t, GetImagesRequest(args))
    {
      GetImagesAdmitsOnlyPublic(args, t[k]);
    }
  }

  /** The images table's primary key: hash key `id` and range key `createdAt`. */
  const ImagesKeySchema: set<string> := {"id", "createdAt"}

  /** getImage `request`: a `GetItem` whose key is `{id: imageId}` alone. */
  function GetImageRequest(imageId: string): (r: GetRequest)
    ensures r.key.Keys == {"id"} && r.key["id"] == Str(imageId)
  {
    GetRequest(map["id" := Str(imageId)])
  }

  /** getImage `response`: the data source's result, unchanged. */
  function GetImageResponse(result: Option<Item>): (r: Option<Item>)
    ensures r == result
  {
    result
  }

  /**
   * DynamoDB `GetItem` on a table with key schema `schema`: a key that does
   * not name exactly the key attributes is rejected; otherwise the item whose
   * key attributes all equal the key's, if there is one.
   */
  function GetItem(t: Table, schema: set<string>, key: map<string, Value>): (r: Result<Option<Item>, Error>)
    ensures key.Keys != schema <==> r == Failure(ValidationError)
    ensures r.Success? && r.value.Some? ==> forall a :: a in key ==> a in r.value.value && r.value.value[a] == key[a]
  {
    if key.Keys != schema then Failure(ValidationError)
    else if "id" in key && key["id"].Str? && key["id"].s in t
            && (forall a :: a in key ==> a in t[key["id"].s] && t[key["id"].s][a] == key[a])
    then Success(Some(t[key["id"].s]))
    else Success(None)
  }

  /** As written, getImage never finds an image: its key lacks the table's range key, so every request is rejected. */
  lemma GetImageAlwaysRejected(t: Table, imageId: string)
    ensures GetItem(t, ImagesKeySchema, GetImageRequest(imageId).key) == Failure(ValidationError)
  {
    assert "createdAt" in ImagesKeySchema && "createdAt" !in GetImageRequest(imageId).key;
  }

  /** A lookup by image id that the table's key schema allows: a `Query` on the hash key `id`. */
  function GetImageQuery(imageId: string): (q: QueryRequest)
    ensures q.expression == "#id = :id" && q.expressionNames == map["#id" := "id"]
    ensures ":id" in q.expressionValues && FromDynamoDB(q.expressionValues[":id"]) == Some(Str(imageId))
    ensures q.index == None
  {
    QueryRequest(
      "Query",
      "#id = :id",
      map["#id" := "id"],
      map[":id" := ToDynamoDB(imageId)],
      None,
      None,
      None,
      true,
      false,
      "ALL_ATTRIBUTES")
  }

  /**
   * The query selects exactly the stored image with that id, whatever its
   * owner and status: the single-item fetch the resolver was meant to make.
   */
  lemma GetImageQueryFindsImage(t: Table, imageId: string)
    requires KeyedById(t)
    ensures QueryItems(t, GetImageQuery(imageId)) == if imageId in t then {t[imageId]} else {}
  {
    var q := GetImageQuery(imageId);
    forall k | k in t
      ensures QueryMatches(q, t[k]) <==> k == imageId
    {
      if k == imageId {
        assert q.expression == "#id" + " = " + ":id";
        assert FromDynamoDB(q.expressionValues[":id"]) == Some(t[k][q.expressionNames["#id"]]);
      }
    }
  }
}
