/**
 * What every handler shares: DynamoDB attribute values and items, a table as a map
 * from `id` to item with an upsert `Put`, S3 objects, the caller's identity, the
 * external calls a handler makes and the ways a handler run can end.
 */
module Aws {
  import opened Wrappers

  /**
   * An attribute value as the handlers see it. Numbers are held as their decimal
   * text: `Num` is a DynamoDB number (a Python `Decimal` once boto3 has read it
   * back), `Float` is a Python float that has not been stored (Rekognition's
   * confidences), kept as its `repr`.
   */
  datatype Value =
    | Str(s: string)
    | Num(text: string)
    | Float(repr: string)
    | List(elems: seq<Value>)
    | Obj(attrs: map<string, Value>)

  /** One DynamoDB item: attribute name to value. */
  type Item = map<string, Value>

  /** One DynamoDB table, addressed by the item's `id` attribute. */
  type Table = map<string, Item>

  type Bytes = seq<bv8>

  /** The S3 bucket: object key to object content. */
  type Bucket = map<string, Bytes>

  /** The caller as Cognito identifies it to AppSync. */
  datatype Identity = Identity(username: string)

  /** The calls into services outside the model; a call named in a run's `faults` fails. */
  datatype Call = Presign | Download | Analyse | Upload | Query | Write

  datatype Error =
    | ServiceError(call: Call)           // botocore ClientError, or a rejected SDK promise
    | IndexError                         // `response["Items"][0]` on an empty result
    | KeyError(key: string)              // `del item[key]` when the key is absent
    | ResolverError(message: string)     // AppSync `util.error`
    | ValidationError                    // DynamoDB: the key does not match the table's key schema
    | UndefinedAttribute(name: string)   // the document client refuses to marshal `undefined`

  /** How an S3-triggered Python handler ends: it returns a status code or raises. */
  datatype Outcome = Returned(statusCode: int) | Raised(error: Error)

  /** The state an S3-triggered handler leaves behind, with how it ended. */
  datatype Run = Run(table: Table, bucket: Bucket, outcome: Outcome)

  predicate HasId(item: Item) {
    "id" in item && item["id"].Str?
  }

  /** Every item is stored under its own `id`. */
  ghost predicate KeyedById(t: Table) {
    forall k :: k in t ==> HasId(t[k]) && t[k]["id"] == Str(k)
  }

  /** DynamoDB `PutItem`: an upsert keyed by the item's `id`. */
  function Put(t: Table, item: Item): (r: Table)
    requires HasId(item)
    ensures r.Keys == t.Keys + {item["id"].s}
    ensures r[item["id"].s] == item
    ensures forall k :: k in t && k != item["id"].s ==> r[k] == t[k]
    ensures KeyedById(t) ==> KeyedById(r)
  {
    t[item["id"].s := item]
  }

  /** The items a `KeyConditionExpression=Key("id").eq(id)` query returns. */
  function QueryById(t: Table, id: string): (items: seq<Item>)
    ensures |items| <= 1
    ensures items == [] <==> id !in t
    ensures items != [] ==> items[0] == t[id]
  {
    if id in t then [t[id]] else []
  }
}
