/**
 * The `getImageUploadUrl` Lambda: derives the upload key from the caller's file
 * name, asks S3 for a presigned POST constrained to that key, an image content
 * type and a size range, stores an image record in `waiting_upload` and returns
 * the grant. The presigner is a parameter; the S3 policy check the grant is
 * later submitted to is modelled by `PolicyAdmits`.
 */
module PresignedPost {
  import opened Wrappers
  import opened Aws
  import opened ObjectKeys

  const WaitingUpload := "waiting_upload"
  const MinContentLength := 1024
  const MaxContentLength := 10485760
  const ExpiresSeconds := 600

  /** A condition of an S3 POST policy. */
  datatype Condition = StartsWith(field: string, prefix: string) | ContentLengthRange(min: int, max: int)

  predicate DistinctNames(obj: seq<(string, string)>) {
    forall i, j :: 0 <= i < j < |obj| ==> obj[i].0 != obj[j].0
  }

  /** A JavaScript object with string values: its (key, value) pairs in key order. */
  type JsObject = obj: seq<(string, string)> | DistinctNames(obj) witness []

  /** The options handed to `createPresignedPost`. */
  datatype PostOptions = PostOptions(
    bucket: string, key: string, conditions: seq<Condition>, fields: JsObject, expires: int)

  /** What `createPresignedPost` returns. */
  datatype PresignedForm = PresignedForm(url: string, fields: JsObject)

  /** `event.arguments.input`. */
  datatype UploadInput = UploadInput(filename: string, contentType: string)

  /** What the handler returns to AppSync. */
  datatype UploadResult = UploadResult(id: string, url: string, fields: seq<Value>)

  /** A browser's POST of one object under a grant, `elapsed` seconds after the grant was issued. */
  datatype UploadAttempt = UploadAttempt(bucket: string, key: string, contentType: string, size: int, elapsed: int)

  /** The options the handler presigns for `key`: bucket from ASSETS_BUCKET (or ""), two conditions, the caller's content type, 600 seconds. */
  function GrantOptions(assetsBucket: Option<string>, key: string, input: UploadInput): (o: PostOptions)
    ensures o.bucket == assetsBucket.GetOr("") && o.key == key && o.expires == ExpiresSeconds
    ensures StartsWith("$Content-Type", "image/") in o.conditions
    ensures ContentLengthRange(MinContentLength, MaxContentLength) in o.conditions
    ensures o.fields == [("Content-Type", input.contentType)]
  {
    PostOptions(
      assetsBucket.GetOr(""),
      key,
      [StartsWith("$Content-Type", "image/"), ContentLengthRange(MinContentLength, MaxContentLength)],
      [("Content-Type", input.contentType)],
      ExpiresSeconds)
  }

  /** The value an upload attempt gives a form field. */
  function FormValue(a: UploadAttempt, field: string): Option<string> {
    if field == "Content-Type" then Some(a.contentType)
    else if field == "key" then Some(a.key)
    else if field == "bucket" then Some(a.bucket)
    else None
  }

  predicate Holds(c: Condition, a: UploadAttempt) {
    match c
    case StartsWith(field, prefix) =>
      |field| > 0 && field[0] == '$' && FormValue(a, field[1..]).Some? && prefix <= FormValue(a, field[1..]).value
    case ContentLengthRange(min, max) => min <= a.size <= max
  }

  /**
   * S3's check of a POST against the policy the presigner signed: the bucket
   * and key are the signed ones, the grant has not expired, every signed field
   * has its signed value and every condition holds.
   */
  predicate PolicyAdmits(opts: PostOptions, a: UploadAttempt) {
    && a.bucket == opts.bucket
    && a.key == opts.key
    && 0 <= a.elapsed < opts.expires
    && (forall i :: 0 <= i < |opts.fields| ==> FormValue(a, opts.fields[i].0) == Some(opts.fields[i].1))
    && (forall i :: 0 <= i < |opts.conditions| ==> Holds(opts.conditions[i], a))
  }

  /**
   * The grant for `key` admits exactly one object location and exactly the uploads whose
   * content type is the caller's declared one, starts with "image/", whose size
   * is within [1024, 10485760] bytes and that arrive within 600 seconds.
   */
  lemma GrantAdmitsExactly(assetsBucket: Option<string>, key: string, input: UploadInput, a: UploadAttempt)
    ensures PolicyAdmits(GrantOptions(assetsBucket, key, input), a) <==>
      && a.bucket == assetsBucket.GetOr("")
      && a.key == key
      && a.contentType == input.contentType
      && "image/" <= input.contentType
      && MinContentLength <= a.size <= MaxContentLength
      && 0 <= a.elapsed < ExpiresSeconds
  {
    var opts := GrantOptions(assetsBucket, key, input);
    assert "$Content-Type"[1..] == "Content-Type";
    if PolicyAdmits(opts, a) {
      assert FormValue(a, opts.fields[0].0) == Some(opts.fields[0].1);
      assert Holds(opts.conditions[0], a);
      assert Holds(opts.conditions[1], a);
    }
  }

  /** The handler accepts any content type, but a grant for a non-image type admits no upload at all. */
  lemma NonImageGrantAdmitsNothing(assetsBucket: Option<string>, key: string, input: UploadInput, a: UploadAttempt)
    requires !("image/" <= input.contentType)
    ensures !PolicyAdmits(GrantOptions(assetsBucket, key, input), a)
  {
    GrantAdmitsExactly(assetsBucket, key, input, a);
  }

  /** `obj[name]`: the value of the first pair with that key. */
  function Lookup(obj: seq<(string, string)>, name: string): Option<string> {
    if obj == [] then None
    else if obj[0].0 == name then Some(obj[0].1)
    else Lookup(obj[1..], name)
  }

  lemma {:induction false} LookupAt(obj: JsObject, i: nat)
    requires i < |obj|
    ensures Lookup(obj, obj[i].0) == Some(obj[i].1)
  {
    if i > 0 {
      assert obj[0].0 != obj[i].0;
      var rest: JsObject := obj[1..];
      assert rest[i - 1] == obj[i];
      LookupAt(rest, i - 1);
    }
  }

  /** `{name, value}`. */
  function NameValue(name: string, value: string): Value {
    Obj(map["name" := Str(name), "value" := Str(value)])
  }

  /**
   * `Object.keys(fields).map(name => ({name, value: fields[name]}))`: one
   * `{name, value}` per key, in key order, carrying that key's own value.
   */
  function FlattenFields(fields: JsObject): (r: seq<Value>)
    ensures |r| == |fields|
    ensures forall i :: 0 <= i < |r| ==> r[i] == NameValue(fields[i].0, fields[i].1)
  {
    var names := seq(|fields|, i requires 0 <= i < |fields| => fields[i].0);
    var r := seq(|names|, i requires 0 <= i < |names| => NameValue(names[i], Lookup(fields, names[i]).GetOr("")));
    assert forall i :: 0 <= i < |r| ==> r[i] == NameValue(fields[i].0, fields[i].1) by {
      forall i | 0 <= i < |r| ensures r[i] == NameValue(fields[i].0, fields[i].1) {
        LookupAt(fields, i);
      }
    }
    r
  }

  /** The record the handler stores. */
  function ImageRecord(id: string, owner: string, url: string, fields: seq<Value>, key: string, createdAt: string): (r: Item)
    ensures r.Keys == {"id", "owner", "url", "fields", "key", "status", "createdAt"}
    ensures r["id"] == Str(id) && r["owner"] == Str(owner) && r["url"] == Str(url) && r["fields"] == List(fields)
    ensures r["key"] == Str(key) && r["status"] == Str(WaitingUpload) && r["createdAt"] == Str(createdAt)
  {
    map[
      "id" := Str(id),
      "owner" := Str(owner),
      "url" := Str(url),
      "fields" := List(fields),
      "key" := Str(key),
      "status" := Str(WaitingUpload),
      "createdAt" := Str(createdAt)]
  }

  /**
   * `getImageUploadUrl`. `id` and `createdAt` are the handler's `ulid()` and
   * `new Date().toJSON()`, `presign` is `createPresignedPost`, `table` is the
   * table IMAGES_TABLE names. A failing presign or write rejects the call; the
   * write happens only after the grant exists.
   */
  function GetImageUploadUrl(
    table: Table, assetsBucket: Option<string>, identity: Identity, input: UploadInput,
    id: string, createdAt: string, presign: PostOptions -> PresignedForm, faults: set<Call>)
    : (r: Result<(UploadResult, Table), Error>)
    ensures Presign in faults ==> r == Failure(ServiceError(Presign))
    ensures Presign !in faults && Write in faults ==> r == Failure(ServiceError(Write))
    ensures r.Success? <==> Presign !in faults && Write !in faults
    ensures r.Success? ==>
      var (res, t) := r.value;
      var opts := GrantOptions(assetsBucket, UploadKey(id, input.filename), input);
      && opts.key == UploadKey(id, input.filename)
      && res.id == id
      && res.url == presign(opts).url
      && res.fields == FlattenFields(presign(opts).fields)
      && t.Keys == table.Keys + {id}
      && (forall k :: k in table && k != id ==> t[k] == table[k])
      && t[id].Keys == {"id", "owner", "url", "fields", "key", "status", "createdAt"}
      && t[id]["id"] == Str(id)
      && t[id]["owner"] == Str(identity.username)
      && t[id]["url"] == Str(res.url)
      && t[id]["fields"] == List(res.fields)
      && t[id]["key"] == Str(opts.key)
      && t[id]["status"] == Str(WaitingUpload)
      && t[id]["createdAt"] == Str(createdAt)
  {
    var opts := GrantOptions(assetsBucket, UploadKey(id, input.filename), input);
    if Presign in faults then Failure(ServiceError(Presign))
    else
      var form := presign(opts);
      var newFields := FlattenFields(form.fields);
      var data := ImageRecord(id, identity.username, form.url, newFields, opts.key, createdAt);
      if Write in faults then Failure(ServiceError(Write))
      else Success((UploadResult(id, form.url, newFields), Put(table, data)))
  }
}
