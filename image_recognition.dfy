/**
 * The recognition handler, triggered by a new object under `images/`: it parses
 * the event key, downloads the rebuilt source key, asks Rekognition for labels,
 * maps them to lower-case key names, sets them on the stored image record,
 * deletes the record's upload `fields`, passes the record through a JSON round
 * trip (DynamoDB numbers out as text, floats back in as numbers) and writes it.
 */
module ImageRecognition {
  import opened Wrappers
  import opened Aws
  import opened ObjectKeys

  /** A Rekognition bounding box; the coordinates are Python floats, kept as their repr. */
  datatype BoundingBox = BoundingBox(height: string, left: string, top: string, width: string)

  datatype Instance = Instance(confidence: string, boundingBox: BoundingBox)

  /** A parent, category or alias: only its `Name` is read. */
  datatype NamedRef = NamedRef(name: string)

  /** One entry of Rekognition's `Labels`. */
  datatype Label = Label(name: string, confidence: string, instances: seq<Instance>,
                         parents: seq<NamedRef>, categories: seq<NamedRef>, aliases: seq<NamedRef>)

  const LabelAttributes: set<string> := {"name", "confidence", "instances", "parents", "categories"}
  const BoxAttributes: set<string> := {"height", "left", "top", "width"}

  /** `map_instance`: the confidence and exactly the four bounding-box fields, renamed. */
  function MapInstance(instance: Instance): (r: Value)
    ensures r.Obj? && r.attrs.Keys == {"confidence", "boundingBox"}
    ensures r.attrs["confidence"] == Float(instance.confidence)
    ensures var box := r.attrs["boundingBox"];
            && box.Obj? && box.attrs.Keys == BoxAttributes
            && box.attrs["height"] == Float(instance.boundingBox.height)
            && box.attrs["left"] == Float(instance.boundingBox.left)
            && box.attrs["top"] == Float(instance.boundingBox.top)
            && box.attrs["width"] == Float(instance.boundingBox.width)
  {
    var b := instance.boundingBox;
    Obj(map[
      "confidence" := Float(instance.confidence),
      "boundingBox" := Obj(map["height" := Float(b.height), "left" := Float(b.left),
                               "top" := Float(b.top), "width" := Float(b.width)])])
  }

  /** `map_key_value`: `{"name": item["Name"]}`. */
  function MapKeyValue(item: NamedRef): (r: Value)
    ensures r.Obj? && r.attrs.Keys == {"name"} && r.attrs["name"] == Str(item.name)
  {
    Obj(map["name" := Str(item.name)])
  }

  function MapInstances(instances: seq<Instance>): (r: seq<Value>)
    ensures |r| == |instances|
    ensures forall i :: 0 <= i < |r| ==> r[i] == MapInstance(instances[i])
  {
    seq(|instances|, i requires 0 <= i < |instances| => MapInstance(instances[i]))
  }

  function MapKeyValues(items: seq<NamedRef>): (r: seq<Value>)
    ensures |r| == |items|
    ensures forall i :: 0 <= i < |r| ==> r[i] == MapKeyValue(items[i])
  {
    seq(|items|, i requires 0 <= i < |items| => MapKeyValue(items[i]))
  }

  /**
   * `map_label`: exactly the keys name, confidence, instances, parents and
   * categories; aliases are dropped.
   */
  function MapLabel(entry: Label): (r: Value)
    ensures r.Obj? && r.attrs.Keys == LabelAttributes
    ensures r.attrs["name"] == Str(entry.name) && r.attrs["confidence"] == Float(entry.confidence)
    ensures r.attrs["instances"] == List(MapInstances(entry.instances))
    ensures r.attrs["parents"] == List(MapKeyValues(entry.parents))
    ensures r.attrs["categories"] == List(MapKeyValues(entry.categories))
  {
    Obj(map[
      "name" := Str(entry.name),
      "confidence" := Float(entry.confidence),
      "instances" := List(MapInstances(entry.instances)),
      "parents" := List(MapKeyValues(entry.parents)),
      "categories" := List(MapKeyValues(entry.categories))])
  }

  function MapLabels(labels: seq<Label>): (r: seq<Value>)
    ensures |r| == |labels|
    ensures forall i :: 0 <= i < |r| ==> r[i] == MapLabel(labels[i])
  {
    seq(|labels|, i requires 0 <= i < |labels| => MapLabel(labels[i]))
  }

  /**
   * `intersection`: every element present in both lists, each exactly once.
   * Python leaves the order to set iteration; this picks first-occurrence order
   * from the back of `a`.
   */
  function Intersection<T(==, !new)>(a: seq<T>, b: seq<T>): (r: seq<T>)
    ensures forall x :: x in r <==> x in a && x in b
    ensures forall i, j :: 0 <= i < j < |r| ==> r[i] != r[j]
  {
    if a == [] then []
    else
      var rest := Intersection(a[1..], b);
      if a[0] in b && a[0] !in rest then [a[0]] + rest else rest
  }

  /** A value DynamoDB can take from boto3: no Python float anywhere inside. */
  predicate Storable(v: Value) {
    match v
    case Float(_) => false
    case List(elems) => forall i :: 0 <= i < |elems| ==> Storable(elems[i])
    case Obj(attrs) => forall k :: k in attrs ==> Storable(attrs[k])
    case _ => true
  }

  /**
   * `json.loads(json.dumps(v, cls=DecimalEncoder), parse_float=Decimal)`: a
   * stored number leaves as its text and comes back a string; a float leaves
   * as its repr and comes back a number; strings, lists and maps keep their
   * shape.
   */
  function JsonRoundTrip(v: Value): (r: Value)
    ensures Storable(r)
    ensures v.Str? ==> r == v
    ensures v.Num? ==> r == Str(v.text)
    ensures v.Float? ==> r == Num(v.repr)
    ensures v.List? ==> r.List? && |r.elems| == |v.elems|
    ensures v.List? ==> forall i :: 0 <= i < |v.elems| ==> r.elems[i] == JsonRoundTrip(v.elems[i])
    ensures v.Obj? ==> r.Obj? && r.attrs.Keys == v.attrs.Keys
    ensures v.Obj? ==> forall k :: k in v.attrs ==> r.attrs[k] == JsonRoundTrip(v.attrs[k])
  {
    match v
    case Str(_) => v
    case Num(text) => Str(text)
    case Float(repr) => Num(repr)
    case List(elems) =>
      List(seq(|elems|, i requires 0 <= i < |elems| => JsonRoundTrip(elems[i])))
    case Obj(attrs) =>
      Obj(map k | k in attrs :: JsonRoundTrip(attrs[k]))
  }

  /** A value with no number of either kind anywhere inside. */
  predicate NumberFree(v: Value) {
    match v
    case Num(_) => false
    case Float(_) => false
    case List(elems) => forall i :: 0 <= i < |elems| ==> NumberFree(elems[i])
    case Obj(attrs) => forall k :: k in attrs ==> NumberFree(attrs[k])
    case _ => true
  }

  /** The round trip changes only numbers: a value without any comes back exactly as it was, however deeply nested. */
  lemma {:induction false} JsonRoundTripKeepsNumberFree(v: Value)
    requires NumberFree(v)
    ensures JsonRoundTrip(v) == v
  {
    match v
    case Str(_) =>
    case List(elems) =>
      forall i | 0 <= i < |elems| ensures JsonRoundTrip(elems[i]) == elems[i] {
        JsonRoundTripKeepsNumberFree(elems[i]);
      }
      assert JsonRoundTrip(v).elems == elems;
    case Obj(attrs) =>
      forall k | k in attrs ensures JsonRoundTrip(attrs[k]) == attrs[k] {
        JsonRoundTripKeepsNumberFree(attrs[k]);
      }
      assert JsonRoundTrip(v).attrs == attrs;
  }

  /** The round trip applied to a whole item, attribute by attribute. */
  function JsonRoundTripItem(item: Item): (r: Item)
    ensures r.Keys == item.Keys
    ensures forall a :: a in r ==> r[a] == JsonRoundTrip(item[a])
  {
    map a | a in item :: JsonRoundTrip(item[a])
  }

  /**
   * The stored record after recognition: `labels` set, `fields` deleted (a
   * record without `fields` raises `KeyError`), then the JSON round trip.
   */
  function RecognisedRecord(image: Item, labels: seq<Value>): (r: Result<Item, Error>)
    ensures r.Failure? <==> "fields" !in image
    ensures r.Failure? ==> r.error == KeyError("fields")
    ensures r.Success? ==> r.value.Keys == image.Keys + {"labels"} - {"fields"}
    ensures r.Success? ==> r.value["labels"] == JsonRoundTrip(List(labels))
    ensures r.Success? ==> forall a :: a in r.value && a != "labels" ==> r.value[a] == JsonRoundTrip(image[a])
    ensures r.Success? ==> forall a :: a in r.value ==> Storable(r.value[a])
  {
    var labelled := image["labels" := List(labels)];
    if "fields" !in labelled then Failure(KeyError("fields"))
    else Success(JsonRoundTripItem(labelled - {"fields"}))
  }

  /**
   * One run of the handler once the event key has been turned into an image id
   * and a source key. Only a failing write is caught; every other error ends
   * the run with nothing written.
   */
  function Recognise(table: Table, bucket: Bucket, imageId: string, sourceKey: string,
                     detected: seq<Label>, faults: set<Call>): (r: Run)
    requires KeyedById(table)
    ensures KeyedById(r.table) && r.table.Keys == table.Keys && r.bucket == bucket
    ensures forall k :: k in table && k != imageId ==> r.table[k] == table[k]
    ensures r.table != table ==>
              imageId in table && RecognisedRecord(table[imageId], MapLabels(detected)) == Success(r.table[imageId])
    ensures r.outcome.Returned? ==> r.outcome.statusCode == 200
  {
    if Download in faults || sourceKey !in bucket then Run(table, bucket, Raised(ServiceError(Download)))
    else if Analyse in faults then Run(table, bucket, Raised(ServiceError(Analyse)))
    else
      var labels := MapLabels(detected);
      if Query in faults then Run(table, bucket, Raised(ServiceError(Query)))
      else
        var items := QueryById(table, imageId);
        if items == [] then Run(table, bucket, Raised(IndexError))
        else match RecognisedRecord(items[0], labels)
          case Failure(e) => Run(table, bucket, Raised(e))
          case Success(record) =>
            if Write in faults then Run(table, bucket, Returned(200))
            else Run(Put(table, record), bucket, Returned(200))
  }

  /** The handler as written: stem and suffix of the event key, source key `images/<stem>.<suffix>`. */
  function Recognition(table: Table, bucket: Bucket, objectKey: string, detected: seq<Label>, faults: set<Call>): (r: Run)
    requires KeyedById(table)
    ensures KeyedById(r.table) && r.table.Keys == table.Keys && r.bucket == bucket
    ensures RecognitionSourceKey(ParseKey(objectKey)) !in bucket ==> r == Run(table, bucket, Raised(ServiceError(Download)))
  {
    var k := ParseKey(objectKey);
    Recognise(table, bucket, k.imageId, RecognitionSourceKey(k), detected, faults)
  }

  /** The handler step by step: the fetched record is changed in place, then round-tripped and written. */
  method DetectImageLabels(table: Table, bucket: Bucket, objectKey: string, detected: seq<Label>, faults: set<Call>)
    returns (newTable: Table, outcome: Outcome)
    requires KeyedById(table)
    ensures Run(newTable, bucket, outcome) == Recognition(table, bucket, objectKey, detected, faults)
  {
    newTable := table;
    var k := ParseKey(objectKey);
    var imageId := k.imageId;
    var imageKey := RecognitionSourceKey(k);
    assert Recognition(table, bucket, objectKey, detected, faults)
        == Recognise(table, bucket, imageId, imageKey, detected, faults);
    if Download in faults || imageKey !in bucket {
      return table, Raised(ServiceError(Download));
    }
    if Analyse in faults {
      return table, Raised(ServiceError(Analyse));
    }
    var labels := MapLabels(detected);
    if Query in faults {
      return table, Raised(ServiceError(Query));
    }
    var items := QueryById(table, imageId);
    if items == [] {
      return table, Raised(IndexError);
    }
    var originalImage := items[0];
    originalImage := originalImage["labels" := List(labels)];
    if "fields" !in originalImage {
      return table, Raised(KeyError("fields"));
    }
    originalImage := originalImage - {"fields"};
    originalImage := JsonRoundTripItem(originalImage);
    outcome := Returned(200);
    if Write in faults {
      return;
    }
    newTable := Put(table, originalImage);
  }

  /**
   * A stored label keeps its five keys and its name; its confidence, a float
   * before the round trip, is stored as a DynamoDB number with the same text.
   */
  lemma StoredLabel(entry: Label)
    ensures var v := JsonRoundTrip(MapLabel(entry));
            && v.Obj? && v.attrs.Keys == LabelAttributes
            && v.attrs["name"] == Str(entry.name)
            && v.attrs["confidence"] == Num(entry.confidence)
  {
    var m := MapLabel(entry);
    assert JsonRoundTrip(m).attrs["name"] == JsonRoundTrip(m.attrs["name"]);
    assert JsonRoundTrip(m).attrs["confidence"] == JsonRoundTrip(m.attrs["confidence"]);
  }

  /**
   * With no failing call, the record gets the mapped labels and loses `fields`;
   * string attributes such as status, url, owner and key are unchanged, while
   * stored numbers (width, height) come back as strings.
   */
  lemma RecognitionLabelsRecord(table: Table, bucket: Bucket, imageId: string, sourceKey: string, detected: seq<Label>)
    requires KeyedById(table) && sourceKey in bucket && imageId in table && "fields" in table[imageId]
    ensures var r := Recognise(table, bucket, imageId, sourceKey, detected, {});
            var before := table[imageId];
            var after := r.table[imageId];
            && r.outcome == Returned(200)
            && RecognisedRecord(before, MapLabels(detected)) == Success(after)
            && after.Keys == before.Keys + {"labels"} - {"fields"}
            && after["labels"] == JsonRoundTrip(List(MapLabels(detected)))
            && (forall a :: a in before && a != "labels" && a != "fields" && before[a].Str? ==> after[a] == before[a])
            && (forall a :: a in before && a != "labels" && a != "fields" && before[a].Num? ==> after[a] == Str(before[a].text))
  {
  }

  /**
   * A record without `fields` (one a previous run already handled, say) makes the
   * handler raise at the delete, before any write.
   */
  lemma RecognitionWithoutFieldsRaises(table: Table, bucket: Bucket, imageId: string, sourceKey: string,
                                       detected: seq<Label>, faults: set<Call>)
    requires KeyedById(table) && sourceKey in bucket && imageId in table && "fields" !in table[imageId]
    requires Download !in faults && Analyse !in faults && Query !in faults
    ensures Recognise(table, bucket, imageId, sourceKey, detected, faults) == Run(table, bucket, Raised(KeyError("fields")))
  {
  }

  /** Only the write is guarded: its failure is swallowed and the handler still returns 200. */
  lemma RecognitionSwallowsWriteError(table: Table, bucket: Bucket, imageId: string, sourceKey: string, detected: seq<Label>)
    requires KeyedById(table) && sourceKey in bucket && imageId in table && "fields" in table[imageId]
    ensures Recognise(table, bucket, imageId, sourceKey, detected, {Write}) == Run(table, bucket, Returned(200))
  {
  }

  /**
   * Any other failing call propagates: the handler raises the first one in
   * call order (download, then labels, then query) and writes nothing.
   */
  lemma RecognitionRaisesOtherErrors(table: Table, bucket: Bucket, imageId: string, sourceKey: string,
                                     detected: seq<Label>, faults: set<Call>)
    requires KeyedById(table) && sourceKey in bucket
    requires Download in faults || Analyse in faults || Query in faults
    ensures Recognise(table, bucket, imageId, sourceKey, detected, faults)
         == Run(table, bucket, Raised(ServiceError(
              if Download in faults then Download else if Analyse in faults then Analyse else Query)))
  {
  }

  /** A second delivery of the same event cannot succeed: the first run removed `fields`. */
  lemma RecognitionNotRepeatable(table: Table, bucket: Bucket, imageId: string, sourceKey: string,
                                 detected: seq<Label>, again: seq<Label>)
    requires KeyedById(table)
    ensures var first := Recognise(table, bucket, imageId, sourceKey, detected, {});
            first.outcome == Returned(200) ==>
              Recognise(first.table, first.bucket, imageId, sourceKey, again, {}).outcome == Raised(KeyError("fields"))
  {
  }
}
