/**
 * The moderation handler, triggered by a new object under `uploaded-images/`:
 * it parses the event key into an image id and an extension, downloads the
 * rebuilt source key, asks Rekognition for moderation labels, publishes the
 * processed (blurred when flagged) image as `images/<id>.png`, and rewrites the
 * stored image record as public. A service error anywhere is swallowed.
 */
module ImageModeration {
  import opened Aws
  import opened Paths
  import opened ObjectKeys

  const Public := "public"

  /** The resized width, `base_width`, as the decimal text DynamoDB stores. */
  const BaseWidthText := "960"

  /** The attributes the handler may write into the stored record. */
  const ModerationAttributes: set<string> := {"status", "url", "width", "height", "blurhash"}

  /** One entry of Rekognition's `ModerationLabels`; only whether there are any matters here. */
  datatype ModerationLabel = ModerationLabel(name: string, parentName: string, confidence: string)

  /**
   * What the image library makes of the downloaded object: the resized height
   * (as decimal text), the blurhash, the re-encoded PNG and its blurred PNG.
   */
  datatype Processing = Processing(height: string, blurhash: string, png: Bytes, blurredPng: Bytes)

  /** A flagged image is one with at least one moderation label. */
  predicate Flagged(labels: seq<ModerationLabel>) {
    |labels| > 0
  }

  /** The object the handler publishes: the blurred PNG when flagged, the plain PNG otherwise. */
  function PublishedImage(flagged: bool, p: Processing): (b: Bytes)
    ensures flagged ==> b == p.blurredPng
    ensures !flagged ==> b == p.png
  {
    if flagged then p.blurredPng else p.png
  }

  /**
   * The stored record after moderation: `status` becomes public and `url` the
   * public url on both branches; only a clean image also gets `width`, `height`
   * and `blurhash`; every other attribute is carried over.
   */
  function ModeratedRecord(image: Item, url: string, flagged: bool, p: Processing): (r: Item)
    ensures r.Keys == image.Keys + {"status", "url"} + (if flagged then {} else {"width", "height", "blurhash"})
    ensures r["status"] == Str(Public) && r["url"] == Str(url)
    ensures !flagged ==> r["width"] == Num(BaseWidthText) && r["height"] == Num(p.height) && r["blurhash"] == Str(p.blurhash)
    ensures forall a :: a in image && a !in ModerationAttributes ==> r[a] == image[a]
    ensures flagged ==> forall a :: a in image && a != "status" && a != "url" ==> r[a] == image[a]
  {
    var shown := image["status" := Str(Public)]["url" := Str(url)];
    if flagged then shown
    else shown["width" := Num(BaseWidthText)]["height" := Num(p.height)]["blurhash" := Str(p.blurhash)]
  }

  /**
   * One run of the handler once the event key has been turned into an image id
   * and a source key, in the order of the calls it makes: download, label
   * detection, upload of the public image, the query, the write.
   */
  function Moderate(table: Table, bucket: Bucket, bucketName: string, imageId: string, sourceKey: string,
                    labels: seq<ModerationLabel>, p: Processing, faults: set<Call>): (r: Run)
    requires KeyedById(table)
    ensures KeyedById(r.table) && r.table.Keys == table.Keys
    ensures forall k :: k in table && k != imageId ==> r.table[k] == table[k]
    ensures r.table != table ==>
              imageId in table && r.table[imageId] ==
                ModeratedRecord(table[imageId], PublicUrl(bucketName, PublicKey(imageId)), Flagged(labels), p)
    ensures r.bucket == bucket || r.bucket == bucket[PublicKey(imageId) := PublishedImage(Flagged(labels), p)]
    ensures r.outcome == Returned(200) || r.outcome == Raised(IndexError)
    ensures r.outcome.Raised? <==>
              sourceKey in bucket && imageId !in table
              && Download !in faults && Analyse !in faults && Upload !in faults && Query !in faults
  {
    if Download in faults || sourceKey !in bucket then Run(table, bucket, Returned(200))
    else if Analyse in faults then Run(table, bucket, Returned(200))
    else if Upload in faults then Run(table, bucket, Returned(200))
    else
      var key := PublicKey(imageId);
      var published := bucket[key := PublishedImage(Flagged(labels), p)];
      if Query in faults then Run(table, published, Returned(200))
      else
        var items := QueryById(table, imageId);
        if items == [] then Run(table, published, Raised(IndexError))
        else
          var image := ModeratedRecord(items[0], PublicUrl(bucketName, key), Flagged(labels), p);
          if Write in faults then Run(table, published, Returned(200))
          else Run(Put(table, image), published, Returned(200))
  }

  /** The handler as written: the id is the key's stem and the source key is rebuilt from stem and suffix. */
  function Moderation(table: Table, bucket: Bucket, bucketName: string, objectKey: string,
                      labels: seq<ModerationLabel>, p: Processing, faults: set<Call>): (r: Run)
    requires KeyedById(table)
    ensures r.outcome == Returned(200) || r.outcome == Raised(IndexError)
    ensures KeyedById(r.table) && r.table.Keys == table.Keys
    ensures ModerationSourceKey(ParseKey(objectKey)) !in bucket ==> r == Run(table, bucket, Returned(200))
  {
    var k := ParseKey(objectKey);
    Moderate(table, bucket, bucketName, k.imageId, ModerationSourceKey(k), labels, p, faults)
  }

  /** The handler with the key parser that keeps the event's own key as the source object. */
  function CorrectedModeration(table: Table, bucket: Bucket, bucketName: string, objectKey: string,
                               labels: seq<ModerationLabel>, p: Processing, faults: set<Call>): (r: Run)
    requires KeyedById(table)
    ensures r.outcome == Returned(200) || r.outcome == Raised(IndexError)
    ensures KeyedById(r.table) && r.table.Keys == table.Keys
    ensures objectKey !in bucket ==> r == Run(table, bucket, Returned(200))
  {
    var parsed := ParseUploadKey(objectKey);
    Moderate(table, bucket, bucketName, parsed.0, parsed.1, labels, p, faults)
  }

  /**
   * The handler step by step: the fetched record is updated in place, one
   * attribute at a time, before it is written back.
   */
  method DetectModerationLabels(table: Table, bucket: Bucket, bucketName: string, objectKey: string,
                                labels: seq<ModerationLabel>, p: Processing, faults: set<Call>)
    returns (newTable: Table, newBucket: Bucket, outcome: Outcome)
    requires KeyedById(table)
    ensures Run(newTable, newBucket, outcome) == Moderation(table, bucket, bucketName, objectKey, labels, p, faults)
  {
    newTable, newBucket, outcome := table, bucket, Returned(200);
    var k := ParseKey(objectKey);
    var imageId := k.imageId;
    var imageKey := ModerationSourceKey(k);
    assert Moderation(table, bucket, bucketName, objectKey, labels, p, faults)
        == Moderate(table, bucket, bucketName, imageId, imageKey, labels, p, faults);
    if Download in faults || imageKey !in bucket {
      return;
    }
    var imageBytes := p.png;
    if Analyse in faults {
      return;
    }
    var flagged := |labels| > 0;
    if flagged {
      imageBytes := p.blurredPng;
    }
    if Upload in faults {
      return;
    }
    imageKey := PublicKey(imageId);
    newBucket := newBucket[imageKey := imageBytes];
    var publicImageUrl := PublicUrl(bucketName, imageKey);
    if Query in faults {
      return;
    }
    var items := QueryById(table, imageId);
    if items == [] {
      outcome := Raised(IndexError);
      return;
    }
    var image := items[0];
    image := image["status" := Str(Public)];
    image := image["url" := Str(publicImageUrl)];
    if !flagged {
      image := image["width" := Num(BaseWidthText)];
      image := image["height" := Num(p.height)];
      image := image["blurhash" := Str(p.blurhash)];
    }
    if Write in faults {
      return;
    }
    newTable := Put(newTable, image);
  }

  /** With no failing call, an existing record becomes public with the public url, and the image is published. */
  lemma ModerationPublishes(table: Table, bucket: Bucket, bucketName: string, imageId: string, sourceKey: string,
                            labels: seq<ModerationLabel>, p: Processing)
    requires KeyedById(table) && sourceKey in bucket && imageId in table
    ensures var r := Moderate(table, bucket, bucketName, imageId, sourceKey, labels, p, {});
            && r.outcome == Returned(200)
            && r.table[imageId] == ModeratedRecord(table[imageId], PublicUrl(bucketName, PublicKey(imageId)), Flagged(labels), p)
            && r.table[imageId]["status"] == Str(Public)
            && r.table[imageId]["url"] == Str(PublicUrl(bucketName, PublicKey(imageId)))
            && PublicKey(imageId) in r.bucket && r.bucket[PublicKey(imageId)] == PublishedImage(Flagged(labels), p)
            && (forall a :: a in table[imageId] && a !in ModerationAttributes ==>
                  a in r.table[imageId] && r.table[imageId][a] == table[imageId][a])
  {
  }

  /** No other status is ever written: every record is either untouched or public. */
  lemma ModerationWritesOnlyPublic(table: Table, bucket: Bucket, bucketName: string, imageId: string, sourceKey: string,
                                   labels: seq<ModerationLabel>, p: Processing, faults: set<Call>)
    requires KeyedById(table)
    ensures var r := Moderate(table, bucket, bucketName, imageId, sourceKey, labels, p, faults);
            forall k :: k in r.table ==> r.table[k] == table[k] || r.table[k]["status"] == Str(Public)
  {
  }

  /**
   * A failing service call is swallowed: the handler still returns 200 and the
   * record is left as it was.
   */
  lemma ModerationSwallowsServiceErrors(table: Table, bucket: Bucket, bucketName: string, imageId: string,
                                        sourceKey: string, labels: seq<ModerationLabel>, p: Processing, faults: set<Call>)
    requires KeyedById(table)
    requires Download in faults || Analyse in faults || Upload in faults || Query in faults
             || (Write in faults && imageId in table)
    ensures var r := Moderate(table, bucket, bucketName, imageId, sourceKey, labels, p, faults);
            r.table == table && r.outcome == Returned(200)
  {
  }

  /** Moderating an already moderated record changes nothing more. */
  lemma ModeratedRecordIdempotent(image: Item, url: string, flagged: bool, p: Processing)
    ensures ModeratedRecord(ModeratedRecord(image, url, flagged, p), url, flagged, p) == ModeratedRecord(image, url, flagged, p)
  {
    var once := ModeratedRecord(image, url, flagged, p);
    var twice := ModeratedRecord(once, url, flagged, p);
    assert forall a :: a in twice ==> twice[a] == once[a];
  }

  /** A redelivered event finds the state its first delivery left and leaves it as it is. */
  lemma ModerationRedeliveryIdempotent(table: Table, bucket: Bucket, bucketName: string, imageId: string,
                                       sourceKey: string, labels: seq<ModerationLabel>, p: Processing)
    requires KeyedById(table)
    ensures var first := Moderate(table, bucket, bucketName, imageId, sourceKey, labels, p, {});
            Moderate(first.table, first.bucket, bucketName, imageId, sourceKey, labels, p, {}) == first
  {
    var first := Moderate(table, bucket, bucketName, imageId, sourceKey, labels, p, {});
    if sourceKey in bucket {
      var key := PublicKey(imageId);
      var published := bucket[key := PublishedImage(Flagged(labels), p)];
      assert first.bucket == published;
      assert published[key := PublishedImage(Flagged(labels), p)] == published;
      if imageId in table {
        var url := PublicUrl(bucketName, key);
        ModeratedRecordIdempotent(table[imageId], url, Flagged(labels), p);
        var image := ModeratedRecord(table[imageId], url, Flagged(labels), p);
        assert first.table == Put(table, image);
        assert Put(first.table, image) == first.table;
      }
    }
  }

  /**
   * As written, an upload whose file name has no proper extension is never
   * moderated: the rebuilt source key names no object, the download error is
   * swallowed and the record stays as the presign handler left it. The bucket
   * may hold any other uploads; it only holds no second object whose key
   * starts with this upload's prefix and id, which the unique id gives.
   */
  lemma ExtensionlessUploadStaysWaiting(table: Table, bucket: Bucket, bucketName: string, id: string, filename: string,
                                        labels: seq<ModerationLabel>, p: Processing)
    requires KeyedById(table) && IsUlid(id) && |Extname(filename)| < 2
    requires forall key :: key in bucket && UploadPrefix + id <= key ==> key == UploadKey(id, filename)
    ensures Moderation(table, bucket, bucketName, UploadKey(id, filename), labels, p, {}) == Run(table, bucket, Returned(200))
  {
    var key := UploadKey(id, filename);
    var source := ModerationSourceKey(ParseKey(key));
    UploadKeyRoundTripOnlyWithExtension(id, filename);
    assert source == key + "." && UploadPrefix + id <= key;
    assert UploadPrefix + id <= source && source != key;
    assert source !in bucket;
  }

  /** With the corrected key parser every upload key, with or without an extension, publishes its record. */
  lemma CorrectedModerationPublishesEveryUpload(table: Table, bucket: Bucket, bucketName: string, id: string,
                                                filename: string, labels: seq<ModerationLabel>, p: Processing)
    requires KeyedById(table) && IsUlid(id) && UploadKey(id, filename) in bucket && id in table
    ensures var r := CorrectedModeration(table, bucket, bucketName, UploadKey(id, filename), labels, p, {});
            && r.outcome == Returned(200)
            && "status" in r.table[id] && r.table[id]["status"] == Str(Public)
            && "url" in r.table[id] && r.table[id]["url"] == Str(PublicUrl(bucketName, PublicKey(id)))
  {
    var key := UploadKey(id, filename);
    ParseUploadKeyRoundTrip(id, filename);
    assert ParseUploadKey(key) == (id, key);
    ModerationPublishes(table, bucket, bucketName, id, key, labels, p);
    assert CorrectedModeration(table, bucket, bucketName, key, labels, p, {}) == Moderate(table, bucket, bucketName, id, key, labels, p, {});
  }

  /**
   * Where the handler as written works, an upload whose file name has a proper
   * extension, it and the corrected handler do the same thing.
   */
  lemma ModerationAgreesWithCorrected(table: Table, bucket: Bucket, bucketName: string, id: string, filename: string,
                                      labels: seq<ModerationLabel>, p: Processing, faults: set<Call>)
    requires KeyedById(table) && IsUlid(id) && |Extname(filename)| >= 2
    ensures Moderation(table, bucket, bucketName, UploadKey(id, filename), labels, p, faults)
         == CorrectedModeration(table, bucket, bucketName, UploadKey(id, filename), labels, p, faults)
  {
    var key := UploadKey(id, filename);
    UploadKeyRoundTrip(id, filename);
    ParseUploadKeyRoundTrip(id, filename);
    assert ParseKey(key).imageId == id && ModerationSourceKey(ParseKey(key)) == key;
    assert ParseUploadKey(key) == (id, key);
  }
}
