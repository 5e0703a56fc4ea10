/**
 * The image pipeline as a sequence: the presign handler stores a
 * `waiting_upload` record and issues a grant for the upload key, the client
 * uploads to that key, the bucket notification for `uploaded-images/` runs
 * moderation, and moderation's upload of `images/<id>.png` runs recognition.
 */
module Pipeline {
  import opened Wrappers
  import opened Aws
  import opened Paths
  import opened ObjectKeys
  import opened PresignedPost
  import opened ImageModeration
  import opened ImageRecognition

  /**
   * An object created under `uploadKey`, with no failing call. The bucket
   * notifies the moderation listener only for keys under `uploaded-images/`;
   * any other key (or one that names no object) triggers no handler, so the
   * table and bucket stay as they are. Otherwise moderation runs (with the
   * corrected key parser, which the handlers are meant to implement), then
   * recognition on the object moderation published.
   */
  function ModerateThenRecognise(table: Table, bucket: Bucket, bucketName: string, uploadKey: string,
                                 labels: seq<ModerationLabel>, p: Processing, detected: seq<Label>): (r: Run)
    requires KeyedById(table)
    ensures KeyedById(r.table) && r.table.Keys == table.Keys
    ensures !(UploadPrefix <= uploadKey) || uploadKey !in bucket ==> r == Run(table, bucket, Returned(200))
  {
    if Route(uploadKey) != Some(ModerationHandler) || uploadKey !in bucket then Run(table, bucket, Returned(200))
    else
      var moderated := CorrectedModeration(table, bucket, bucketName, uploadKey, labels, p, {});
      Recognition(moderated.table, moderated.bucket, PublicKey(ParseUploadKey(uploadKey).0), detected, {})
  }

  /**
   * Moderation of the upload object `key` of image `id`, then recognition of the
   * published object: a stored record that still has `fields` ends public with
   * the public url, with labels, without `fields`, and with its string
   * attributes other than status and url as they were.
   */
  lemma ModerationThenRecognition(table: Table, bucket: Bucket, bucketName: string, key: string, id: string,
                                  labels: seq<ModerationLabel>, p: Processing, detected: seq<Label>)
    requires KeyedById(table) && id in table && "fields" in table[id] && key in bucket
    ensures
      var moderated := Moderate(table, bucket, bucketName, id, key, labels, p, {});
      var r := Recognise(moderated.table, moderated.bucket, id, PublicKey(id), detected, {});
      && moderated.outcome == Returned(200) && r.outcome == Returned(200)
      && id in r.table
      && "status" in r.table[id] && r.table[id]["status"] == Str(Public)
      && "url" in r.table[id] && r.table[id]["url"] == Str(PublicUrl(bucketName, PublicKey(id)))
      && "labels" in r.table[id] && "fields" !in r.table[id]
      && (forall a :: a in table[id] && a !in ModerationAttributes && a != "labels" && a != "fields" && table[id][a].Str? ==>
            a in r.table[id] && r.table[id][a] == table[id][a])
  {
    var moderated := Moderate(table, bucket, bucketName, id, key, labels, p, {});
    var url := PublicUrl(bucketName, PublicKey(id));
    ModerationPublishes(table, bucket, bucketName, id, key, labels, p);
    RecognitionLabelsRecord(moderated.table, moderated.bucket, id, PublicKey(id), detected);
    ModeratedThenRecognisedRecord(table[id], url, Flagged(labels), p, MapLabels(detected));
  }

  /**
   * The two record transformers in sequence: a record with `fields` comes out
   * public with `url`, with labels, without `fields`, and with its string
   * attributes that neither handler writes as they were.
   */
  lemma ModeratedThenRecognisedRecord(image: Item, url: string, flagged: bool, p: Processing, labels: seq<Value>)
    requires "fields" in image
    ensures var r := RecognisedRecord(ModeratedRecord(image, url, flagged, p), labels);
            && r.Success?
            && "status" in r.value && r.value["status"] == Str(Public)
            && "url" in r.value && r.value["url"] == Str(url)
            && "labels" in r.value && "fields" !in r.value
            && (forall a :: a in image && a !in ModerationAttributes && a != "labels" && a != "fields" && image[a].Str? ==>
                  a in r.value && r.value[a] == image[a])
  {
    var moderated := ModeratedRecord(image, url, flagged, p);
    assert "fields" !in ModerationAttributes;
    var r := RecognisedRecord(moderated, labels);
    assert r.value["status"] == JsonRoundTrip(moderated["status"]);
    assert r.value["url"] == JsonRoundTrip(moderated["url"]);
  }

  /**
   * The chain on an upload key that parses back to its image id: the record ends public, labelled, without `fields`, and with its
   * other string attributes as they were.
   */
  lemma ChainOnRoundTripKey(table: Table, bucket: Bucket, bucketName: string, key: string, id: string,
                            labels: seq<ModerationLabel>, p: Processing, detected: seq<Label>)
    requires KeyedById(table) && id in table && "fields" in table[id] && key in bucket
    requires Route(key) == Some(ModerationHandler)
    requires ParseUploadKey(key) == (id, key)
    requires RecognitionSourceKey(ParseKey(PublicKey(id))) == PublicKey(id) && ParseKey(PublicKey(id)).imageId == id
    ensures
      var r := ModerateThenRecognise(table, bucket, bucketName, key, labels, p, detected);
      && r.outcome == Returned(200)
      && id in r.table
      && "status" in r.table[id] && r.table[id]["status"] == Str(Public)
      && "url" in r.table[id] && r.table[id]["url"] == Str(PublicUrl(bucketName, PublicKey(id)))
      && "labels" in r.table[id] && "fields" !in r.table[id]
      && (forall a :: a in table[id] && a !in ModerationAttributes && a != "labels" && a != "fields" && table[id][a].Str? ==>
            a in r.table[id] && r.table[id][a] == table[id][a])
  {
    ChainUnfolds(table, bucket, bucketName, key, id, labels, p, detected);
    ModerationThenRecognition(table, bucket, bucketName, key, id, labels, p, detected);
  }

  /** On such a key the chain is moderation of that object under the parsed id, then recognition of the public key. */
  lemma ChainUnfolds(table: Table, bucket: Bucket, bucketName: string, key: string, id: string,
                     labels: seq<ModerationLabel>, p: Processing, detected: seq<Label>)
    requires KeyedById(table) && key in bucket
    requires Route(key) == Some(ModerationHandler)
    requires ParseUploadKey(key) == (id, key)
    requires RecognitionSourceKey(ParseKey(PublicKey(id))) == PublicKey(id) && ParseKey(PublicKey(id)).imageId == id
    ensures var moderated := Moderate(table, bucket, bucketName, id, key, labels, p, {});
            ModerateThenRecognise(table, bucket, bucketName, key, labels, p, detected)
              == Recognise(moderated.table, moderated.bucket, id, PublicKey(id), detected, {})
  {
  }

  /** The record the grant stores, with the facts the chain needs. */
  lemma GrantedRecord(table: Table, assetsBucket: Option<string>, identity: Identity, input: UploadInput,
                      id: string, createdAt: string, presign: PostOptions -> PresignedForm, granted: Table, res: UploadResult)
    requires KeyedById(table)
    requires GetImageUploadUrl(table, assetsBucket, identity, input, id, createdAt, presign, {}) == Success((res, granted))
    ensures KeyedById(granted) && id in granted && "fields" in granted[id]
    ensures granted[id]["status"] == Str(WaitingUpload)
    ensures granted[id]["owner"] == Str(identity.username)
    ensures granted[id]["key"] == Str(UploadKey(id, input.filename))
  {
  }

  /**
   * End to end with the corrected moderation parser: after the grant, an
   * upload under the granted key and the two handlers, the record is public
   * with the public url, carries labels, has no `fields`, and keeps its owner
   * and key, whatever the file name.
   */
  lemma UploadEndsLabelledAndPublic(table: Table, assetsBucket: string, identity: Identity, input: UploadInput,
                                    id: string, createdAt: string, presign: PostOptions -> PresignedForm,
                                    granted: Table, res: UploadResult, bucket: Bucket, content: Bytes,
                                    labels: seq<ModerationLabel>, p: Processing, detected: seq<Label>)
    requires KeyedById(table) && IsUlid(id)
    requires GetImageUploadUrl(table, Some(assetsBucket), identity, input, id, createdAt, presign, {}) == Success((res, granted))
    ensures
      var key := UploadKey(id, input.filename);
      var r := ModerateThenRecognise(granted, bucket[key := content], assetsBucket, key, labels, p, detected);
      && r.outcome == Returned(200)
      && id in r.table
      && "status" in r.table[id] && r.table[id]["status"] == Str(Public)
      && "url" in r.table[id] && r.table[id]["url"] == Str(PublicUrl(assetsBucket, PublicKey(id)))
      && "labels" in r.table[id] && "fields" !in r.table[id]
      && "owner" in r.table[id] && r.table[id]["owner"] == Str(identity.username)
      && "key" in r.table[id] && r.table[id]["key"] == Str(key)
  {
    assert "owner" !in ModerationAttributes && "owner" != "labels" && "owner" != "fields";
    assert "key" !in ModerationAttributes && "key" != "labels" && "key" != "fields";
    GrantedRecord(table, Some(assetsBucket), identity, input, id, createdAt, presign, granted, res);
    var key := UploadKey(id, input.filename);
    assert Route(key) == Some(ModerationHandler) && ParseUploadKey(key) == (id, key) by {
      ParseUploadKeyRoundTrip(id, input.filename);
    }
    assert RecognitionSourceKey(ParseKey(PublicKey(id))) == PublicKey(id) && ParseKey(PublicKey(id)).imageId == id by {
      PublicKeyRoundTrip(id);
    }
    ChainOnRoundTripKey(granted, bucket[key := content], assetsBucket, key, id, labels, p, detected);
  }

  /**
   * The same chain with both handlers as written: a key outside
   * `uploaded-images/`, or one naming no object, triggers nothing; otherwise
   * moderation rebuilds its source key from the stem and suffix of the upload
   * key, and only when that key names an object does it publish, and so
   * trigger recognition on the public key of the id that parse gives.
   */
  function ModerateThenRecogniseAsWritten(table: Table, bucket: Bucket, bucketName: string, uploadKey: string,
                                          labels: seq<ModerationLabel>, p: Processing, detected: seq<Label>): (r: Run)
    requires KeyedById(table)
    ensures KeyedById(r.table) && r.table.Keys == table.Keys
    ensures !(UploadPrefix <= uploadKey) || uploadKey !in bucket ==> r == Run(table, bucket, Returned(200))
  {
    if Route(uploadKey) != Some(ModerationHandler) || uploadKey !in bucket then Run(table, bucket, Returned(200))
    else
      var moderated := Moderation(table, bucket, bucketName, uploadKey, labels, p, {});
      if ModerationSourceKey(ParseKey(uploadKey)) !in bucket then moderated
      else Recognition(moderated.table, moderated.bucket, PublicKey(ParseKey(uploadKey).imageId), detected, {})
  }

  /**
   * The first finding end to end: for a file name without a proper extension
   * the chain as written stops at moderation, which downloads nothing,
   * publishes nothing and returns 200, so recognition never runs and the
   * granted record keeps its `waiting_upload` status.
   */
  lemma ExtensionlessChainStopsAtModeration(table: Table, bucket: Bucket, bucketName: string, id: string,
                                            filename: string, labels: seq<ModerationLabel>, p: Processing,
                                            detected: seq<Label>)
    requires KeyedById(table) && IsUlid(id) && |Extname(filename)| < 2
    requires forall key :: key in bucket && UploadPrefix + id <= key ==> key == UploadKey(id, filename)
    ensures ModerateThenRecogniseAsWritten(table, bucket, bucketName, UploadKey(id, filename), labels, p, detected)
         == Run(table, bucket, Returned(200))
  {
    var key := UploadKey(id, filename);
    ExtensionlessUploadStaysWaiting(table, bucket, bucketName, id, filename, labels, p);
    UploadKeyRoundTripOnlyWithExtension(id, filename);
    var source := ModerationSourceKey(ParseKey(key));
    assert source == key + "." && UploadPrefix + id <= key;
    assert UploadPrefix + id <= source && source != key;
    assert source !in bucket;
  }

  /** For a file name with a proper extension the chain as written and the corrected chain coincide. */
  lemma AsWrittenChainAgrees(table: Table, bucket: Bucket, bucketName: string, id: string, filename: string,
                             labels: seq<ModerationLabel>, p: Processing, detected: seq<Label>)
    requires KeyedById(table) && IsUlid(id) && |Extname(filename)| >= 2
    ensures ModerateThenRecogniseAsWritten(table, bucket, bucketName, UploadKey(id, filename), labels, p, detected)
         == ModerateThenRecognise(table, bucket, bucketName, UploadKey(id, filename), labels, p, detected)
  {
    ModerationAgreesWithCorrected(table, bucket, bucketName, id, filename, labels, p, {});
    UploadKeyRoundTrip(id, filename);
    ParseUploadKeyRoundTrip(id, filename);
  }

  /**
   * End to end with the handlers as written: when the file name has an
   * extension with a character after the dot, the record ends public with the
   * public url, labelled, without `fields`, and with its owner and key.
   */
  lemma UploadWithExtensionEndsLabelledAndPublic(table: Table, assetsBucket: string, identity: Identity,
                                                 input: UploadInput, id: string, createdAt: string,
                                                 presign: PostOptions -> PresignedForm, granted: Table,
                                                 res: UploadResult, bucket: Bucket, content: Bytes,
                                                 labels: seq<ModerationLabel>, p: Processing, detected: seq<Label>)
    requires KeyedById(table) && IsUlid(id) && |Extname(input.filename)| >= 2
    requires GetImageUploadUrl(table, Some(assetsBucket), identity, input, id, createdAt, presign, {}) == Success((res, granted))
    ensures
      var key := UploadKey(id, input.filename);
      var r := ModerateThenRecogniseAsWritten(granted, bucket[key := content], assetsBucket, key, labels, p, detected);
      && r.outcome == Returned(200)
      && id in r.table
      && "status" in r.table[id] && r.table[id]["status"] == Str(Public)
      && "url" in r.table[id] && r.table[id]["url"] == Str(PublicUrl(assetsBucket, PublicKey(id)))
      && "labels" in r.table[id] && "fields" !in r.table[id]
      && "owner" in r.table[id] && r.table[id]["owner"] == Str(identity.username)
      && "key" in r.table[id] && r.table[id]["key"] == Str(key)
  {
    GrantedRecord(table, Some(assetsBucket), identity, input, id, createdAt, presign, granted, res);
    var key := UploadKey(id, input.filename);
    AsWrittenChainAgrees(granted, bucket[key := content], assetsBucket, id, input.filename, labels, p, detected);
    UploadEndsLabelledAndPublic(table, assetsBucket, identity, input, id, createdAt, presign, granted, res,
                                bucket, content, labels, p, detected);
  }
}
