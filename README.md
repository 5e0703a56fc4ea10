# A verified model of the aws-appsync-typescript image and record handlers

The repository is an AWS CDK application. It defines an AppSync GraphQL API
backed by DynamoDB tables, an S3 assets bucket and Lambda functions. This
project models the logic those functions and resolvers carry.

- **`getImageUploadUrl`** (`PresignedPost`) derives the object key
  `uploaded-images/<ulid><extname(filename)>`. It fixes the presigned-POST
  conditions: Content-Type starts with `image/`, the size is between 1024 and
  10485760 bytes, and the grant expires after 600 seconds. It flattens the
  presigned fields into `{name, value}` pairs and stores an image record with
  status `waiting_upload`.
- **The moderation handler** (`ImageModeration`) runs on a new object under
  `uploaded-images/`. It parses the key with `pathlib` stem and suffix and
  downloads the rebuilt source key. It publishes `images/<id>.png`, blurred
  when Rekognition returns moderation labels. It then rewrites the record:
  `status = public` and `url` always, and `width`, `height` and `blurhash`
  only for a clean image. A `ClientError` is swallowed.
- **The recognition handler** (`ImageRecognition`) runs on a new object under
  `images/`. It maps Rekognition labels to lower-case keys, sets `labels`,
  deletes `fields` and passes the record through the `DecimalEncoder` JSON
  round trip before writing it. Only a failing `put_item` is caught.
- **`tweet`, `addTask` and `postConfirmation`** (`RecordCreators`) each build
  one item and write it. The owner comes from the caller's identity.
- **The `getTasks`, `getImages` and `getImage` resolvers** (`Resolvers`) turn
  the request context into a DynamoDB request descriptor. Their responses pass
  the result through.
- **`Pipeline`** chains the steps: the grant, the client's upload, moderation,
  then recognition of the object moderation published. As in the bucket's
  notification routing, only an object created under `uploaded-images/`
  starts the chain; any other key, or one naming no object, changes nothing.

Shared pieces:

- `Aws`: DynamoDB values, items, a table as a map from `id` to item with an
  upsert `Put`, and how a handler run ends.
- `Paths`: Node's `path.extname` and Python's `PurePath.name`, `suffix` and
  `stem`, written from their algorithms.
- `ObjectKeys`: the object keys and the key round trips.
- `Wrappers`: `Option` and `Result`.

External calls are parameters:

- `ulid()` and the clock become `id` and `createdAt`.
- `createPresignedPost` becomes the function `presign`.
- Rekognition's answers become the `labels` and `detected` sequences.
- The image library's output is `Processing`.
- Failing calls are the set `faults`.

Each S3-triggered handler has two forms:
- a specification function (`Moderation`, `Recognition`);
- a method (`DetectModerationLabels`, `DetectImageLabels`) that updates the
  fetched record in place, step by step as the Python code does, and is
  proved equal to the function.

Where the documented behaviour and the code differ, the model follows the
code:
- A flagged image is blurred and still becomes `public`; there is no
  `rejected` status (`ImageModeration.ModerationWritesOnlyPublic`).
- The presign handler does not reject a non-image content type. The upload
  policy does (`PresignedPost.NonImageGrantAdmitsNothing`).
- Moderation swallows every service error. Recognition swallows only a
  failing write.
- `labels` is a list of label objects, not a set of strings.
- A replayed recognition event fails with `KeyError` rather than being a
  no-op. It still writes nothing.

## Model

| member | source | states |
|---|---|---|
| Paths.Extname | functions/createPresignedPost/index.ts:27 | `path.extname`: the result is non-empty exactly when the last component (trailing slashes ignored) has a dot after its first character and is not `..`. It is then a tail of that component: a dot followed by dot-free, slash-free text, so it starts at the component's last dot. A path without a dot has no extension. |
| Paths.PurePathName | functions/imageModeration/handler.py:39-40 | `PurePath(key).name`: the result contains no `/` and is not `.`; which component it is, `Paths.PurePathNameIsLastComponent` states. |
| Paths.PurePathNameIsLastComponent | functions/imageModeration/handler.py:39-40 | The name is a whole component of the path, followed only by empty and `.` components; it is empty exactly when the path has no other kind of component. |
| Paths.SplitSuffix | functions/imageModeration/handler.py:39-40 | `stem + suffix == name`. The suffix is non-empty exactly when the last dot lies strictly between the first and the last character; it then starts at that dot, holds no other dot, and the stem is non-empty. |
| Paths.Without | functions/imageModeration/handler.py:39 | `str.replace(c, '')`: the result contains no `c` and is no longer than the input; `Paths.WithoutAppend` states that every other character is kept, in order. |
| Paths.WithoutAppend | functions/imageModeration/handler.py:39 | Removal works piecewise: removing `c` from `a + b` is removing it from `a` and then from `b`. With the one-character case (a `c` disappears, any other character stays), the characters other than `c` are kept in their order. |
| Paths.WithoutAbsent | functions/imageModeration/handler.py:39 | Removing a character that does not occur leaves the text unchanged. |
| Paths.SuffixWithoutDot | functions/imageModeration/handler.py:39 | After its leading dot, a suffix holds no further dot. |
| Paths.PurePathNameAppend | functions/imageModeration/handler.py:40 | The name of `dir/ + name` is `name`. |
| ObjectKeys.ParseKey | functions/imageModeration/handler.py:39-40 | The image id is pathlib's stem of the key and the extension is its suffix without the leading dot. Their join is the object name. The extension has no dot and the id has no slash. |
| ObjectKeys.UploadKey | functions/createPresignedPost/index.ts:27-29 | The upload key lies under `uploaded-images/` and so reaches the moderation listener; after the prefix come the id and then a Node extension (empty, or a dot and dot-free text). |
| ObjectKeys.ModerationSourceKey | functions/imageModeration/handler.py:48 | The rebuilt download key lies under `uploaded-images/`. |
| ObjectKeys.RecognitionSourceKey | functions/imageRecognition/handler.py:79 | The key recognition downloads lies under `images/`. |
| ObjectKeys.PublicKey | functions/imageModeration/handler.py:104 | The processed image is stored under `images/`, with the id and then `.png` whatever the upload's extension, and so reaches the recognition listener. |
| ObjectKeys.PublicUrl | functions/imageModeration/handler.py:109 | An `https://` url on the bucket's S3 host whose path is exactly the object key. |
| ObjectKeys.Route | lib/lambda-stack.ts:97-114 | An object reaches moderation iff its key starts with `uploaded-images/`, and recognition iff it starts with `images/`. Otherwise it reaches neither. |
| ObjectKeys.ParseNamedKey | functions/imageModeration/handler.py:39-40 | `<dir>/<id><ext>` with a proper extension parses to `(id, ext without dot)`. |
| ObjectKeys.RebuildNamedKey | functions/imageModeration/handler.py:48 | Such a key is rebuilt exactly under its own directory. |
| ObjectKeys.UploadKeyRoundTrip | functions/imageModeration/handler.py:39-48 | For a ulid and a file name whose extension has a character after the dot, the moderation handler recovers the id and extension. It rebuilds exactly the key the grant was issued for. |
| ObjectKeys.ParseShortExtension | functions/imageModeration/handler.py:39-40 | With no extension, or a lone dot, the stem is the whole name and the extension is empty. |
| ObjectKeys.UploadKeyRoundTripOnlyWithExtension | functions/imageModeration/handler.py:48 | The rebuilt key equals the upload key iff the file name's extension has at least two characters (both directions). Otherwise the rebuilt key is the upload key with a dot appended. |
| ObjectKeys.PublicKeyRoundTrip | functions/imageRecognition/handler.py:74-79 | `images/<id>.png` parses to `(id, "png")`, and the recognition handler rebuilds the same key. |
| ObjectKeys.BeforeFirstDot | functions/imageModeration/handler.py:40 | A dot-free prefix of the name, followed by a dot when it is shorter than the name. |
| ObjectKeys.ParseUploadKey | functions/imageModeration/handler.py:39-49 | Corrected parser: the image id, taken before the first dot of the object name, contains no dot. |
| ObjectKeys.BeforeFirstDotAppend | functions/imageModeration/handler.py:40 | The text before the first dot of `id + ext` is `id`. |
| ObjectKeys.ParseUploadKeyRoundTrip | functions/imageModeration/handler.py:39-49 | Corrected parser: every upload key, with or without an extension, yields the id and that same key. |
| ObjectKeys.ParseUploadNamedKey | functions/imageModeration/handler.py:39-49 | Corrected parser: `<dir><id><ext>`, for any Node extension including none, yields the id and the key itself. |
| PresignedPost.GrantAdmitsExactly | functions/createPresignedPost/index.ts:31-44 | The grant admits an upload iff all of these hold: it goes to the bucket and the granted key; it carries the caller's content type; that type starts with `image/`; the size is in [1024, 10485760]; it is less than 600 seconds old. |
| PresignedPost.GrantOptions | functions/createPresignedPost/index.ts:31-44 | The grant is for the assets bucket (or `""`) and the upload key, expires after 600 seconds, requires a Content-Type starting with `image/` and a size in [1024, 10485760], and fixes the Content-Type field to the caller's type. |
| PresignedPost.NonImageGrantAdmitsNothing | functions/createPresignedPost/index.ts:35-37 | The handler issues a grant for any content type, but a grant for a non-image type admits no upload. |
| PresignedPost.LookupAt | functions/createPresignedPost/index.ts:47 | Looking up a field's name in the distinct-named field list finds its own value. |
| PresignedPost.FlattenFields | functions/createPresignedPost/index.ts:47 | Exactly one `{name, value}` per field, in field order, with `value = fields[name]`. |
| PresignedPost.ImageRecord | functions/createPresignedPost/index.ts:49-57 | The stored record has exactly the seven attributes id, owner, url, fields, key, status and createdAt, with status `waiting_upload`. |
| PresignedPost.GetImageUploadUrl | functions/createPresignedPost/index.ts:21-73 | A failing presign or write rejects the call, and the presign comes first. On success: the result has the id, the presigned url and the flattened fields; the record has exactly the seven attributes, with owner = caller, status `waiting_upload` and key = the granted key; other records are unchanged. |
| RecordCreators.Tweet | functions/tweet/index.ts:15-35 | Fails iff the write fails. On success the item is exactly `id, owner, text, createdAt`, with owner = caller and the text verbatim. The returned item is the stored one and the other items are unchanged. |
| RecordCreators.TextItem | functions/tweet/index.ts:21-26 | The item has exactly `id, owner, text, createdAt`, each the given value. |
| RecordCreators.AddTask | functions/addTask/index.ts:15-35 | The same for the tasks table. |
| RecordCreators.TweetOwnerIsCaller | functions/tweet/index.ts:19-23 | Two callers sending the same input get items that differ only in `owner`. |
| RecordCreators.PostConfirmation | functions/postConfirmation/index.ts:8-27 | Succeeds iff `sub` and `email` are present and the write succeeds. A missing `sub` is the undefined-`id` error. On success the event is returned unchanged and the user item is exactly `id = sub, email, createdAt`. |
| Resolvers.GetTasksRequest | resolvers/getTasks.js:3-27 | An error `max length is 25` iff the limit exceeds 25. Otherwise a `Query` on `byOwner` with limit and nextToken forwarded, ascending order, no consistent read and all attributes. |
| Resolvers.GetTasksSelectsCallerItems | resolvers/getTasks.js:11-18 | The query selects an item iff its owner is the caller's username. |
| Resolvers.GetTasksOwnerScoped | resolvers/getTasks.js:11-20 | Every selected item belongs to the caller, and every item of the caller is selected. |
| Resolvers.PageResponse | resolvers/getTasks.js:29-34 | The response is exactly the result's items and nextToken. |
| Resolvers.GetImagesRequest | resolvers/getImages.js:3-23 | A scan with limit and nextToken forwarded unchecked, no consistent read and all attributes. |
| Resolvers.GetImagesAdmitsOnlyPublic | resolvers/getImages.js:6-10 | The filter admits an item iff its status is `public`. |
| Resolvers.GetImagesListsPublicImages | resolvers/getImages.js:5-20 | The scan returns exactly the public images. |
| Resolvers.GetImageRequest | resolvers/getImage.js:3-6 | A get whose key is `{id: imageId}` and nothing else. |
| Resolvers.GetImageResponse | resolvers/getImage.js:8-10 | The result is returned unchanged. |
| Resolvers.GetItem | lib/dynamodb-stack.ts:68-78 | DynamoDB `GetItem` rejects a key that does not name exactly the table's key attributes. A found item matches every key attribute. |
| Resolvers.GetImageAlwaysRejected | resolvers/getImage.js:4 | As written, every getImage request is rejected by the images table's (id, createdAt) key schema. |
| Resolvers.GetImageQuery | resolvers/getImage.js:3-6 | Corrected request: a query on the table itself whose condition is `#id = :id`, with `#id` naming the attribute `id` and `:id` the image id. |
| Resolvers.GetImageQueryFindsImage | resolvers/getImage.js:3-6 | Corrected lookup: a query on the hash key `id` selects exactly the stored image with that id, whatever its owner or status. |
| Aws.QueryById | functions/imageModeration/handler.py:113-117 | `Key("id").eq(id)` returns at most one item: the stored one, or nothing when the id is absent. |
| Aws.Put | functions/imageModeration/handler.py:121 | `put_item` is an upsert under the item's id: that entry becomes the item, every other entry is kept, and a table keyed by id stays keyed by id. |
| ImageModeration.PublishedImage | functions/imageModeration/handler.py:89-106 | The blurred PNG when flagged, the plain PNG otherwise. |
| ImageModeration.ModeratedRecord | functions/imageModeration/handler.py:117-152 | Both branches set `status = public` and `url`. Only a clean image gains `width = 960`, `height` and `blurhash`. Every other attribute is carried over. |
| ImageModeration.Moderate | functions/imageModeration/handler.py:45-161 | The table stays keyed by id and gains no records. Only the image's record may change, and then to its moderated form. The bucket changes only by the public image. The handler returns 200 except for `IndexError`, which happens iff the source exists, every earlier call succeeds and the record is missing. |
| ImageModeration.Moderation | functions/imageModeration/handler.py:37-49 | As written: when the rebuilt source key names no object, nothing changes and 200 is returned. |
| ImageModeration.CorrectedModeration | functions/imageModeration/handler.py:37-49 | Corrected: the event's own key is the source, and a missing object changes nothing. |
| ImageModeration.DetectModerationLabels | functions/imageModeration/handler.py:32-161 | The step-by-step handler leaves exactly the state and outcome of `Moderation`. |
| ImageModeration.ModerationPublishes | functions/imageModeration/handler.py:104-152 | With no failure, the record becomes its moderated form: public, with the public url. The processed image is published under `images/<id>.png`, and attributes the handler does not write are kept. |
| ImageModeration.ModerationWritesOnlyPublic | functions/imageModeration/handler.py:118-145 | Every record is untouched or has status `public`. No other status is ever written. |
| ImageModeration.ModerationSwallowsServiceErrors | functions/imageModeration/handler.py:158-161 | A failing download, label call, upload or query, or a failing write to an existing record, leaves the table unchanged. The handler returns 200. |
| ImageModeration.ModeratedRecordIdempotent | functions/imageModeration/handler.py:143-150 | Moderating a moderated record again changes nothing. |
| ImageModeration.ModerationRedeliveryIdempotent | functions/imageModeration/handler.py:45-161 | A redelivered event leaves the state as its first delivery left it. |
| ImageModeration.ExtensionlessUploadStaysWaiting | functions/imageModeration/handler.py:39-49 | As written, an upload whose file name has no proper extension leaves table and bucket unchanged with status 200, whatever other uploads the bucket holds (it only holds no second object whose key starts with this upload's prefix and id). The record stays `waiting_upload`. |
| ImageModeration.CorrectedModerationPublishesEveryUpload | functions/imageModeration/handler.py:39-49 | With the corrected parser every upload, with or without an extension, is published with the public url. |
| ImageModeration.ModerationAgreesWithCorrected | functions/imageModeration/handler.py:39-48 | For file names with a proper extension, the handler as written and the corrected one coincide. |
| ImageRecognition.MapInstance | functions/imageRecognition/handler.py:38-48 | `map_instance`: exactly `confidence` and a `boundingBox` with exactly height, left, top and width, copied. |
| ImageRecognition.MapKeyValue | functions/imageRecognition/handler.py:49-52 | `map_key_value`: exactly `{name}`, copied. |
| ImageRecognition.MapInstances | functions/imageRecognition/handler.py:56 | Element-wise, preserving length and order. |
| ImageRecognition.MapKeyValues | functions/imageRecognition/handler.py:57-58 | Element-wise, preserving length and order. |
| ImageRecognition.MapLabel | functions/imageRecognition/handler.py:53-60 | Exactly name, confidence, instances, parents and categories. Name and confidence are copied and the lists are mapped element-wise. |
| ImageRecognition.MapLabels | functions/imageRecognition/handler.py:86-88 | Element-wise `map_label`, preserving length and order. |
| ImageRecognition.Intersection | functions/imageRecognition/handler.py:63-65 | An element is in the result iff it is in both lists, and no element occurs twice. |
| ImageRecognition.JsonRoundTrip | functions/imageRecognition/handler.py:29-33 | No float remains. Strings are kept, stored numbers become their text and floats become numbers; a list keeps its length and a map its keys, and each element and attribute value is itself round-tripped. |
| ImageRecognition.JsonRoundTripKeepsNumberFree | functions/imageRecognition/handler.py:29-33 | The round trip changes only numbers: a value with no number anywhere inside, however deeply nested, comes back unchanged. |
| ImageRecognition.JsonRoundTripItem | functions/imageRecognition/handler.py:104 | Same attributes, each value round-tripped. |
| ImageRecognition.RecognisedRecord | functions/imageRecognition/handler.py:96-104 | `KeyError("fields")` iff `fields` is absent. Otherwise `labels` is set, `fields` removed, the other attributes round-tripped and every value storable. |
| ImageRecognition.Recognise | functions/imageRecognition/handler.py:77-113 | The table stays keyed by id and gains no records, and the bucket is untouched. Only the image's record may change, and then to its recognised form. A returned status is 200. |
| ImageRecognition.Recognition | functions/imageRecognition/handler.py:72-80 | When the rebuilt source key names no object, the download error is raised and nothing changes. |
| ImageRecognition.DetectImageLabels | functions/imageRecognition/handler.py:68-113 | The step-by-step handler leaves exactly the table and outcome of `Recognition`. |
| ImageRecognition.StoredLabel | functions/imageRecognition/handler.py:104 | A stored label keeps its five keys and its name, and its float confidence is stored as a number with the same text. |
| ImageRecognition.RecognitionLabelsRecord | functions/imageRecognition/handler.py:96-108 | With no failure the record gains the mapped labels and loses `fields`. String attributes (status, url, owner, key) are unchanged, and stored numbers come back as strings. |
| ImageRecognition.RecognitionWithoutFieldsRaises | functions/imageRecognition/handler.py:99 | A record without `fields` raises `KeyError` before any write, and nothing changes. |
| ImageRecognition.RecognitionSwallowsWriteError | functions/imageRecognition/handler.py:105-113 | A failing `put_item` is swallowed: 200 is returned and nothing changes. |
| ImageRecognition.RecognitionRaisesOtherErrors | functions/imageRecognition/handler.py:80-92 | When the download, label call or query fails, the first failing one in call order (download, labels, query) propagates, and nothing is written. |
| ImageRecognition.RecognitionNotRepeatable | functions/imageRecognition/handler.py:99 | After a successful run, a second delivery raises `KeyError("fields")`. |
| Pipeline.ModerateThenRecognise | lib/lambda-stack.ts:97-114 | The chain keeps the table keyed by id and creates no records. A key outside `uploaded-images/`, or one not in the bucket, triggers no handler: table and bucket are returned unchanged with status 200. |
| Pipeline.ModeratedThenRecognisedRecord | functions/imageRecognition/handler.py:96-99 | The two record transformers in sequence give a record that is public with url and labels, has no `fields`, and keeps its untouched string attributes. |
| Pipeline.ModerationThenRecognition | functions/imageModeration/handler.py:104-121 | Moderation then recognition of the published object: both return 200, and the record ends public, labelled, without `fields`, with its other string attributes kept. |
| Pipeline.ChainUnfolds | lib/lambda-stack.ts:97-114 | On an upload key that parses to its id, the chain is moderation of that object followed by recognition of `images/<id>.png`. |
| Pipeline.ChainOnRoundTripKey | lib/lambda-stack.ts:97-114 | The chain on such a key ends with the record public, labelled, without `fields`, with its other string attributes kept. |
| Pipeline.GrantedRecord | functions/createPresignedPost/index.ts:49-64 | The grant leaves a table keyed by id whose new record has `fields`, status `waiting_upload`, owner = caller and key = the upload key. |
| Pipeline.UploadEndsLabelledAndPublic | functions/createPresignedPost/index.ts:29-64 | End to end with the corrected moderation parser, for any file name: grant, upload under the granted key, moderation and recognition leave the record public, with the public url and labels, without `fields`, and with owner and key as granted. |
| Pipeline.ModerateThenRecogniseAsWritten | lib/lambda-stack.ts:97-114 | The chain with both handlers as written: recognition runs only when the key moderation rebuilds names an object, since only then does moderation publish `images/<id>.png`. The chain keeps the table keyed by id and creates no records. A key outside `uploaded-images/`, or one not in the bucket, triggers no handler: table and bucket are returned unchanged with status 200. |
| Pipeline.ExtensionlessChainStopsAtModeration | functions/imageModeration/handler.py:39-49 | As written, for a file name without a proper extension the whole chain leaves table and bucket unchanged and returns 200: recognition never runs and the record stays `waiting_upload`. |
| Pipeline.AsWrittenChainAgrees | functions/imageModeration/handler.py:39-48 | For a file name whose extension has a character after the dot, the chain as written and the corrected chain leave the same state. |
| Pipeline.UploadWithExtensionEndsLabelledAndPublic | functions/createPresignedPost/index.ts:29-64 | End to end with the handlers as written, for a file name whose extension has a character after the dot: the record ends public, with the public url and labels, without `fields`, and with owner and key as granted. |

## Left out

- Image processing is left out: PIL open, resize, `exif_transpose` and save, `blur_image`, the 960-px float arithmetic and the blurhash encoding. `Processing` carries its results as opaque values, and the processing is assumed not to raise. For example, PIL's `save(format="jpg")` in `blur_image` would raise on a flagged `.jpg` upload; that is not modelled.
- Moderation's `height` is the resized height's decimal text. It is taken as given, not computed from the original size.
- Rekognition, S3 transfers, the presigned-POST signature, Cognito and AppSync `util` are inputs (`labels`, `detected`, `presign`) or outcomes of the `faults` set. Rekognition's own confidence threshold (`MinConfidence=50`) is not modelled.
- Reading an absent key of a Rekognition response (`KeyError` in `map_label`) is not modelled. Labels always carry every field read.
- `ulid()` and `new Date().toJSON()` are parameters. A ulid is assumed non-empty and free of `.` and `/`.
- Table names come from environment variables: each handler takes the table it writes. `ASSETS_BUCKET` unset in the presign handler is modelled as `""`.
- Only `Records[0]` of an S3 event is read, and its key is taken to be the object's key. S3 delivers the key URL-encoded and neither handler decodes it, so for a file name whose extension holds a character S3 encodes (a space, `+`, or any non-ASCII character, as in `cat.jp g` or `photo.jpé`) both the moderation handler as written and the corrected one would download a key that does not exist, swallow the error and leave the record `waiting_upload`. The key lemmas (`ObjectKeys.UploadKeyRoundTripOnlyWithExtension`, `ImageModeration.CorrectedModerationPublishesEveryUpload` and the pipeline lemmas) hold only for keys whose encoding is the key itself.
- A table is a map keyed by `id`. The images table's `createdAt` range key appears only where it matters: the `GetItem` key-schema check behind the getImage finding.
- DynamoDB pagination, ordering, scan-filter-after-limit and `scannedCount` are not modelled. `QueryItems` and `ScanItems` give the selected sets before paging.
- Ordering of `intersection`: Python leaves it to set iteration. `ImageRecognition.Intersection` fixes one order, and its contract does not constrain the order.
- The race between the two S3-triggered handlers is not modelled: moderation uploads `images/<id>.png` before it writes the record, so recognition may read the old record. `Pipeline` models only the sequential chain.
- Logging and `print` are not modelled.
- Pipeline.ModerateThenRecognise: uses the corrected moderation key parser (see Findings), so the chain is stated for every file name. `Pipeline.ModerateThenRecogniseAsWritten` is the chain as written, and `Pipeline.AsWrittenChainAgrees` shows the two coincide whenever the file name has a proper extension.

## Findings

| source | as written | input that shows it | evidently intended | confidence | as-written member | corrected member |
|---|---|---|---|---|---|---|
| functions/imageModeration/handler.py:39-49 | The download key is rebuilt as `uploaded-images/{stem}.{suffix without dots}` | Upload of a file named `photo` (no extension) or `photo.`: the grant's key is `uploaded-images/<id>` (or `<id>.`), the rebuilt key is `uploaded-images/<id>.` (or `<id>..`), the download fails, the `ClientError` is swallowed and the record stays `waiting_upload` | Moderate the object the event names, with the image id taken before the first dot | high; not executed | ImageModeration.ExtensionlessUploadStaysWaiting | ImageModeration.CorrectedModerationPublishesEveryUpload |
| resolvers/getImage.js:4 | `get` with key `{id}` only, on the images table whose key is (`id`, `createdAt`) (lib/dynamodb-stack.ts:68-78) | Any `imageId`: DynamoDB rejects a `GetItem` key that lacks the range key | Fetch the image with that id, e.g. a query on the hash key `id` | high; not executed | Resolvers.GetImageAlwaysRejected | Resolvers.GetImageQueryFindsImage |
