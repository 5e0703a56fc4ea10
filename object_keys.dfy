/**
 * The S3 object keys of an image's life: the upload key the presign handler
 * derives from the caller's file name, how the two S3-triggered handlers parse a
 * key back into an image id and extension, the keys and public url they rebuild,
 * and the prefix routing of bucket notifications to the two handlers.
 */
module ObjectKeys {
  import opened Wrappers
  import opened Paths

  const UploadPrefix := "uploaded-images/"
  const ImagesPrefix := "images/"

  /** The generated id: ulid text, assumed non-empty and free of '.' and '/'. */
  predicate IsUlid(id: string) {
    id != [] && '.' !in id && '/' !in id
  }

  /** `uploaded-images/<id><extname(filename)>`, the key the upload grant is issued for. */
  function UploadKey(id: string, filename: string): (key: string)
    ensures UploadPrefix <= key && Route(key) == Some(ModerationHandler)
    ensures |UploadPrefix| + |id| <= |key|
    ensures key[|UploadPrefix|..|UploadPrefix| + |id|] == id && IsExtension(key[|UploadPrefix| + |id|..])
  {
    var key := UploadPrefix + id + Extname(filename);
    assert key[|UploadPrefix|..|UploadPrefix| + |id|] == id && key[|UploadPrefix| + |id|..] == Extname(filename);
    key
  }

  /** An event key split the way both Python handlers split it. */
  datatype ParsedKey = ParsedKey(imageId: string, extension: string)

  /** `image_id = Path(key).stem`, `file_extension = Path(key).suffix.replace('.', '')`. */
  function ParseKey(objectKey: string): (k: ParsedKey)
    ensures k.imageId + (if k.extension == [] then [] else "." + k.extension) == PurePathName(objectKey)
    ensures '.' !in k.extension && '/' !in k.imageId
    ensures k.imageId == Stem(objectKey)
    ensures k.extension == if Suffix(objectKey) == [] then [] else Suffix(objectKey)[1..]
  {
    var parts := SplitSuffix(PurePathName(objectKey));
    SuffixWithoutDot(objectKey);
    assert parts.1 != [] ==> parts.1 == "." + parts.1[1..];
    ParsedKey(parts.0, Without(parts.1, '.'))
  }

  /** The key the moderation handler downloads: `uploaded-images/{image_id}.{file_extension}`. */
  function ModerationSourceKey(k: ParsedKey): (key: string)
    ensures UploadPrefix <= key
  {
    UploadPrefix + k.imageId + "." + k.extension
  }

  /** The key the recognition handler downloads: `images/{image_id}.{file_extension}`. */
  function RecognitionSourceKey(k: ParsedKey): (key: string)
    ensures ImagesPrefix <= key
  {
    ImagesPrefix + k.imageId + "." + k.extension
  }

  /** The key the moderation handler uploads the processed image to, whatever the input extension. */
  function PublicKey(imageId: string): (key: string)
    ensures ImagesPrefix <= key && Route(key) == Some(RecognitionHandler)
    ensures |ImagesPrefix| + |imageId| <= |key|
    ensures key[|ImagesPrefix|..|ImagesPrefix| + |imageId|] == imageId && key[|ImagesPrefix| + |imageId|..] == ".png"
  {
    var key := ImagesPrefix + imageId + ".png";
    assert key[|ImagesPrefix|..|ImagesPrefix| + |imageId|] == imageId && key[|ImagesPrefix| + |imageId|..] == ".png";
    key
  }

  /** The public url of an object of the assets bucket: https, the bucket's S3 host, then the key as its path. */
  function PublicUrl(bucket: string, key: string): (url: string)
    ensures "https://" <= url && |key| < |url| && url[|url| - |key|..] == key
    ensures url[..|url| - |key|] == "https://" + bucket + ".s3.amazonaws.com/"
  {
    var host := "https://" + bucket + ".s3.amazonaws.com/";
    assert (host + key)[..|host|] == host && (host + key)[|host|..] == key;
    host + key
  }

  /** The two object-created listeners of the assets bucket. */
  datatype Listener = ModerationHandler | RecognitionHandler

  /** Which listener a new object's key reaches, by key prefix. */
  function Route(key: string): (r: Option<Listener>)
    ensures r == Some(ModerationHandler) <==> UploadPrefix <= key
    ensures r == Some(RecognitionHandler) <==> ImagesPrefix <= key
    ensures r == None <==> !(UploadPrefix <= key) && !(ImagesPrefix <= key)
  {
    assert UploadPrefix[0] != ImagesPrefix[0];
    if UploadPrefix <= key then Some(ModerationHandler)
    else if ImagesPrefix <= key then Some(RecognitionHandler)
    else None
  }

  /** Parsing `<dir><id><ext>` gives back the id and the extension without its dot. */
  lemma ParseNamedKey(dir: string, id: string, ext: string)
    requires dir != [] && dir[|dir| - 1] == '/'
    requires IsUlid(id) && IsExtension(ext) && |ext| >= 2
    ensures ParseKey(dir + id + ext) == ParsedKey(id, ext[1..])
  {
    var name := id + ext;
    assert dir + id + ext == dir + name;
    PurePathNameAppend(dir, name);
    SplitNamed(id, ext);
    SuffixWithoutDot(dir + name);
  }

  /** `<dir><id><ext>` with a proper extension parses and is rebuilt under the same directory. */
  lemma RebuildNamedKey(dir: string, id: string, ext: string)
    requires dir != [] && dir[|dir| - 1] == '/'
    requires IsUlid(id) && IsExtension(ext) && |ext| >= 2
    ensures dir + ParseKey(dir + id + ext).imageId + "." + ParseKey(dir + id + ext).extension == dir + id + ext
  {
    ParseNamedKey(dir, id, ext);
    JoinExtension(dir, id, ext);
  }

  lemma JoinExtension(dir: string, id: string, ext: string)
    requires |ext| >= 1 && ext[0] == '.'
    ensures dir + id + "." + ext[1..] == dir + id + ext
  {
    assert "." + ext[1..] == ext;
    assert dir + id + "." + ext[1..] == (dir + id) + ("." + ext[1..]);
  }

  /**
   * The key round trip between the presign handler and the moderation handler:
   * when the file name has an extension with at least one character after the
   * dot, the moderation handler recovers the id and the extension and rebuilds
   * exactly the key the upload grant was issued for.
   */
  lemma UploadKeyRoundTrip(id: string, filename: string)
    requires IsUlid(id) && |Extname(filename)| >= 2
    ensures ParseKey(UploadKey(id, filename)) == ParsedKey(id, Extname(filename)[1..])
    ensures ModerationSourceKey(ParseKey(UploadKey(id, filename))) == UploadKey(id, filename)
  {
    ParseNamedKey(UploadPrefix, id, Extname(filename));
    RebuildNamedKey(UploadPrefix, id, Extname(filename));
  }

  /** Without a proper extension pathlib sees no suffix: the "stem" is the whole object name. */
  lemma ParseShortExtension(dir: string, id: string, ext: string)
    requires dir != [] && dir[|dir| - 1] == '/'
    requires IsUlid(id) && IsExtension(ext) && |ext| < 2
    ensures ParseKey(dir + id + ext) == ParsedKey(id + ext, "")
  {
    var name := id + ext;
    assert dir + id + ext == dir + name;
    assert name[0] == id[0] != '.';
    PurePathNameAppend(dir, name);
    var i := LastIndexOf(name, '.');
    if ext == [] {
      assert name == id;
      assert i == -1;
    } else {
      assert name[|id|] == '.';
      assert i == |id| == |name| - 1;
    }
    assert SplitSuffix(name) == (name, "");
    SuffixWithoutDot(dir + name);
  }

  /**
   * The round trip holds for no other file name: without an extension, or with
   * an extension that is a lone dot ("cat."), the key the moderation handler
   * rebuilds is the uploaded one with a dot appended.
   */
  lemma UploadKeyRoundTripOnlyWithExtension(id: string, filename: string)
    requires IsUlid(id)
    ensures ModerationSourceKey(ParseKey(UploadKey(id, filename))) == UploadKey(id, filename)
            <==> |Extname(filename)| >= 2
    ensures |Extname(filename)| < 2 ==> ModerationSourceKey(ParseKey(UploadKey(id, filename))) == UploadKey(id, filename) + "."
  {
    var ext := Extname(filename);
    if |ext| >= 2 {
      UploadKeyRoundTrip(id, filename);
    } else {
      ShortExtensionSourceKey(id, ext);
    }
  }

  /** Without a proper extension the rebuilt key is the uploaded key with a dot appended. */
  lemma ShortExtensionSourceKey(id: string, ext: string)
    requires IsUlid(id) && IsExtension(ext) && |ext| < 2
    ensures ModerationSourceKey(ParseKey(UploadPrefix + id + ext)) == UploadPrefix + id + ext + "."
  {
    ParseShortExtension(UploadPrefix, id, ext);
    var k := ParseKey(UploadPrefix + id + ext);
    assert k.imageId == id + ext && k.extension == "";
    assert UploadPrefix + (id + ext) + "." + "" == UploadPrefix + id + ext + ".";
  }

  /** The public object's key parses back to the image id and "png", and the recognition handler rebuilds it. */
  lemma PublicKeyRoundTrip(id: string)
    requires IsUlid(id)
    ensures ParseKey(PublicKey(id)) == ParsedKey(id, "png")
    ensures RecognitionSourceKey(ParseKey(PublicKey(id))) == PublicKey(id)
  {
    ParseNamedKey(ImagesPrefix, id, ".png");
    RebuildNamedKey(ImagesPrefix, id, ".png");
  }

  /** The text of `name` before its first '.'. */
  function BeforeFirstDot(name: string): (r: string)
    ensures '.' !in r
    ensures |r| <= |name| && r == name[..|r|]
    ensures |r| < |name| ==> name[|r|] == '.'
  {
    if name == [] || name[0] == '.' then [] else [name[0]] + BeforeFirstDot(name[1..])
  }

  /**
   * A key parser that does not depend on the extension: the image id is the
   * object name up to its first dot, and the source object is the event's key
   * itself rather than a key rebuilt from stem and suffix.
   */
  function ParseUploadKey(objectKey: string): (r: (string, string))
    ensures '.' !in r.0
  {
    (BeforeFirstDot(PurePathName(objectKey)), objectKey)
  }

  /** The first dot of `id + ext` is where `ext` starts. */
  lemma {:induction false} BeforeFirstDotAppend(id: string, ext: string)
    requires '.' !in id
    requires ext == [] || ext[0] == '.'
    ensures BeforeFirstDot(id + ext) == id
  {
    if id == [] {
      assert id + ext == ext;
    } else {
      assert (id + ext)[1..] == id[1..] + ext;
      BeforeFirstDotAppend(id[1..], ext);
    }
  }

  /** With that parser every upload key, with or without an extension, yields the id and its own object. */
  lemma ParseUploadKeyRoundTrip(id: string, filename: string)
    requires IsUlid(id)
    ensures ParseUploadKey(UploadKey(id, filename)) == (id, UploadKey(id, filename))
  {
    ParseUploadNamedKey(UploadPrefix, id, Extname(filename));
  }

  /** The corrected parser on `<dir><id><ext>` gives the id and the key itself, whatever the extension. */
  lemma ParseUploadNamedKey(dir: string, id: string, ext: string)
    requires dir != [] && dir[|dir| - 1] == '/'
    requires IsUlid(id) && IsExtension(ext)
    ensures ParseUploadKey(dir + id + ext) == (id, dir + id + ext)
  {
    var name := id + ext;
    assert dir + id + ext == dir + name;
    assert name[0] == id[0] != '.';
    PurePathNameAppend(dir, name);
    BeforeFirstDotAppend(id, ext);
  }
}
