/** Image file checks and storage paths (src/lib/storage.ts). The storage
    service itself, the canvas compression and the random file stem are
    outside the model; the stem is a parameter. */
module Storage {
  import opened Wrappers

  /** The parts of a browser `File` the checks read. */
  datatype ImageFile = ImageFile(name: string, mimeType: string, size: int)

  const MaxSize := 5 * 1024 * 1024
  const AllowedTypes: seq<string> := ["image/jpeg", "image/jpg", "image/png", "image/webp"]
  const TypeError := "Please upload a valid image file (JPEG, PNG, or WebP)"
  const SizeError := "Image size must be less than 5MB"

  /** `validateImageFile` (storage.ts:76-89): the type is checked before the
      size; None means the file is accepted. */
  function ValidateImageFile(f: ImageFile): (r: Option<string>)
    ensures r == Some(TypeError) <==> f.mimeType !in AllowedTypes
    ensures r == Some(SizeError) <==> f.mimeType in AllowedTypes && f.size > MaxSize
    ensures r.None? <==> f.mimeType in AllowedTypes && f.size <= MaxSize
  {
    if f.mimeType !in AllowedTypes then Some(TypeError)
    else if f.size > MaxSize then Some(SizeError)
    else None
  }

  predicate IsValidImage(f: ImageFile)
  {
    ValidateImageFile(f).None?
  }

  /** Exactly 5 MiB is still accepted; one byte more is not. */
  lemma SizeBoundary(name: string)
    ensures IsValidImage(ImageFile(name, "image/png", 5242880))
    ensures ValidateImageFile(ImageFile(name, "image/png", 5242881)) == Some(SizeError)
  {
  }

  /** An oversized file of the wrong type gets the type message. */
  lemma TypeBeforeSize(name: string, size: int)
    requires size > MaxSize
    ensures ValidateImageFile(ImageFile(name, "image/gif", size)) == Some(TypeError)
  {
  }

  /** `s.split(sep).pop()`: the text after the last `sep`, or all of `s`
      when it has none. */
  function LastSegment(s: string, sep: char): (r: string)
    ensures |r| <= |s| && s[|s| - |r|..] == r
    ensures sep !in r
    ensures |r| < |s| ==> s[|s| - |r| - 1] == sep
    ensures sep !in s ==> r == s
  {
    if s == [] then ""
    else if s[|s| - 1] == sep then ""
    else
      var r := LastSegment(s[..|s| - 1], sep);
      assert sep !in s ==> sep !in s[..|s| - 1];
      r + [s[|s| - 1]]
  }

  /** What follows the last separator is exactly the final segment. */
  lemma {:induction false} LastSegmentAfter(s: string, sep: char, t: string)
    requires sep !in t
    ensures LastSegment(s + [sep] + t, sep) == t
    decreases |t|
  {
    if t == [] {
      assert (s + [sep] + t)[|s + [sep] + t| - 1] == sep;
    } else {
      var u := s + [sep] + t;
      assert u[..|u| - 1] == s + [sep] + t[..|t| - 1];
      LastSegmentAfter(s, sep, t[..|t| - 1]);
      assert t == t[..|t| - 1] + [t[|t| - 1]];
    }
  }

  /** The object path an upload is stored under (storage.ts:7-9): a
      generated stem, then '.', then the file name's extension, i.e. the
      text after its last '.' (all of the name when it has none). */
  function UploadPath(stem: string, fileName: string): (r: string)
    ensures |r| >= 10 + |stem|
    ensures r[..9] == "products/" && r[9..9 + |stem|] == stem && r[9 + |stem|] == '.'
    ensures var ext := r[10 + |stem|..];
      && '.' !in ext && |ext| <= |fileName| && fileName[|fileName| - |ext|..] == ext
      && (|ext| < |fileName| ==> fileName[|fileName| - |ext| - 1] == '.')
  {
    var ext := LastSegment(fileName, '.');
    var r := "products/" + stem + "." + ext;
    assert r[10 + |stem|..] == ext;
    r
  }

  /** The object `deleteProductImage` removes (storage.ts:59-74): nothing for
      an empty path, otherwise 'products/' and the last '/'-segment of the
      path, i.e. the text after its last '/' (all of it when it has none). */
  function DeletePath(imagePath: string): (r: Option<string>)
    ensures imagePath == "" <==> r.None?
    ensures r.Some? ==> |r.value| >= 9 && r.value[..9] == "products/"
    ensures r.Some? ==>
      var name := r.value[9..];
      && '/' !in name && |name| <= |imagePath| && imagePath[|imagePath| - |name|..] == name
      && (|name| < |imagePath| ==> imagePath[|imagePath| - |name| - 1] == '/')
  {
    if imagePath == "" then None
    else
      var r := "products/" + LastSegment(imagePath, '/');
      assert r[9..] == LastSegment(imagePath, '/');
      Some(r)
  }

  /** Deleting by a public URL that ends in an uploaded object's path removes
      that very object, when neither the stem nor the file name holds a '/'. */
  lemma DeleteFindsUpload(base: string, stem: string, fileName: string)
    requires '/' !in stem && '/' !in fileName
    ensures DeletePath(base + UploadPath(stem, fileName)) == Some(UploadPath(stem, fileName))
  {
    var ext := LastSegment(fileName, '.');
    var objectName := stem + "." + ext;
    assert '/' !in ext by {
      forall i | 0 <= i < |ext| ensures ext[i] != '/' {
        assert ext[i] == fileName[|fileName| - |ext| + i];
      }
    }
    assert '/' !in objectName;
    var prefix: string := "products/";
    assert prefix == "products" + ['/'];
    assert UploadPath(stem, fileName) == prefix + objectName;
    var url := base + UploadPath(stem, fileName);
    assert url == (base + "products") + ['/'] + objectName;
    LastSegmentAfter(base + "products", '/', objectName);
  }
}
