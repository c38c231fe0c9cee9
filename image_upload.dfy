/** The admin product image field (src/components/admin/ImageUpload.tsx):
    a batch of files is accepted or refused as a whole, then uploaded one by
    one. The storage service is the parameter `upload`, which gives the
    public URL of a stored file or None when the upload throws; preview
    object URLs and toasts are outside the model. */
module ImageUpload {
  import opened Wrappers
  import opened Seqs
  import opened Storage

  const DefaultMaxImages := 5

  /** The message of the first file that fails `validateImageFile`, if any
      (ImageUpload.tsx:39-45). */
  function FirstError(files: seq<ImageFile>): (r: Option<string>)
    ensures r == None <==> forall f :: f in files ==> IsValidImage(f)
    ensures r.Some? ==> exists k :: 0 <= k < |files| && ValidateImageFile(files[k]) == r && FirstValid(files, k)
  {
    if files == [] then None
    else if ValidateImageFile(files[0]).Some? then
      assert files[0] in files && FirstValid(files, 0);
      ValidateImageFile(files[0])
    else
      var r := FirstError(files[1..]);
      assert files == [files[0]] + files[1..];
      if r.Some? then
        var k :| 0 <= k < |files[1..]| && ValidateImageFile(files[1..][k]) == r && FirstValid(files[1..], k);
        assert FirstValid(files, k + 1) by {
          forall j | 0 <= j < k + 1
            ensures IsValidImage(files[j])
          {
            if j > 0 {
              assert files[j] == files[1..][j - 1];
            }
          }
        }
        r
      else r
  }

  /** The first `k` files all pass validation. */
  predicate FirstValid(files: seq<ImageFile>, k: nat)
    requires k <= |files|
  {
    forall j :: 0 <= j < k ==> IsValidImage(files[j])
  }

  /** The URLs the upload loop collects (ImageUpload.tsx:60-67): None as
      soon as one upload fails. */
  function UploadAll(files: seq<ImageFile>, upload: ImageFile -> Option<string>): (r: Option<seq<string>>)
    ensures r.None? <==> exists k :: 0 <= k < |files| && upload(files[k]).None?
    ensures r.Some? ==> |r.value| == |files|
    ensures r.Some? ==> forall k :: 0 <= k < |files| ==> upload(files[k]) == Some(r.value[k])
  {
    if files == [] then Some([])
    else
      var rest := UploadAll(files[1..], upload);
      if upload(files[0]).None? then None
      else if rest.None? then
        var k :| 0 <= k < |files[1..]| && upload(files[1..][k]).None?;
        assert upload(files[k + 1]).None?;
        None
      else
        var r := [upload(files[0]).value] + rest.value;
        assert forall k :: 1 <= k < |files| ==> files[k] == files[1..][k - 1];
        Some(r)
  }

  /** `previews.filter((_, i) => i !== index)` (ImageUpload.tsx:88). */
  function WithoutIndex(s: seq<string>, index: int): (r: seq<string>)
    ensures 0 <= index < |s| ==> |r| == |s| - 1
    ensures 0 <= index < |s| ==> forall k :: 0 <= k < index ==> r[k] == s[k]
    ensures 0 <= index < |s| ==> forall k :: index <= k < |r| ==> r[k] == s[k + 1]
    ensures !(0 <= index < |s|) ==> r == s
  {
    if 0 <= index < |s| then RemoveAt(s, index) else s
  }

  datatype SelectOutcome = NoFiles | TooMany | Invalid(message: string) | UploadFailed | Uploaded

  class Uploader {
    const maxImages: int
    var previews: seq<string>
    var uploading: bool

    constructor (currentImages: seq<string>, maxImages: int)
      ensures previews == currentImages && this.maxImages == maxImages && !uploading
    {
      previews := currentImages;
      this.maxImages := maxImages;
      uploading := false;
    }

    /** The effect that copies the `currentImages` prop (ImageUpload.tsx:24-26). */
    method Sync(currentImages: seq<string>)
      modifies this
      ensures previews == currentImages && uploading == old(uploading)
    {
      previews := currentImages;
    }

    /** `maxImages - previews.length` (ImageUpload.tsx:99). */
    function RemainingSlots(): (r: int)
      reads this
      ensures r + |previews| == maxImages
    {
      maxImages - |previews|
    }

    /** The upload area is drawn only while a slot is free (ImageUpload.tsx:109). */
    predicate ShowsUploadArea()
      reads this
    {
      RemainingSlots() > 0
    }

    /** The free-slot count is the capacity guard of `handleFileSelect`
        (ImageUpload.tsx:33) read the other way round: a non-empty batch is
        refused as too many exactly when it has more files than free slots,
        so the upload area shows exactly when a single file would pass. */
    lemma SlotsMatchGuard(files: seq<ImageFile>)
      requires files != []
      ensures |previews| + |files| > maxImages <==> |files| > RemainingSlots()
      ensures ShowsUploadArea() <==> !(|previews| + 1 > maxImages)
    {
    }

    /** `handleFileSelect` (ImageUpload.tsx:28-85). */
    method HandleFileSelect(files: seq<ImageFile>, upload: ImageFile -> Option<string>) returns (r: SelectOutcome)
      modifies this
      ensures r == NoFiles <==> files == []
      ensures r == TooMany <==> files != [] && |old(previews)| + |files| > maxImages
      ensures r.Invalid? <==> files != [] && |old(previews)| + |files| <= maxImages && FirstError(files).Some?
      ensures r.Invalid? ==> Some(r.message) == FirstError(files)
      ensures r == UploadFailed <==>
        (files != [] && |old(previews)| + |files| <= maxImages && FirstError(files) == None && UploadAll(files, upload) == None)
      ensures r == Uploaded ==> UploadAll(files, upload).Some?
      ensures r == Uploaded ==> previews == old(previews) + UploadAll(files, upload).value
      ensures r != Uploaded ==> previews == old(previews)
      ensures |old(previews)| <= maxImages ==> |previews| <= maxImages
      ensures r == Uploaded || r == UploadFailed ==> !uploading
      ensures r == NoFiles || r == TooMany || r.Invalid? ==> uploading == old(uploading)
    {
      if |files| == 0 {
        return NoFiles;
      }
      if |previews| + |files| > maxImages {
        return TooMany;
      }
      var i := 0;
      while i < |files|
        invariant 0 <= i <= |files|
        invariant FirstValid(files, i)
      {
        var validationError := ValidateImageFile(files[i]);
        if validationError.Some? {
          FirstErrorAt(files, i);
          return Invalid(validationError.value);
        }
        i := i + 1;
      }
      uploading := true;
      var newImageUrls: seq<string> := [];
      i := 0;
      while i < |files|
        invariant 0 <= i <= |files|
        invariant |newImageUrls| == i
        invariant forall j :: 0 <= j < i ==> upload(files[j]) == Some(newImageUrls[j])
        invariant previews == old(previews)
      {
        var imageUrl := upload(files[i]);
        if imageUrl.None? {
          uploading := false;
          return UploadFailed;
        }
        newImageUrls := newImageUrls + [imageUrl.value];
        i := i + 1;
      }
      UploadAllIs(files, upload, newImageUrls);
      previews := previews + newImageUrls;
      uploading := false;
      r := Uploaded;
    }

    /** `handleRemoveImage` (ImageUpload.tsx:87-91). */
    method HandleRemoveImage(index: int)
      modifies this
      ensures previews == WithoutIndex(old(previews), index)
      ensures uploading == old(uploading)
    {
      previews := WithoutIndex(previews, index);
    }
  }

  /** The first failing file's message is the batch's message. */
  lemma {:induction false} FirstErrorAt(files: seq<ImageFile>, i: nat)
    requires i < |files|
    requires FirstValid(files, i)
    requires ValidateImageFile(files[i]).Some?
    ensures FirstError(files) == ValidateImageFile(files[i])
    decreases i
  {
    if i > 0 {
      assert IsValidImage(files[0]);
      assert FirstValid(files[1..], i - 1) by {
        forall j | 0 <= j < i - 1
          ensures IsValidImage(files[1..][j])
        {
          assert files[1..][j] == files[j + 1];
        }
      }
      FirstErrorAt(files[1..], i - 1);
    }
  }

  /** Uploads that all succeeded give exactly their URLs, in file order. */
  lemma {:induction false} UploadAllIs(files: seq<ImageFile>, upload: ImageFile -> Option<string>, urls: seq<string>)
    requires |urls| == |files|
    requires forall j :: 0 <= j < |files| ==> upload(files[j]) == Some(urls[j])
    ensures UploadAll(files, upload) == Some(urls)
    decreases |files|
  {
    if files != [] {
      UploadAllIs(files[1..], upload, urls[1..]);
      assert urls == [urls[0]] + urls[1..];
    }
  }
}
