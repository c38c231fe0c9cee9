/** The admin bulk image picker (src/components/admin/BulkImageUpload.tsx):
    a capacity-limited add, removal by id and drag-and-drop reordering. The
    preview object URLs, the toasts and the upload itself are outside the
    model. */
module BulkImageUpload {
  import opened Wrappers
  import opened Seqs
  import opened Storage

  /** A picked file and its random id (BulkImageUpload.tsx:6-12). */
  datatype ImageItem = ImageItem(id: string, file: ImageFile)

  const DefaultMaxImages := 10

  /** The files `addFiles` accepts from `files` when `n` images are already
      picked: a file that `valid` refuses is skipped, and one it passes is
      kept only while fewer than `max` images would be picked. The picker
      passes `IsValidImage`. */
  function Accepted(n: nat, files: seq<ImageFile>, max: int, valid: ImageFile -> bool): (r: seq<ImageFile>)
    ensures |r| <= |files|
    ensures n < max ==> n + |r| <= max
    ensures n >= max ==> r == []
    decreases |files|
  {
    if files == [] then []
    else
      var rest := Accepted(n + 1, files[1..], max, valid);
      if !valid(files[0]) || n >= max then Accepted(n, files[1..], max, valid)
      else [files[0]] + rest
  }

  /** The accepted files are the valid ones, in selection order, cut at the
      remaining capacity. */
  lemma {:induction false} AcceptedIsFirstValid(n: nat, files: seq<ImageFile>, max: int, valid: ImageFile -> bool)
    requires n <= max
    ensures Accepted(n, files, max, valid) == Take(Filter(files, valid), max - n)
    decreases |files|
  {
    if files != [] {
      if !valid(files[0]) || n == max {
        AcceptedIsFirstValid(n, files[1..], max, valid);
      } else {
        AcceptedIsFirstValid(n + 1, files[1..], max, valid);
      }
      AcceptedStep(n, files, max, valid);
    }
  }

  /** The inductive step of `AcceptedIsFirstValid`. */
  lemma AcceptedStep(n: nat, files: seq<ImageFile>, max: int, valid: ImageFile -> bool)
    requires n <= max && files != []
    requires !valid(files[0]) || n == max ==>
      Accepted(n, files[1..], max, valid) == Take(Filter(files[1..], valid), max - n)
    requires valid(files[0]) && n < max ==>
      Accepted(n + 1, files[1..], max, valid) == Take(Filter(files[1..], valid), max - n - 1)
    ensures Accepted(n, files, max, valid) == Take(Filter(files, valid), max - n)
  {
    var passed := Filter(files[1..], valid);
    FilterUnfold(files, valid);
    AcceptedUnfold(n, files, max, valid);
    if valid(files[0]) && n < max {
      assert Take([files[0]] + passed, max - n) == [files[0]] + Take(passed, max - n - 1);
    }
  }

  /** Every accepted file passed validation and was among those picked. */
  lemma {:induction false} AcceptedAreValid(n: nat, files: seq<ImageFile>, max: int, valid: ImageFile -> bool)
    ensures forall f :: f in Accepted(n, files, max, valid) ==> f in files && valid(f)
    decreases |files|
  {
    if files != [] {
      AcceptedAreValid(n, files[1..], max, valid);
      AcceptedAreValid(n + 1, files[1..], max, valid);
    }
  }

  /** One file's turn in `addFiles`. */
  lemma AcceptedUnfold(n: nat, files: seq<ImageFile>, max: int, valid: ImageFile -> bool)
    requires files != []
    ensures Accepted(n, files, max, valid) ==
      if valid(files[0]) && n < max then [files[0]] + Accepted(n + 1, files[1..], max, valid)
      else Accepted(n, files[1..], max, valid)
  {
  }

  /** The drag-and-drop reorder (BulkImageUpload.tsx:114-117): take the
      item at `from` out, then put it back before index `to`. */
  function Move<T>(s: seq<T>, from: nat, to: nat): (r: seq<T>)
    requires from < |s| && to < |s|
    ensures |r| == |s| && r[to] == s[from]
    ensures multiset(r) == multiset(s)
  {
    InsertAt(RemoveAt(s, from), to, s[from])
  }

  /** Where every element of `s` lands after a move. */
  lemma MoveAt<T>(s: seq<T>, from: nat, to: nat, k: nat)
    requires from < |s| && to < |s| && k < |s|
    ensures k == to ==> Move(s, from, to)[k] == s[from]
    ensures k < from && k < to ==> Move(s, from, to)[k] == s[k]
    ensures k > from && k > to ==> Move(s, from, to)[k] == s[k]
    ensures from <= k < to ==> Move(s, from, to)[k] == s[k + 1]
    ensures to < k <= from ==> Move(s, from, to)[k] == s[k - 1]
  {
  }

  /** The other items keep their relative order: removing the moved item
      from both sides leaves the same sequence. */
  lemma MoveKeepsOthers<T>(s: seq<T>, from: nat, to: nat)
    requires from < |s| && to < |s|
    ensures RemoveAt(Move(s, from, to), to) == RemoveAt(s, from)
  {
    var r := Move(s, from, to);
    assert RemoveAt(r, to) == RemoveAt(s, from) by {
      forall k | 0 <= k < |s| - 1
        ensures RemoveAt(r, to)[k] == RemoveAt(s, from)[k]
      {
        if k < to {
          MoveAt(s, from, to, k);
        } else {
          MoveAt(s, from, to, k + 1);
        }
      }
    }
  }

  /** Dropping an item where it was picked up changes nothing. */
  lemma MoveInPlaceIsIdentity<T>(s: seq<T>, i: nat)
    requires i < |s|
    ensures Move(s, i, i) == s
  {
    assert forall k :: 0 <= k < |s| ==> Move(s, i, i)[k] == s[k];
  }

  /** The `splice` pair done on an array: the items between the two indices
      shift by one and the dragged item goes into the gap. */
  method MoveItem<T>(a: array<T>, from: nat, to: nat)
    requires from < a.Length && to < a.Length
    modifies a
    ensures a[..] == Move(old(a[..]), from, to)
  {
    ghost var s := a[..];
    var dragged := a[from];
    if from < to {
      var i := from;
      while i < to
        invariant from <= i <= to
        invariant forall k :: 0 <= k < from ==> a[k] == s[k]
        invariant forall k :: from <= k < i ==> a[k] == s[k + 1]
        invariant forall k :: i <= k < a.Length ==> a[k] == s[k]
      {
        a[i] := a[i + 1];
        i := i + 1;
      }
    } else {
      var i := from;
      while i > to
        invariant to <= i <= from
        invariant forall k :: 0 <= k < i ==> a[k] == s[k]
        invariant forall k :: i < k <= from ==> a[k] == s[k - 1]
        invariant forall k :: from < k < a.Length ==> a[k] == s[k]
      {
        a[i] := a[i - 1];
        i := i - 1;
      }
    }
    a[to] := dragged;
    forall k | 0 <= k < a.Length
      ensures a[k] == Move(s, from, to)[k]
    {
      MoveAt(s, from, to, k);
    }
  }

  /** The picker's state: the picked images and the index being dragged. */
  class Picker {
    const maxImages: int
    var images: seq<ImageItem>
    var draggedIndex: Option<nat>

    /** The picker never holds more than `maxImages` images. */
    predicate Valid()
      reads this
    {
      |images| <= maxImages
    }

    constructor (maxImages: nat)
      ensures Valid() && this.maxImages == maxImages
      ensures images == [] && draggedIndex == None
    {
      this.maxImages := maxImages;
      images := [];
      draggedIndex := None;
    }

    /** `addFiles` (BulkImageUpload.tsx:33-54): the `k`-th accepted file gets
        the id `draw(k)`, standing for the random id. */
    method AddFiles(files: seq<ImageFile>, draw: nat -> string)
      requires Valid()
      modifies this
      ensures Valid()
      ensures var added := Accepted(|old(images)|, files, maxImages, IsValidImage);
        |images| == |old(images)| + |added|
      ensures images[..|old(images)|] == old(images)
      ensures forall k :: 0 <= k < |images| - |old(images)| ==>
        images[|old(images)| + k] == ImageItem(draw(k), Accepted(|old(images)|, files, maxImages, IsValidImage)[k])
      ensures draggedIndex == old(draggedIndex)
    {
      var existing := images;
      var validFiles: seq<ImageItem> := [];
      ghost var taken: seq<ImageFile> := [];
      var i := 0;
      while i < |files|
        invariant 0 <= i <= |files|
        invariant taken + Accepted(|existing| + |taken|, files[i..], maxImages, IsValidImage) == Accepted(|existing|, files, maxImages, IsValidImage)
        invariant |validFiles| == |taken|
        invariant forall k :: 0 <= k < |validFiles| ==> validFiles[k] == ImageItem(draw(k), taken[k])
        invariant unchanged(this)
      {
        var file := files[i];
        ghost var n := |existing| + |taken|;
        assert files[i..][1..] == files[i + 1..];
        AcceptedUnfold(n, files[i..], maxImages, IsValidImage);
        if ValidateImageFile(file).Some? {
        } else if |existing| + |validFiles| >= maxImages {
        } else {
          validFiles := validFiles + [ImageItem(draw(|validFiles|), file)];
          assert taken + [file] + Accepted(n + 1, files[i + 1..], maxImages, IsValidImage) == taken + Accepted(n, files[i..], maxImages, IsValidImage);
          taken := taken + [file];
        }
        i := i + 1;
      }
      images := existing + validFiles;
    }

    /** `removeImage` (BulkImageUpload.tsx:56-64). */
    method RemoveImage(id: string)
      requires Valid()
      modifies this
      ensures Valid()
      ensures images == Filter(old(images), (img: ImageItem) => img.id != id)
      ensures forall img :: img in images <==> img in old(images) && img.id != id
      ensures draggedIndex == old(draggedIndex)
    {
      images := Filter(images, (img: ImageItem) => img.id != id);
    }

    /** `handleDragStart` (BulkImageUpload.tsx:101-103). */
    method DragStart(index: nat)
      modifies this
      ensures draggedIndex == Some(index) && images == old(images)
    {
      draggedIndex := Some(index);
    }

    /** `handleDrop` (BulkImageUpload.tsx:109-121); both indices are
        positions of rendered images. */
    method Drop(dropIndex: nat)
      requires Valid()
      requires dropIndex < |images|
      requires draggedIndex.Some? ==> draggedIndex.value < |images|
      modifies this
      ensures Valid()
      ensures old(draggedIndex) == None ==> images == old(images) && draggedIndex == None
      ensures old(draggedIndex).Some? ==>
        images == Move(old(images), old(draggedIndex).value, dropIndex) && draggedIndex == None
      ensures multiset(images) == multiset(old(images))
    {
      if draggedIndex == None {
        return;
      }
      var newImages := new ImageItem[|images|](k requires 0 <= k < |images| reads this => images[k]);
      assert newImages[..] == images;
      MoveItem(newImages, draggedIndex.value, dropIndex);
      images := newImages[..];
      draggedIndex := None;
    }
  }
}
