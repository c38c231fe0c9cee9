/** The admin editor for the home page carousel
    (src/components/admin/ImageSliderTab.tsx): reordering, and the add and
    save actions. Database calls are outside the model. */
module ImageSliderTab {
  import opened Wrappers

  /** A carousel row; the nullable texts are "" when absent. */
  datatype CarouselImage = CarouselImage(id: string, imageUrl: string, text: string, showButton: bool, buttonUrl: string, order: int)

  datatype Direction = Up | Down

  /** The list with positions `i` and `j` exchanged. */
  function Swap(s: seq<CarouselImage>, i: nat, j: nat): (r: seq<CarouselImage>)
    requires i < |s| && j < |s|
    ensures |r| == |s| && r[i] == s[j] && r[j] == s[i]
    ensures forall k :: 0 <= k < |s| && k != i && k != j ==> r[k] == s[k]
    ensures multiset(r) == multiset(s)
  {
    s[i := s[j]][j := s[i]]
  }

  /** Each image's `order` set to its position. */
  function Renumbered(s: seq<CarouselImage>): (r: seq<CarouselImage>)
    ensures |r| == |s|
    ensures forall k :: 0 <= k < |s| ==> r[k] == s[k].(order := k)
  {
    seq(|s|, k requires 0 <= k < |s| => s[k].(order := k))
  }

  /** The move is refused at the ends (ImageSliderTab.tsx:68). */
  predicate AtEdge(n: nat, index: nat, dir: Direction)
  {
    (dir == Up && index == 0) || (dir == Down && index == n - 1)
  }

  /** The list after a move (ImageSliderTab.tsx:67-74). */
  function Moved(s: seq<CarouselImage>, index: nat, dir: Direction): (r: seq<CarouselImage>)
    requires index < |s|
    ensures AtEdge(|s|, index, dir) ==> r == s
    ensures !AtEdge(|s|, index, dir) ==>
      var j := if dir == Up then index - 1 else index + 1;
      0 <= j < |s| && r == Renumbered(Swap(s, index, j))
  {
    if AtEdge(|s|, index, dir) then s
    else Renumbered(Swap(s, index, if dir == Up then index - 1 else index + 1))
  }

  /** A real move exchanges the image with its neighbour, leaves every other
      image where it was, and numbers them all by position. */
  lemma MoveSwapsNeighbours(s: seq<CarouselImage>, index: nat, dir: Direction)
    requires index < |s| && !AtEdge(|s|, index, dir)
    ensures var j := if dir == Up then index - 1 else index + 1;
      var r := Moved(s, index, dir);
      && r[index] == s[j].(order := index) && r[j] == s[index].(order := j)
      && (forall k :: 0 <= k < |s| && k != index && k != j ==> r[k] == s[k].(order := k))
      && (forall k :: 0 <= k < |r| ==> r[k].order == k)
  {
  }

  /** Up then down from the new position restores the list, apart from the
      renumbering. */
  lemma MoveUpThenDown(s: seq<CarouselImage>, index: nat)
    requires 0 < index < |s|
    ensures Moved(Moved(s, index, Up), index - 1, Down) == Renumbered(s)
  {
  }

  /** `handleMove` (ImageSliderTab.tsx:67-82): the copy, the swap and the
      renumbering loop, in place on a fresh array. */
  method HandleMove(images: seq<CarouselImage>, index: nat, dir: Direction) returns (r: seq<CarouselImage>)
    requires index < |images|
    ensures r == Moved(images, index, dir)
  {
    if (dir == Up && index == 0) || (dir == Down && index == |images| - 1) {
      return images;
    }
    var a := new CarouselImage[|images|](i requires 0 <= i < |images| => images[i]);
    var swapIndex := if dir == Up then index - 1 else index + 1;
    a[index], a[swapIndex] := a[swapIndex], a[index];
    ghost var swapped := a[..];
    assert swapped == Swap(images, index, swapIndex);
    var i := 0;
    while i < a.Length
      invariant 0 <= i <= a.Length
      invariant forall k :: 0 <= k < i ==> a[k] == swapped[k].(order := k)
      invariant forall k :: i <= k < a.Length ==> a[k] == swapped[k]
    {
      a[i] := a[i].(order := i);
      i := i + 1;
    }
    r := a[..];
  }

  /** `handleAdd` (ImageSliderTab.tsx:41-50): a blank image numbered after
      the existing ones. */
  function NewDraft(images: seq<CarouselImage>): (d: CarouselImage)
    ensures d.id == "" && d.imageUrl == "" && d.order == |images|
    ensures d.text == "" && !d.showButton && d.buttonUrl == ""
  {
    CarouselImage("", "", "", false, "", |images|)
  }

  datatype SaveAction =
    | NothingToSave
    | MissingImage
    | UpdateRow(id: string, imageUrl: string, text: string, showButton: bool, buttonUrl: string)
    | InsertRow(row: CarouselImage)

  /** The write `handleSave` makes (ImageSliderTab.tsx:84-124). An insert
      numbers the image by the current count, whatever the draft says. */
  function SaveFor(editing: Option<CarouselImage>, images: seq<CarouselImage>): (a: SaveAction)
    ensures a == NothingToSave <==> editing.None?
    ensures a == MissingImage <==> editing.Some? && editing.value.imageUrl == ""
    ensures a.UpdateRow? <==> editing.Some? && editing.value.imageUrl != "" && editing.value.id != ""
    ensures a.UpdateRow? ==> a == UpdateRow(editing.value.id, editing.value.imageUrl, editing.value.text,
                                            editing.value.showButton, editing.value.buttonUrl)
    ensures a.InsertRow? <==> editing.Some? && editing.value.imageUrl != "" && editing.value.id == ""
    ensures a.InsertRow? ==> a.row == editing.value.(order := |images|)
  {
    match editing
    case None => NothingToSave
    case Some(e) =>
      if e.imageUrl == "" then MissingImage
      else if e.id != "" then UpdateRow(e.id, e.imageUrl, e.text, e.showButton, e.buttonUrl)
      else InsertRow(e.(order := |images|))
  }

  /** The draft after a save: kept when the image is missing, closed after
      any write (ImageSliderTab.tsx:88-91, 119-121). */
  function EditingAfterSave(editing: Option<CarouselImage>): (r: Option<CarouselImage>)
    ensures editing.Some? && editing.value.imageUrl == "" ==> r == editing
    ensures editing.None? || editing.value.imageUrl != "" ==> r.None?
  {
    if editing.Some? && editing.value.imageUrl == "" then editing else None
  }
}
