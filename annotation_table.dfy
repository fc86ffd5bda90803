/**
 * The annotation module of the labelling tool's Vuex store
 * (`yolo-annotation-tool/src/store/modules/annotation.js`): the image list, the current
 * position in it, and a table from image id to that image's boxes.
 */
module AnnotationStore {
  import opened Wrappers
  import opened LabelTool

  /** Every field of the module's `state`, as one value. */
  datatype TableState = TableState(
    images: seq<ToolImage>,
    currentImageIndex: int,
    annotations: map<string, seq<LabelBox>>,
    classes: seq<ToolClass>,
    selectedClass: Option<int>,
    scale: real,
    isDrawing: bool)

  const InitialState: TableState := TableState([], 0, map[], [], None, 1.0, false)

  // ---------------------------------------------------------------- the list edits

  /** Where `splice(index, 1)` starts: a negative index counts from the end, and the result is clipped to the list. */
  function SpliceStart(length: nat, index: int): (r: nat)
    ensures r <= length
  {
    if index < 0 then (if length + index > 0 then length + index else 0)
    else if index < length then index else length
  }

  /**
   * `boxes.splice(index, 1)`: an index inside the list removes that box and moves the later ones
   * down; one at or past the end removes nothing; a negative one counts from the end, and one
   * below minus the length removes the first box.
   */
  function SpliceOne(boxes: seq<LabelBox>, index: int): (r: seq<LabelBox>)
    ensures 0 <= index < |boxes| ==> |r| == |boxes| - 1
    ensures 0 <= index < |boxes| ==> forall k :: 0 <= k < index ==> r[k] == boxes[k]
    ensures 0 <= index < |boxes| ==> forall k :: index <= k < |r| ==> r[k] == boxes[k + 1]
    ensures index >= |boxes| ==> r == boxes
    ensures index < 0 && -index <= |boxes| ==> r == boxes[..|boxes| + index] + boxes[|boxes| + index + 1..]
    ensures index < 0 && -index >= |boxes| && |boxes| > 0 ==> r == boxes[1..]
    ensures |boxes| == 0 ==> r == []
  {
    var p := SpliceStart(|boxes|, index);
    if p < |boxes| then boxes[..p] + boxes[p + 1..] else boxes
  }

  /** `splice(-1, 1)` drops the last box. */
  lemma SpliceLast(boxes: seq<LabelBox>)
    requires |boxes| > 0
    ensures SpliceOne(boxes, -1) == boxes[..|boxes| - 1]
  {
    assert boxes[|boxes|..] == [];
  }

  /** `SET_ANNOTATIONS`: the image's list becomes `boxes`. */
  function SetList(table: map<string, seq<LabelBox>>, imageId: string, boxes: seq<LabelBox>): (r: map<string, seq<LabelBox>>)
    ensures r.Keys == table.Keys + {imageId}
    ensures r[imageId] == boxes
    ensures forall id :: id in table && id != imageId ==> r[id] == table[id]
  {
    table[imageId := boxes]
  }

  /** `ADD_ANNOTATION`: a missing list starts empty, then the box goes last. */
  function AddTo(table: map<string, seq<LabelBox>>, imageId: string, box: LabelBox): (r: map<string, seq<LabelBox>>)
    ensures r.Keys == table.Keys + {imageId}
    ensures imageId in table ==> r[imageId] == table[imageId] + [box]
    ensures imageId !in table ==> r[imageId] == [box]
    ensures forall id :: id in table && id != imageId ==> r[id] == table[id]
  {
    var before := if imageId in table then table[imageId] else [];
    table[imageId := before + [box]]
  }

  /**
   * `UPDATE_ANNOTATION`: with a list, position `index` is assigned. A negative index sets a
   * property outside the elements, so the list of boxes stays as it was. Without a list,
   * nothing happens.
   */
  function UpdateIn(table: map<string, seq<LabelBox>>, imageId: string, index: int, box: LabelBox): (r: map<string, seq<LabelBox>>)
    requires imageId in table ==> index < |table[imageId]|
    ensures r.Keys == table.Keys
    ensures forall id :: id in table && id != imageId ==> r[id] == table[id]
    ensures imageId in table ==> |r[imageId]| == |table[imageId]|
    ensures imageId in table && 0 <= index ==> r[imageId][index] == box
    ensures imageId in table ==> forall k :: 0 <= k < |r[imageId]| && k != index ==> r[imageId][k] == table[imageId][k]
  {
    if imageId in table && 0 <= index then table[imageId := table[imageId][index := box]] else table
  }

  /** `DELETE_ANNOTATION`: with a list, `splice(index, 1)`; without one, nothing happens. */
  function DeleteIn(table: map<string, seq<LabelBox>>, imageId: string, index: int): (r: map<string, seq<LabelBox>>)
    ensures r.Keys == table.Keys
    ensures forall id :: id in table && id != imageId ==> r[id] == table[id]
    ensures imageId in table ==> r[imageId] == SpliceOne(table[imageId], index)
  {
    if imageId in table then table[imageId := SpliceOne(table[imageId], index)] else table
  }

  /** Adding a box and then deleting the last one gives back the same list, under a key that stays. */
  lemma AddThenDeleteLast(table: map<string, seq<LabelBox>>, imageId: string, box: LabelBox)
    requires imageId in table
    ensures DeleteIn(AddTo(table, imageId, box), imageId, -1) == table
  {
    var after := AddTo(table, imageId, box);
    SpliceLast(after[imageId]);
    assert after[imageId][..|after[imageId]| - 1] == table[imageId];
  }

  // ---------------------------------------------------------------- the getters

  /** `currentImage`: the image at the current index, or none when the index is outside the list. */
  function CurrentImage(st: TableState): (r: Option<ToolImage>)
    ensures r.Some? <==> 0 <= st.currentImageIndex < |st.images|
    ensures r.Some? ==> r.value == st.images[st.currentImageIndex]
  {
    if 0 <= st.currentImageIndex < |st.images| then Some(st.images[st.currentImageIndex]) else None
  }

  /** `currentImageAnnotations`: the current image's list, or none without an image or without a list. */
  function CurrentImageAnnotations(st: TableState): (r: seq<LabelBox>)
    ensures CurrentImage(st).None? ==> r == []
    ensures CurrentImage(st).Some? && CurrentImage(st).value.id !in st.annotations ==> r == []
    ensures CurrentImage(st).Some? && CurrentImage(st).value.id in st.annotations ==> r == st.annotations[CurrentImage(st).value.id]
  {
    match CurrentImage(st)
    case None => []
    case Some(image) => if image.id in st.annotations then st.annotations[image.id] else []
  }

  /** `getAllAnnotations`: the whole table, in which the current image's list is its entry. */
  function AllAnnotations(st: TableState): (r: map<string, seq<LabelBox>>)
    ensures CurrentImage(st).Some? ==>
              CurrentImageAnnotations(st) == if CurrentImage(st).value.id in r then r[CurrentImage(st).value.id] else []
  {
    st.annotations
  }

  /** `imageCount`: there is a current image exactly when the index is below the count, and none at all without images. */
  function ImageCount(st: TableState): (r: nat)
    ensures CurrentImage(st).Some? <==> 0 <= st.currentImageIndex < r
    ensures r == 0 ==> forall i :: CurrentImage(st.(currentImageIndex := i)).None?
  {
    |st.images|
  }

  /** `hasNextImage`. */
  predicate HasNextImage(st: TableState) {
    st.currentImageIndex < |st.images| - 1
  }

  /** `hasPrevImage`. */
  predicate HasPrevImage(st: TableState) {
    st.currentImageIndex > 0
  }

  /** From an image, a next image means the following position holds one. */
  lemma NextIsAnImage(st: TableState)
    requires CurrentImage(st).Some?
    ensures HasNextImage(st) <==> CurrentImage(st.(currentImageIndex := st.currentImageIndex + 1)).Some?
  {
  }

  /** From an image, a previous image means the position before holds one. */
  lemma PrevIsAnImage(st: TableState)
    requires CurrentImage(st).Some?
    ensures HasPrevImage(st) <==> CurrentImage(st.(currentImageIndex := st.currentImageIndex - 1)).Some?
  {
  }

  /** `loadImages`: the list is replaced, and the index goes back to the first image only when there is one. */
  function LoadImages(st: TableState, images: seq<ToolImage>): (r: TableState)
    ensures r.images == images
    ensures |images| > 0 ==> r.currentImageIndex == 0
    ensures |images| == 0 ==> r.currentImageIndex == st.currentImageIndex
    ensures r == st.(images := images, currentImageIndex := r.currentImageIndex)
  {
    var loaded := st.(images := images);
    if |images| > 0 then loaded.(currentImageIndex := 0) else loaded
  }

  /** After loading a non-empty list, the first image is current, there is no previous one, and a next one exactly when there are two or more. */
  lemma LoadImagesNavigation(st: TableState, images: seq<ToolImage>)
    requires |images| > 0
    ensures CurrentImage(LoadImages(st, images)) == Some(images[0])
    ensures !HasPrevImage(LoadImages(st, images))
    ensures HasNextImage(LoadImages(st, images)) <==> |images| >= 2
  {
  }

  // ---------------------------------------------------------------- the module's state

  /** The module's state object, changed only by the mutations below. */
  class AnnotationTable {
    var images: seq<ToolImage>
    var currentImageIndex: int
    var annotations: map<string, seq<LabelBox>>
    var classes: seq<ToolClass>
    var selectedClass: Option<int>
    var scale: real
    var isDrawing: bool

    /** The state the getters read. */
    function State(): TableState
      reads this
    {
      TableState(images, currentImageIndex, annotations, classes, selectedClass, scale, isDrawing)
    }

    constructor ()
      ensures State() == InitialState
    {
      images := [];
      currentImageIndex := 0;
      annotations := map[];
      classes := [];
      selectedClass := None;
      scale := 1.0;
      isDrawing := false;
    }

    /** `SET_IMAGES`. */
    method SetImages(newImages: seq<ToolImage>)
      modifies this
      ensures State() == old(State()).(images := newImages)
    {
      images := newImages;
    }

    /** `ADD_IMAGE`. */
    method AddImage(image: ToolImage)
      modifies this
      ensures State() == old(State()).(images := old(images) + [image])
    {
      images := images + [image];
    }

    /** `SET_CURRENT_IMAGE_INDEX`: any number is stored, in range or not. */
    method SetCurrentImageIndex(index: int)
      modifies this
      ensures State() == old(State()).(currentImageIndex := index)
    {
      currentImageIndex := index;
    }

    /** `SET_ANNOTATIONS`. */
    method SetAnnotations(imageId: string, boxes: seq<LabelBox>)
      modifies this
      ensures State() == old(State()).(annotations := SetList(old(annotations), imageId, boxes))
    {
      annotations := annotations[imageId := boxes];
    }

    /** `ADD_ANNOTATION`. */
    method AddAnnotation(imageId: string, annotation: LabelBox)
      modifies this
      ensures State() == old(State()).(annotations := AddTo(old(annotations), imageId, annotation))
    {
      if imageId !in annotations {
        annotations := annotations[imageId := []];
      }
      annotations := annotations[imageId := annotations[imageId] + [annotation]];
    }

    /** `UPDATE_ANNOTATION`. */
    method UpdateAnnotation(imageId: string, index: int, annotation: LabelBox)
      requires imageId in annotations ==> index < |annotations[imageId]|
      modifies this
      ensures State() == old(State()).(annotations := UpdateIn(old(annotations), imageId, index, annotation))
    {
      if imageId in annotations && index >= 0 {
        annotations := annotations[imageId := annotations[imageId][index := annotation]];
      }
    }

    /** `DELETE_ANNOTATION`. */
    method DeleteAnnotation(imageId: string, index: int)
      modifies this
      ensures State() == old(State()).(annotations := DeleteIn(old(annotations), imageId, index))
    {
      if imageId in annotations {
        var list := annotations[imageId];
        var start := SpliceStart(|list|, index);
        if start < |list| {
          list := list[..start] + list[start + 1..];
        }
        annotations := annotations[imageId := list];
      }
    }

    /** `SET_CLASSES`. */
    method SetClasses(newClasses: seq<ToolClass>)
      modifies this
      ensures State() == old(State()).(classes := newClasses)
    {
      classes := newClasses;
    }

    /** `SET_SELECTED_CLASS`. */
    method SetSelectedClass(classId: Option<int>)
      modifies this
      ensures State() == old(State()).(selectedClass := classId)
    {
      selectedClass := classId;
    }

    /** `SET_SCALE`. */
    method SetScale(newScale: real)
      modifies this
      ensures State() == old(State()).(scale := newScale)
    {
      scale := newScale;
    }

    /** `SET_IS_DRAWING`. */
    method SetIsDrawing(status: bool)
      modifies this
      ensures State() == old(State()).(isDrawing := status)
    {
      isDrawing := status;
    }

    /** `loadImages`: commits `SET_IMAGES`, then `SET_CURRENT_IMAGE_INDEX` with 0 for a non-empty list. */
    method LoadImagesAction(newImages: seq<ToolImage>)
      modifies this
      ensures State() == LoadImages(old(State()), newImages)
    {
      SetImages(newImages);
      if |newImages| > 0 {
        SetCurrentImageIndex(0);
      }
    }
  }
}
