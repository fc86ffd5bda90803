/**
 * The editor's Vuex store (`src/store/index.js`): the current image and its boxes, the image
 * list, the categories, and the drawing flags. The mutations change one field each; the three
 * box mutations edit the current list in place.
 */
module EditorStore {
  import opened Wrappers
  import opened Annotations

  /** Every field of the store's `state`, as one value. */
  datatype StoreState = StoreState(
    currentImage: Option<Image>,
    imageList: seq<Image>,
    currentAnnotations: seq<Annotation>,
    categories: seq<Category>,
    selectedCategory: int,
    canvasScale: real,
    isDrawing: bool,
    selectedAnnotation: Option<Annotation>)

  /** The five categories the store starts with. */
  const DefaultCategories: seq<Category> := [
    Category(0, "人", "#ff6b6b"),
    Category(1, "车", "#4ecdc4"),
    Category(2, "动物", "#45b7d1"),
    Category(3, "建筑", "#96ceb4"),
    Category(4, "其他", "#feca57")
  ]

  // ---------------------------------------------------------------- the box list edits

  /** `UPDATE_ANNOTATION`: the box at `index` is replaced when the index is in range; otherwise nothing happens. */
  function Updated(boxes: seq<Annotation>, index: int, a: Annotation): (r: seq<Annotation>)
    ensures |r| == |boxes|
    ensures forall k :: 0 <= k < |r| && k != index ==> r[k] == boxes[k]
    ensures 0 <= index < |boxes| ==> r[index] == a
  {
    if 0 <= index < |boxes| then boxes[index := a] else boxes
  }

  /** `DELETE_ANNOTATION`: the box at `index` is removed when the index is in range; otherwise nothing happens. */
  function Deleted(boxes: seq<Annotation>, index: int): (r: seq<Annotation>)
    ensures 0 <= index < |boxes| ==> |r| == |boxes| - 1
    ensures 0 <= index < |boxes| ==> forall k :: 0 <= k < index ==> r[k] == boxes[k]
    ensures 0 <= index < |boxes| ==> forall k :: index <= k < |r| ==> r[k] == boxes[k + 1]
    ensures !(0 <= index < |boxes|) ==> r == boxes
  {
    if 0 <= index < |boxes| then boxes[..index] + boxes[index + 1..] else boxes
  }

  /** Deleting a box takes exactly that one box out of the list. */
  lemma DeletedRemovesOne(boxes: seq<Annotation>, index: int)
    requires 0 <= index < |boxes|
    ensures multiset(Deleted(boxes, index)) + multiset{boxes[index]} == multiset(boxes)
  {
    assert boxes == boxes[..index] + [boxes[index]] + boxes[index + 1..];
  }

  /** Deleting the box just added gives back the list from before. */
  lemma DeleteUndoesAdd(boxes: seq<Annotation>, a: Annotation)
    ensures Deleted(boxes + [a], |boxes|) == boxes
  {
    assert (boxes + [a])[..|boxes|] == boxes;
  }

  // ---------------------------------------------------------------- the getters

  /** `categories.find(cat => cat.id === id)`: the first category with that id, if any. */
  function FindCategory(categories: seq<Category>, id: int): (r: Option<Category>)
    ensures r.Some? ==> r.value in categories && r.value.id == id
    ensures r.None? <==> forall k :: 0 <= k < |categories| ==> categories[k].id != id
  {
    if |categories| == 0 then None
    else if categories[0].id == id then Some(categories[0])
    else FindCategory(categories[1..], id)
  }

  /** The category found is the first with that id: every category before it has another id. */
  lemma {:induction false} FindCategoryFirst(categories: seq<Category>, id: int)
    requires FindCategory(categories, id).Some?
    ensures exists i :: 0 <= i < |categories| && categories[i] == FindCategory(categories, id).value
                        && forall k :: 0 <= k < i ==> categories[k].id != id
  {
    if categories[0].id != id {
      FindCategoryFirst(categories[1..], id);
      var i :| 0 <= i < |categories[1..]| && categories[1..][i] == FindCategory(categories, id).value
               && forall k :: 0 <= k < i ==> categories[1..][k].id != id;
      assert categories[i + 1] == categories[1..][i];
      forall k | 0 <= k < i + 1 ensures categories[k].id != id {
        if k > 0 { assert categories[k] == categories[1..][k - 1]; }
      }
    } else {
      assert categories[0] == FindCategory(categories, id).value;
    }
  }

  /** `imageList.findIndex(img => img.id === id)`: the first position with that id, or -1. */
  function FindImageIndex(images: seq<Image>, id: string): (r: int)
    ensures -1 <= r < |images|
    ensures r >= 0 ==> images[r].id == id && forall k :: 0 <= k < r ==> images[k].id != id
    ensures r == -1 <==> forall k :: 0 <= k < |images| ==> images[k].id != id
  {
    if |images| == 0 then -1
    else if images[0].id == id then 0
    else
      var rest := FindImageIndex(images[1..], id);
      if rest == -1 then -1 else rest + 1
  }

  /** `getCurrentCategory`: the first category whose id is the selected one, if any. */
  function CurrentCategory(st: StoreState): (r: Option<Category>)
    ensures r.Some? ==> r.value in st.categories && r.value.id == st.selectedCategory
    ensures r.None? <==> forall k :: 0 <= k < |st.categories| ==> st.categories[k].id != st.selectedCategory
  {
    FindCategory(st.categories, st.selectedCategory)
  }

  /** `getCategoryById(id)`: the first category with that id, if any. */
  function CategoryById(st: StoreState, id: int): (r: Option<Category>)
    ensures r.Some? ==> r.value in st.categories && r.value.id == id
    ensures r.None? <==> forall k :: 0 <= k < |st.categories| ==> st.categories[k].id != id
  {
    FindCategory(st.categories, id)
  }

  /** `getCurrentImageIndex`: -1 without a current image, else the first position of an image with its id. */
  function CurrentImageIndex(st: StoreState): (r: int)
    ensures -1 <= r < |st.imageList|
    ensures st.currentImage.None? ==> r == -1
    ensures st.currentImage.Some? && r >= 0 ==> st.imageList[r].id == st.currentImage.value.id
    ensures r >= 0 ==> forall k :: 0 <= k < r ==> st.imageList[k].id != st.imageList[r].id
    ensures st.currentImage.Some? ==>
              (r == -1 <==> forall k :: 0 <= k < |st.imageList| ==> st.imageList[k].id != st.currentImage.value.id)
  {
    if st.currentImage.None? then -1 else FindImageIndex(st.imageList, st.currentImage.value.id)
  }

  /** A current image taken from the list is always found, at the first image with its id. */
  lemma CurrentImageFound(st: StoreState)
    requires st.currentImage.Some? && st.currentImage.value in st.imageList
    ensures 0 <= CurrentImageIndex(st) < |st.imageList|
    ensures forall k :: 0 <= k < CurrentImageIndex(st) ==> st.imageList[k].id != st.currentImage.value.id
  {
    var k :| 0 <= k < |st.imageList| && st.imageList[k] == st.currentImage.value;
    assert st.imageList[k].id == st.currentImage.value.id;
  }

  /** The store as it starts: every default category can be looked up by its id. */
  lemma DefaultCategoriesFound()
    ensures forall id :: 0 <= id < 5 ==> CategoryById(InitialState(), id) == Some(DefaultCategories[id])
    ensures CategoryById(InitialState(), 5).None?
    ensures CurrentCategory(InitialState()) == Some(Category(0, "人", "#ff6b6b"))
  {
    forall id | 0 <= id < 5 ensures CategoryById(InitialState(), id) == Some(DefaultCategories[id]) {
      assert FindCategory(DefaultCategories, id) == Some(DefaultCategories[id]) by {
        var cs := DefaultCategories;
        assert cs[1..][1..][1..][1..][1..] == [];
      }
    }
  }

  function InitialState(): StoreState {
    StoreState(None, [], [], DefaultCategories, 0, 1.0, false, None)
  }

  // ---------------------------------------------------------------- the store

  /** The store object: its state fields, changed only by the mutations below. */
  class Store {
    var currentImage: Option<Image>
    var imageList: seq<Image>
    var currentAnnotations: seq<Annotation>
    var categories: seq<Category>
    var selectedCategory: int
    var canvasScale: real
    var isDrawing: bool
    var selectedAnnotation: Option<Annotation>

    /** The state the getters read. */
    function State(): StoreState
      reads this
    {
      StoreState(currentImage, imageList, currentAnnotations, categories, selectedCategory,
                 canvasScale, isDrawing, selectedAnnotation)
    }

    constructor ()
      ensures State() == InitialState()
    {
      currentImage := None;
      imageList := [];
      currentAnnotations := [];
      categories := DefaultCategories;
      selectedCategory := 0;
      canvasScale := 1.0;
      isDrawing := false;
      selectedAnnotation := None;
    }

    /** `SET_CURRENT_IMAGE`. */
    method SetCurrentImage(image: Option<Image>)
      modifies this
      ensures State() == old(State()).(currentImage := image)
    {
      currentImage := image;
    }

    /** `SET_IMAGE_LIST`. */
    method SetImageList(images: seq<Image>)
      modifies this
      ensures State() == old(State()).(imageList := images)
    {
      imageList := images;
    }

    /** `SET_CURRENT_ANNOTATIONS`. */
    method SetCurrentAnnotations(annotations: seq<Annotation>)
      modifies this
      ensures State() == old(State()).(currentAnnotations := annotations)
    {
      currentAnnotations := annotations;
    }

    /** `ADD_ANNOTATION`: the new box goes last, the others stay where they were. */
    method AddAnnotation(annotation: Annotation)
      modifies this
      ensures State() == old(State()).(currentAnnotations := old(currentAnnotations) + [annotation])
      ensures |currentAnnotations| == |old(currentAnnotations)| + 1
      ensures currentAnnotations[|currentAnnotations| - 1] == annotation
      ensures currentAnnotations[..|old(currentAnnotations)|] == old(currentAnnotations)
    {
      currentAnnotations := currentAnnotations + [annotation];
    }

    /** `UPDATE_ANNOTATION`: only a position inside the list is written. */
    method UpdateAnnotation(index: int, annotation: Annotation)
      modifies this
      ensures State() == old(State()).(currentAnnotations := Updated(old(currentAnnotations), index, annotation))
    {
      if index >= 0 && index < |currentAnnotations| {
        currentAnnotations := currentAnnotations[index := annotation];
      }
    }

    /** `DELETE_ANNOTATION`: only a position inside the list is removed. */
    method DeleteAnnotation(index: int)
      modifies this
      ensures State() == old(State()).(currentAnnotations := Deleted(old(currentAnnotations), index))
    {
      if index >= 0 && index < |currentAnnotations| {
        currentAnnotations := currentAnnotations[..index] + currentAnnotations[index + 1..];
      }
    }

    /** `SET_SELECTED_CATEGORY`. */
    method SetSelectedCategory(categoryId: int)
      modifies this
      ensures State() == old(State()).(selectedCategory := categoryId)
    {
      selectedCategory := categoryId;
    }

    /** `SET_CANVAS_SCALE`. */
    method SetCanvasScale(scale: real)
      modifies this
      ensures State() == old(State()).(canvasScale := scale)
    {
      canvasScale := scale;
    }

    /** `SET_IS_DRAWING`. */
    method SetIsDrawing(drawing: bool)
      modifies this
      ensures State() == old(State()).(isDrawing := drawing)
    {
      isDrawing := drawing;
    }

    /** `SET_SELECTED_ANNOTATION`. */
    method SetSelectedAnnotation(annotation: Option<Annotation>)
      modifies this
      ensures State() == old(State()).(selectedAnnotation := annotation)
    {
      selectedAnnotation := annotation;
    }

    /** `UPDATE_CATEGORIES`. */
    method UpdateCategories(newCategories: seq<Category>)
      modifies this
      ensures State() == old(State()).(categories := newCategories)
    {
      categories := newCategories;
    }
  }
}
