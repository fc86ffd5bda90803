/**
 * The file assembly of `exportBatchYOLO` and the `generateYOLOConfig` template of
 * `src/utils/yolo.js`. The batch export collects the distinct category ids of all boxes,
 * sorts them the way the default `Array.prototype.sort` does (as text), writes them as
 * `class_<id>` lines to `classes.txt`, and then writes one label file per image, empty or not.
 */
module YoloBatch {
  import opened Wrappers
  import opened Text
  import opened JsNumber
  import opened Annotations
  import opened YoloCodec
  import opened ZipStore

  /** One element of the batch: an image's file name, its boxes and its pixel size (which the export does not use). */
  datatype ImageData = ImageData(name: string, annotations: seq<Annotation>, width: real, height: real)

  // ---------------------------------------------------------------- category ids

  function CategoryIds(anns: seq<Annotation>): seq<int> {
    if |anns| == 0 then [] else CategoryIds(anns[..|anns| - 1]) + [anns[|anns| - 1].categoryId]
  }

  /** The category id of every box of every image, in the order the export visits them. */
  function AllIds(list: seq<ImageData>): seq<int> {
    if |list| == 0 then [] else AllIds(list[..|list| - 1]) + CategoryIds(list[|list| - 1].annotations)
  }

  /** What a `Set` filled with `xs` holds, in insertion order: each value once, where it first occurs. */
  function Distinct(xs: seq<int>): (r: seq<int>)
    ensures forall x :: x in r <==> x in xs
    ensures forall i, j :: 0 <= i < j < |r| ==> r[i] != r[j]
  {
    if |xs| == 0 then []
    else
      var init, x := xs[..|xs| - 1], xs[|xs| - 1];
      if x in init then Distinct(init) else Distinct(init) + [x]
  }

  lemma DistinctStep(xs: seq<int>, x: int)
    ensures Distinct(xs + [x]) == if x in xs then Distinct(xs) else Distinct(xs) + [x]
  {
    assert (xs + [x])[..|xs|] == xs;
  }

  /** The `forEach` over images and boxes that adds every category id to the `Set`. */
  method CollectCategoryIds(list: seq<ImageData>) returns (seen: seq<int>)
    ensures seen == Distinct(AllIds(list))
  {
    seen := [];
    var i := 0;
    while i < |list|
      invariant i <= |list|
      invariant seen == Distinct(AllIds(list[..i]))
    {
      var anns := list[i].annotations;
      ghost var done := AllIds(list[..i]);
      var j := 0;
      assert done + CategoryIds(anns[..0]) == done;
      while j < |anns|
        invariant j <= |anns|
        invariant seen == Distinct(done + CategoryIds(anns[..j]))
      {
        var id := anns[j].categoryId;
        assert anns[..j + 1][..j] == anns[..j];
        assert done + CategoryIds(anns[..j + 1]) == (done + CategoryIds(anns[..j])) + [id];
        DistinctStep(done + CategoryIds(anns[..j]), id);
        if id !in seen {
          seen := seen + [id];
        }
        j := j + 1;
      }
      assert anns[..j] == anns;
      assert list[..i + 1][..i] == list[..i];
      i := i + 1;
    }
    assert list[..i] == list;
  }

  lemma {:induction false} CategoryIdsMember(anns: seq<Annotation>, id: int)
    ensures id in CategoryIds(anns) <==> exists j :: 0 <= j < |anns| && anns[j].categoryId == id
  {
    if |anns| > 0 {
      var init := anns[..|anns| - 1];
      CategoryIdsMember(init, id);
      if j :| 0 <= j < |anns| && anns[j].categoryId == id {
        if j < |init| {
          assert init[j] == anns[j];
        }
      }
    }
  }

  /** An id is collected exactly when some box of some image has it. */
  lemma {:induction false} AllIdsMember(list: seq<ImageData>, id: int)
    ensures id in AllIds(list) <==>
              exists i, j :: 0 <= i < |list| && 0 <= j < |list[i].annotations| && list[i].annotations[j].categoryId == id
  {
    if |list| > 0 {
      var init, last := list[..|list| - 1], list[|list| - 1];
      AllIdsMember(init, id);
      CategoryIdsMember(last.annotations, id);
      if i, j :| 0 <= i < |list| && 0 <= j < |list[i].annotations| && list[i].annotations[j].categoryId == id {
        if i < |init| {
          assert init[i] == list[i];
        }
      }
      if exists i, j :: 0 <= i < |init| && 0 <= j < |init[i].annotations| && init[i].annotations[j].categoryId == id {
        var i, j :| 0 <= i < |init| && 0 <= j < |init[i].annotations| && init[i].annotations[j].categoryId == id;
        assert list[i] == init[i];
      }
    }
  }

  // ---------------------------------------------------------------- the default sort

  /**
   * `Array.prototype.sort()` without a comparator compares the texts of the values, so the ids
   * are sorted as their texts; `classes.txt` uses nothing of an id but its text.
   */
  function Texts(ids: seq<int>): seq<string> {
    seq(|ids|, i requires 0 <= i < |ids| => IntToString(ids[i]))
  }

  predicate Sorted(s: seq<string>) {
    forall i, j :: 0 <= i < j < |s| ==> StrLe(s[i], s[j])
  }

  function Insert(x: string, sorted: seq<string>): (r: seq<string>)
    ensures multiset(r) == multiset(sorted) + multiset{x}
  {
    if |sorted| == 0 then [x]
    else if StrLe(x, sorted[0]) then [x] + sorted
    else
      assert sorted == [sorted[0]] + sorted[1..];
      [sorted[0]] + Insert(x, sorted[1..])
  }

  function SortTexts(ts: seq<string>): seq<string> {
    if |ts| == 0 then [] else Insert(ts[0], SortTexts(ts[1..]))
  }

  lemma {:induction false} InsertSorted(x: string, sorted: seq<string>)
    requires Sorted(sorted)
    ensures Sorted(Insert(x, sorted))
  {
    if |sorted| > 0 {
      if StrLe(x, sorted[0]) {
        SortedFront(x, sorted);
      } else {
        InsertSorted(x, sorted[1..]);
        StrLeTotal(x, sorted[0]);
        SortedBehind(sorted[0], sorted[1..], x);
      }
    }
  }

  /** A text no later than the first of a sorted run can go in front of it. */
  lemma SortedFront(x: string, sorted: seq<string>)
    requires Sorted(sorted) && |sorted| > 0 && StrLe(x, sorted[0])
    ensures Sorted([x] + sorted)
  {
    forall j | 1 <= j < |sorted| ensures StrLe(x, sorted[j]) {
      StrLeTrans(x, sorted[0], sorted[j]);
    }
  }

  /** Every text of the result sorts after `head` when `x` and every text of `s` do. */
  lemma {:induction false} InsertAfter(head: string, x: string, s: seq<string>)
    requires forall k :: 0 <= k < |s| ==> StrLe(head, s[k])
    requires StrLe(head, x)
    ensures forall k :: 0 <= k < |Insert(x, s)| ==> StrLe(head, Insert(x, s)[k])
  {
    if |s| > 0 && !StrLe(x, s[0]) {
      InsertAfter(head, x, s[1..]);
    }
  }

  /** The first of a sorted run stays in front when `x`, which sorts after it, is inserted behind it. */
  lemma SortedBehind(head: string, tail: seq<string>, x: string)
    requires Sorted([head] + tail) && Sorted(Insert(x, tail)) && StrLe(head, x)
    ensures Sorted([head] + Insert(x, tail))
  {
    assert forall k :: 0 <= k < |tail| ==> StrLe(head, tail[k]) by {
      var s := [head] + tail;
      forall k | 0 <= k < |tail| ensures StrLe(head, tail[k]) {
        assert s[0] == head && s[k + 1] == tail[k];
      }
    }
    InsertAfter(head, x, tail);
  }

  /** The sort orders by text and neither loses nor invents a value. */
  lemma {:induction false} SortTextsSpec(ts: seq<string>)
    ensures Sorted(SortTexts(ts))
    ensures multiset(SortTexts(ts)) == multiset(ts)
  {
    if |ts| > 0 {
      SortTextsSpec(ts[1..]);
      InsertSorted(ts[0], SortTexts(ts[1..]));
      assert ts == [ts[0]] + ts[1..];
    }
  }

  /** Text order is not numeric order: `10` is sorted before `2`. */
  lemma TenBeforeTwo()
    ensures SortTexts(Texts([2, 10])) == ["10", "2"]
  {
    assert IntToString(10) == "10";
    assert IntToString(2) == "2";
    assert Texts([2, 10]) == ["2", "10"];
  }

  // ---------------------------------------------------------------- classes.txt

  /** The ids `classes.txt` lists, as text, in the order it lists them. */
  function ClassTexts(list: seq<ImageData>): seq<string> {
    SortTexts(Texts(Distinct(AllIds(list))))
  }

  function ClassNames(texts: seq<string>): seq<string> {
    seq(|texts|, i requires 0 <= i < |texts| => "class_" + texts[i])
  }

  function ClassesText(list: seq<ImageData>): string {
    Join(ClassNames(ClassTexts(list)), "\n")
  }

  /**
   * The listed ids are the distinct ids of all boxes, each once, in text order: a permutation
   * of the texts of the distinct ids, sorted.
   */
  lemma ClassTextsSpec(list: seq<ImageData>)
    ensures Sorted(ClassTexts(list))
    ensures multiset(ClassTexts(list)) == multiset(Texts(Distinct(AllIds(list))))
    ensures forall t :: t in ClassTexts(list) <==> exists id :: id in AllIds(list) && IntToString(id) == t
  {
    var distinct := Distinct(AllIds(list));
    var texts := Texts(distinct);
    SortTextsSpec(texts);
    forall t ensures t in ClassTexts(list) <==> t in texts {
      assert t in ClassTexts(list) <==> t in multiset(ClassTexts(list));
      assert t in texts <==> t in multiset(texts);
    }
    forall t | t in texts ensures exists id :: id in AllIds(list) && IntToString(id) == t {
      var k :| 0 <= k < |texts| && texts[k] == t;
      assert distinct[k] in AllIds(list);
    }
    forall id | id in AllIds(list) ensures IntToString(id) in texts {
      var k :| 0 <= k < |distinct| && distinct[k] == id;
      assert texts[k] == IntToString(id);
    }
  }

  /** A listed id is the text of an integer, so it has no line break. */
  lemma ClassTextNoBreak(list: seq<ImageData>, k: nat)
    requires k < |ClassTexts(list)|
    ensures '\n' !in ClassTexts(list)[k]
  {
    var t := ClassTexts(list)[k];
    ClassTextsSpec(list);
    assert t in ClassTexts(list);
    var id :| id in AllIds(list) && IntToString(id) == t;
    IntToStringToken(id);
    assert IsSpace('\n');
  }

  /** `classes.txt` is empty when no image has a box, and otherwise one `class_<id>` line per listed id. */
  lemma ClassesTextLines(list: seq<ImageData>)
    ensures |ClassTexts(list)| == 0 ==> ClassesText(list) == ""
    ensures |ClassTexts(list)| > 0 ==> Split(ClassesText(list), '\n') == ClassNames(ClassTexts(list))
  {
    var texts := ClassTexts(list);
    var names := ClassNames(texts);
    forall k | 0 <= k < |names| ensures '\n' !in names[k] {
      ClassTextNoBreak(list, k);
      assert names[k] == "class_" + texts[k];
    }
    if |names| > 0 {
      SplitJoin(names, '\n');
    }
  }

  // ---------------------------------------------------------------- the file table

  /** The label file of one image: its name with the extension replaced by `.txt`, and `convertToYOLO` of its boxes. */
  function LabelEntry(d: ImageData, nt: NumberText): Entry {
    Entry(ReplaceExtension(d.name), ConvertToYolo(d.annotations, nt))
  }

  /** The label files of the images, one per image, in list order. */
  function LabelEntries(list: seq<ImageData>, nt: NumberText): (r: seq<Entry>)
    ensures |r| == |list|
  {
    seq(|list|, i requires 0 <= i < |list| => LabelEntry(list[i], nt))
  }

  /** The writes of the export, in order: `classes.txt`, then every image. */
  function BatchWrites(list: seq<ImageData>, nt: NumberText): seq<Entry> {
    [Entry("classes.txt", ClassesText(list))] + LabelEntries(list, nt)
  }

  /** The loop over the images: writes each image's label file, after the writes `done` already made. */
  method WriteLabelFiles(zip: Zip, list: seq<ImageData>, nt: NumberText, ghost done: seq<Entry>)
    requires zip.Valid() && zip.files == Written(done) && zip.names == FirstNames(done)
    modifies zip
    ensures zip.Valid()
    ensures zip.files == Written(done + LabelEntries(list, nt))
    ensures zip.names == FirstNames(done + LabelEntries(list, nt))
  {
    ghost var entries := LabelEntries(list, nt);
    var i := 0;
    assert done + entries[..0] == done;
    while i < |list|
      invariant i <= |list|
      invariant zip.Valid()
      invariant zip.files == Written(done + entries[..i]) && zip.names == FirstNames(done + entries[..i])
    {
      var d := list[i];
      var content := ConvertToYolo(d.annotations, nt);
      var fileName := ReplaceExtension(d.name);
      BatchWrite(list, nt, i);
      WrittenKeys(done + entries[..i]);
      zip.File(fileName, content);
      WritePrefixStep(done, entries, i);
      i := i + 1;
    }
    assert entries[..i] == entries;
  }

  /** `exportBatchYOLO` up to the download: the zip it fills. */
  method ExportBatch(list: seq<ImageData>, nt: NumberText) returns (zip: Zip)
    ensures fresh(zip) && zip.Valid()
    ensures zip.files == Written(BatchWrites(list, nt))
    ensures zip.names == FirstNames(BatchWrites(list, nt))
  {
    zip := new Zip();
    var ids := CollectCategoryIds(list);
    var classNames := ClassNames(SortTexts(Texts(ids)));
    var classesContent := Join(classNames, "\n");
    zip.File("classes.txt", classesContent);
    ghost var first := [Entry("classes.txt", classesContent)];
    WriteStep([], first[0]);
    assert [] + [first[0]] == first;
    WriteLabelFiles(zip, list, nt, first);
  }

  /** The zip holds `classes.txt` and one file per image name, and nothing else. */
  lemma BatchNames(list: seq<ImageData>, nt: NumberText, n: string)
    ensures n in Written(BatchWrites(list, nt)) <==>
              n == "classes.txt" || exists i :: 0 <= i < |list| && ReplaceExtension(list[i].name) == n
  {
    var writes := BatchWrites(list, nt);
    WrittenNames(writes, n);
    if exists k :: 0 <= k < |writes| && writes[k].name == n {
      var k :| 0 <= k < |writes| && writes[k].name == n;
      if k > 0 {
        BatchWrite(list, nt, k - 1);
      }
    }
    if exists i :: 0 <= i < |list| && ReplaceExtension(list[i].name) == n {
      var i :| 0 <= i < |list| && ReplaceExtension(list[i].name) == n;
      BatchWrite(list, nt, i);
    }
    if n == "classes.txt" {
      assert writes[0].name == n;
    }
  }

  /**
   * Every image gets its label file, an image without boxes an empty one; only a later image
   * with the same file name replaces it.
   */
  lemma BatchLabel(list: seq<ImageData>, nt: NumberText, i: nat)
    requires i < |list|
    requires forall k :: i < k < |list| ==> ReplaceExtension(list[k].name) != ReplaceExtension(list[i].name)
    ensures ReplaceExtension(list[i].name) in Written(BatchWrites(list, nt))
    ensures Written(BatchWrites(list, nt))[ReplaceExtension(list[i].name)] == ConvertToYolo(list[i].annotations, nt)
  {
    var writes := BatchWrites(list, nt);
    forall k | i + 1 < k < |writes| ensures writes[k].name != writes[i + 1].name {
      BatchWrite(list, nt, k - 1);
      BatchWrite(list, nt, i);
    }
    LastWriteWins(writes, i + 1);
    BatchWrite(list, nt, i);
  }

  /** The write for image `i` comes right after `classes.txt` and the images before it. */
  lemma BatchWrite(list: seq<ImageData>, nt: NumberText, i: nat)
    requires i < |list|
    ensures |BatchWrites(list, nt)| == |list| + 1
    ensures BatchWrites(list, nt)[i + 1] == LabelEntries(list, nt)[i] == LabelEntry(list[i], nt)
  {
  }

  /** An image without boxes gets an empty label file. */
  lemma EmptyImageLabel(list: seq<ImageData>, nt: NumberText, i: nat)
    requires i < |list| && list[i].annotations == []
    requires forall k :: i < k < |list| ==> ReplaceExtension(list[k].name) != ReplaceExtension(list[i].name)
    ensures ReplaceExtension(list[i].name) in Written(BatchWrites(list, nt))
    ensures Written(BatchWrites(list, nt))[ReplaceExtension(list[i].name)] == ""
  {
    BatchLabel(list, nt, i);
  }

  /** `classes.txt` keeps the class list unless an image's label file has that very name. */
  lemma BatchClasses(list: seq<ImageData>, nt: NumberText)
    requires forall k :: 0 <= k < |list| ==> ReplaceExtension(list[k].name) != "classes.txt"
    ensures "classes.txt" in Written(BatchWrites(list, nt))
    ensures Written(BatchWrites(list, nt))["classes.txt"] == ClassesText(list)
  {
    var writes := BatchWrites(list, nt);
    forall k | 0 < k < |writes| ensures writes[k].name != writes[0].name {
      BatchWrite(list, nt, k - 1);
    }
    LastWriteWins(writes, 0);
  }

  /** An image called `classes.png` without boxes empties `classes.txt`. */
  lemma ClassesOverwritten(nt: NumberText)
    ensures "classes.txt" in Written(BatchWrites([ImageData("classes.png", [], 1.0, 1.0)], nt))
    ensures Written(BatchWrites([ImageData("classes.png", [], 1.0, 1.0)], nt))["classes.txt"] == ""
  {
    var s := "classes.png";
    assert ExtensionFrom(s, 10) == ExtensionFrom(s, 9) == ExtensionFrom(s, 8) == Some(7);
    assert ReplaceExtension(s) == "classes.txt";
    EmptyImageLabel([ImageData(s, [], 1.0, 1.0)], nt, 0);
  }

  // ---------------------------------------------------------------- data set configuration

  /** The options of `generateYOLOConfig`; a missing one takes its default. `modelName` is read but never used. */
  datatype ConfigOptions = ConfigOptions(
    trainPath: Option<string>,
    validPath: Option<string>,
    testPath: Option<string>,
    modelName: Option<string>)

  function OrDefault(o: Option<string>, default: string): string {
    if o.Some? then o.value else default
  }

  function QuotedNames(categories: seq<Category>): seq<string> {
    seq(|categories|, i requires 0 <= i < |categories| => "'" + categories[i].name + "'")
  }

  /**
   * The lines of the `generateYOLOConfig` template: a comment line before each of the three
   * paths (or their defaults), the class count and the quoted names in list order; the
   * template ends with a line break, hence the last, empty line.
   */
  function ConfigLines(categories: seq<Category>, options: ConfigOptions): seq<string> {
    ["# YOLO配置文件",
     "# 训练集路径", "train: " + OrDefault(options.trainPath, "./train"),
     "# 验证集路径", "val: " + OrDefault(options.validPath, "./valid"),
     "# 测试集路径", "test: " + OrDefault(options.testPath, "./test"),
     "# 类别数量", "nc: " + IntToString(|categories|),
     "# 类别名称", "names: [" + Join(QuotedNames(categories), ", ") + "]",
     ""]
  }

  /** `generateYOLOConfig(categories, options)`. */
  function YoloConfig(categories: seq<Category>, options: ConfigOptions): string {
    Join(ConfigLines(categories, options), "\n")
  }

  /** When no path and no name holds a line break, the configuration splits back into exactly its lines. */
  lemma ConfigSplits(categories: seq<Category>, options: ConfigOptions)
    requires forall k :: 0 <= k < |categories| ==> '\n' !in categories[k].name
    requires '\n' !in OrDefault(options.trainPath, "./train")
    requires '\n' !in OrDefault(options.validPath, "./valid")
    requires '\n' !in OrDefault(options.testPath, "./test")
    ensures Split(YoloConfig(categories, options), '\n') == ConfigLines(categories, options)
  {
    var quoted := QuotedNames(categories);
    IntToStringToken(|categories|);
    forall k | 0 <= k < |quoted| ensures '\n' !in quoted[k] {
      assert quoted[k] == "'" + categories[k].name + "'";
    }
    JoinNoChar(quoted, ", ", '\n');
    SplitJoin(ConfigLines(categories, options), '\n');
  }

  /** With every option missing, the defaults are used; two classes give `nc: 2` and their quoted names. */
  lemma ConfigExample()
    ensures ConfigLines([Category(0, "cat", "#ff6b6b"), Category(1, "dog", "#4ecdc4")], ConfigOptions(None, None, None, None))
         == ["# YOLO配置文件", "# 训练集路径", "train: ./train", "# 验证集路径", "val: ./valid", "# 测试集路径", "test: ./test",
             "# 类别数量", "nc: 2", "# 类别名称", "names: ['cat', 'dog']", ""]
  {
    var cats := [Category(0, "cat", "#ff6b6b"), Category(1, "dog", "#4ecdc4")];
    var quoted := QuotedNames(cats);
    assert quoted[0] == "'" + "cat" + "'" == "'cat'";
    assert quoted[1] == "'" + "dog" + "'" == "'dog'";
    assert quoted == ["'cat'", "'dog'"];
    assert Join(["'cat'", "'dog'"], ", ") == "'cat', 'dog'";
    assert IntToString(2) == "2";
    assert "train: " + "./train" == "train: ./train";
    assert "val: " + "./valid" == "val: ./valid";
    assert "test: " + "./test" == "test: ./test";
    assert "nc: " + "2" == "nc: 2";
    assert "names: [" + "'cat', 'dog'" + "]" == "names: ['cat', 'dog']";
  }
}
