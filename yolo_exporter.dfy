/**
 * The export of `yolo-annotation-tool/src/utils/yoloExporter.js`: `exportToYOLO` fills the
 * small zip with `classes.txt`, one `labels/<name>.txt` per image that has boxes, and a
 * `README.txt` describing the format, the class indices and the counts. The boxes of this tool
 * are already in YOLO's centre form and are written as they are.
 */
module YoloExporter {
  import opened Wrappers
  import opened Text
  import opened JsNumber
  import opened LabelTool
  import opened ZipStore

  /** The part of the annotation store the export reads. */
  datatype ExportState = ExportState(images: seq<ToolImage>, annotations: map<string, seq<LabelBox>>, classes: seq<ToolClass>)

  // ---------------------------------------------------------------- label text

  /** The five fields of a box's line: the class as an integer, the rest through `toFixed(6)`. */
  function BoxTokens(b: LabelBox, nt: NumberText): seq<string> {
    [IntToString(b.cls), nt.fixed(b.xCenter), nt.fixed(b.yCenter), nt.fixed(b.width), nt.fixed(b.height)]
  }

  function BoxLine(b: LabelBox, nt: NumberText): string {
    Join(BoxTokens(b, nt), " ")
  }

  function BoxLines(boxes: seq<LabelBox>, nt: NumberText): seq<string> {
    seq(|boxes|, i requires 0 <= i < |boxes| => BoxLine(boxes[i], nt))
  }

  /** A label file's text: one line per box, in order, joined by line breaks. */
  function LabelText(boxes: seq<LabelBox>, nt: NumberText): string {
    Join(BoxLines(boxes, nt), "\n")
  }

  /** Each line holds exactly the box's five fields, and the text splits back into those lines. */
  lemma LabelTextLines(boxes: seq<LabelBox>, nt: NumberText)
    requires Readable(nt) && |boxes| > 0
    ensures Split(LabelText(boxes, nt), '\n') == BoxLines(boxes, nt)
    ensures forall i :: 0 <= i < |boxes| ==> SplitBlanks(BoxLines(boxes, nt)[i]) == BoxTokens(boxes[i], nt)
  {
    var lines := BoxLines(boxes, nt);
    forall i | 0 <= i < |boxes| ensures '\n' !in lines[i] && SplitBlanks(lines[i]) == BoxTokens(boxes[i], nt) {
      BoxLineShape(boxes[i], nt);
    }
    SplitJoin(lines, '\n');
  }

  lemma BoxLineShape(b: LabelBox, nt: NumberText)
    requires Readable(nt)
    ensures '\n' !in BoxLine(b, nt)
    ensures SplitBlanks(BoxLine(b, nt)) == BoxTokens(b, nt)
  {
    var tokens := BoxTokens(b, nt);
    IntToStringToken(b.cls);
    assert forall k :: 0 <= k < |tokens| ==> IsToken(tokens[k]);
    JoinTokensNoChar(tokens, '\n');
    SplitBlanksJoin(tokens);
  }

  /** The number text reads back the five numbers written for `b` exactly. */
  ghost predicate BoxReadsBack(b: LabelBox, nt: NumberText) {
    ExactInt(nt, b.cls) && ExactAt(nt, b.xCenter) && ExactAt(nt, b.yCenter) && ExactAt(nt, b.width) && ExactAt(nt, b.height)
  }

  /** For every box there is a readable number text that reads it back. */
  lemma BoxReadsBackPossible(b: LabelBox)
    ensures exists nt :: Readable(nt) && BoxReadsBack(b, nt)
  {
    var fixed := (r: real) => if r == b.xCenter then "a" else if r == b.yCenter then "b" else if r == b.width then "c" else "d";
    var parse := (t: string) =>
      if t == IntToString(b.cls) then Fin(b.cls as real)
      else if t == "a" then Fin(b.xCenter) else if t == "b" then Fin(b.yCenter) else if t == "c" then Fin(b.width) else Fin(b.height);
    var nt := NumberText(fixed, parse);
    IntToStringToken(b.cls);
    assert Readable(nt) by {
      forall r: real ensures IsToken(nt.fixed(r)) {
        assert |fixed(r)| == 1 && fixed(r)[0] in "abcd";
      }
    }
    assert BoxReadsBack(b, nt);
  }

  /** Reading a label file back gives a box's class and centre form as stored, when the number text reads that box back. */
  lemma LabelTextRoundTrip(boxes: seq<LabelBox>, nt: NumberText, i: nat)
    requires Readable(nt) && i < |boxes| && BoxReadsBack(boxes[i], nt)
    ensures Split(LabelText(boxes, nt), '\n') == BoxLines(boxes, nt)
    ensures var tokens := SplitBlanks(Split(LabelText(boxes, nt), '\n')[i]);
      && |tokens| == 5
      && nt.parse(tokens[0]) == Fin(boxes[i].cls as real)
      && nt.parse(tokens[1]) == Fin(boxes[i].xCenter) && nt.parse(tokens[2]) == Fin(boxes[i].yCenter)
      && nt.parse(tokens[3]) == Fin(boxes[i].width) && nt.parse(tokens[4]) == Fin(boxes[i].height)
  {
    LabelTextLines(boxes, nt);
  }

  // ---------------------------------------------------------------- the files

  /** `annotations[image.id] || []`: a missing list counts as empty. */
  function BoxesOf(annotations: map<string, seq<LabelBox>>, id: string): seq<LabelBox> {
    if id in annotations then annotations[id] else []
  }

  function LabelName(image: ToolImage): string {
    "labels/" + ReplaceExtension(image.name)
  }

  function MappingLines(classes: seq<ToolClass>): seq<string> {
    seq(|classes|, i requires 0 <= i < |classes| => IntToString(i) + ": " + classes[i].name)
  }

  function ClassNameLines(classes: seq<ToolClass>): seq<string> {
    seq(|classes|, i requires 0 <= i < |classes| => classes[i].name)
  }

  /** `classes.txt`: the class names in list order, one per line. */
  function ClassesContent(classes: seq<ToolClass>): string {
    Join(ClassNameLines(classes), "\n")
  }

  /** The README's class table: the position in the list, not the class id, then the name. */
  function ClassMapping(classes: seq<ToolClass>): string {
    Join(MappingLines(classes), "\n")
  }

  const ReadmeHead: string :=
    "YOLO 标注数据格式说明\n"
    + "===================\n"
    + "\n"
    + "目录结构：\n"
    + "- classes.txt: 类别列表文件，每行一个类别名称\n"
    + "- labels/: 标注文件目录，每个图片对应一个同名的 .txt 文件\n"
    + "\n"
    + "标注格式：\n"
    + "每个标注文件中，每行代表一个目标框，格式为：\n"
    + "<class_id> <x_center> <y_center> <width> <height>\n"
    + "\n"
    + "其中：\n"
    + "- class_id: 类别索引（从0开始）\n"
    + "- x_center, y_center: 目标框中心点的相对坐标（0-1）\n"
    + "- width, height: 目标框的相对宽度和高度（0-1）\n"
    + "\n"
    + "类别对应关系：\n"

  /** `README.txt`, given the time stamp text, the number of images and the number of boxes. */
  function ReadmeText(classes: seq<ToolClass>, timestamp: string, imageCount: nat, boxCount: nat): string {
    ReadmeHead + ClassMapping(classes)
    + "\n\n生成时间：" + timestamp
    + "\n图片数量：" + IntToString(imageCount)
    + "\n标注框总数：" + IntToString(boxCount) + "\n"
  }

  /** The boxes of the lists under `keys`, counted in whatever order the keys are taken. */
  ghost function TotalOver(m: map<string, seq<LabelBox>>, keys: set<string>): nat
    requires keys <= m.Keys
  {
    if keys == {} then 0
    else
      var k :| k in keys;
      |m[k]| + TotalOver(m, keys - {k})
  }

  /** `Object.values(annotations).flat().length`: the boxes of every list in the table, whether or not its image is listed. */
  ghost function BoxTotal(m: map<string, seq<LabelBox>>): nat {
    TotalOver(m, m.Keys)
  }

  /** The total does not depend on which list is counted first. */
  lemma {:induction false} TotalOverRemove(m: map<string, seq<LabelBox>>, keys: set<string>, k: string)
    requires keys <= m.Keys && k in keys
    ensures TotalOver(m, keys) == |m[k]| + TotalOver(m, keys - {k})
  {
    var j :| j in keys && TotalOver(m, keys) == |m[j]| + TotalOver(m, keys - {j});
    if j != k {
      TotalOverRemove(m, keys - {j}, k);
      TotalOverRemove(m, keys - {k}, j);
      assert keys - {j} - {k} == keys - {k} - {j};
    }
  }

  /** `Object.values(annotations).flat().length`, list by list. */
  method CountBoxes(m: map<string, seq<LabelBox>>) returns (total: nat)
    ensures total == BoxTotal(m)
  {
    total := 0;
    var rest := m.Keys;
    while rest != {}
      invariant rest <= m.Keys
      invariant total + TotalOver(m, rest) == BoxTotal(m)
      decreases rest
    {
      var k :| k in rest;
      TotalOverRemove(m, rest, k);
      total := total + |m[k]|;
      rest := rest - {k};
    }
  }

  /** What the images loop writes for one image: its label file if it has boxes, nothing otherwise. */
  function LabelWrite(image: ToolImage, annotations: map<string, seq<LabelBox>>, nt: NumberText): seq<Entry> {
    var boxes := BoxesOf(annotations, image.id);
    if |boxes| > 0 then [Entry(LabelName(image), LabelText(boxes, nt))] else []
  }

  /** The label writes of the images loop, in image order. */
  function LabelWrites(images: seq<ToolImage>, annotations: map<string, seq<LabelBox>>, nt: NumberText): seq<Entry> {
    if |images| == 0 then []
    else LabelWrites(images[..|images| - 1], annotations, nt) + LabelWrite(images[|images| - 1], annotations, nt)
  }

  /** Every write `exportToYOLO` makes, in order: `classes.txt`, the label files, `README.txt`. */
  ghost function ExportWrites(state: ExportState, timestamp: string, nt: NumberText): seq<Entry> {
    [Entry("classes.txt", ClassesContent(state.classes))]
    + LabelWrites(state.images, state.annotations, nt)
    + [Entry("README.txt", ReadmeText(state.classes, timestamp, |state.images|, BoxTotal(state.annotations)))]
  }

  /** The `images.forEach` loop: writes each image's label file, after the writes `done` already made. */
  method WriteLabels(zip: Zip, images: seq<ToolImage>, annotations: map<string, seq<LabelBox>>, nt: NumberText, ghost done: seq<Entry>)
    requires zip.Valid() && zip.files == Written(done) && zip.names == FirstNames(done)
    modifies zip
    ensures zip.Valid()
    ensures zip.files == Written(done + LabelWrites(images, annotations, nt))
    ensures zip.names == FirstNames(done + LabelWrites(images, annotations, nt))
  {
    var i := 0;
    assert done + LabelWrites(images[..0], annotations, nt) == done;
    while i < |images|
      invariant i <= |images|
      invariant zip.Valid()
      invariant zip.files == Written(done + LabelWrites(images[..i], annotations, nt))
      invariant zip.names == FirstNames(done + LabelWrites(images[..i], annotations, nt))
    {
      var image := images[i];
      var imageAnnotations := BoxesOf(annotations, image.id);
      ghost var before := done + LabelWrites(images[..i], annotations, nt);
      assert images[..i + 1][..i] == images[..i];
      assert done + LabelWrites(images[..i + 1], annotations, nt) == before + LabelWrite(image, annotations, nt);
      if |imageAnnotations| > 0 {
        var annotationContent := LabelText(imageAnnotations, nt);
        var txtFileName := ReplaceExtension(image.name);
        WrittenKeys(before);
        zip.File("labels/" + txtFileName, annotationContent);
        WriteStep(before, Entry(LabelName(image), annotationContent));
      } else {
        assert before + LabelWrite(image, annotations, nt) == before;
      }
      i := i + 1;
    }
    assert images[..i] == images;
  }

  /** `exportToYOLO` up to the download: the zip it fills. The time stamp text is a parameter. */
  method ExportToYolo(state: ExportState, timestamp: string, nt: NumberText) returns (zip: Zip)
    ensures fresh(zip) && zip.Valid()
    ensures zip.files == Written(ExportWrites(state, timestamp, nt))
    ensures zip.names == FirstNames(ExportWrites(state, timestamp, nt))
  {
    zip := new Zip();
    var classesContent := ClassesContent(state.classes);
    ghost var first := [Entry("classes.txt", classesContent)];
    zip.File("classes.txt", classesContent);
    WriteStep([], first[0]);
    assert [] + [first[0]] == first;
    WriteLabels(zip, state.images, state.annotations, nt, first);
    var total := CountBoxes(state.annotations);
    var readmeContent := ReadmeText(state.classes, timestamp, |state.images|, total);
    ghost var labels := first + LabelWrites(state.images, state.annotations, nt);
    WrittenKeys(labels);
    zip.File("README.txt", readmeContent);
    WriteStep(labels, Entry("README.txt", readmeContent));
  }

  // ---------------------------------------------------------------- properties

  /** Each label write is the label file of an image that has boxes. */
  lemma {:induction false} LabelWriteSource(images: seq<ToolImage>, annotations: map<string, seq<LabelBox>>, nt: NumberText, k: nat)
    requires k < |LabelWrites(images, annotations, nt)|
    ensures exists i :: 0 <= i < |images| && LabelName(images[i]) == LabelWrites(images, annotations, nt)[k].name
                                         && BoxesOf(annotations, images[i].id) != []
  {
    var init, image := images[..|images| - 1], images[|images| - 1];
    var before := LabelWrites(init, annotations, nt);
    var writes := LabelWrites(images, annotations, nt);
    assert writes == before + LabelWrite(image, annotations, nt);
    if k < |before| {
      assert before[k] == writes[k];
      LabelWriteSource(init, annotations, nt, k);
      var i :| 0 <= i < |init| && LabelName(init[i]) == before[k].name && BoxesOf(annotations, init[i].id) != [];
      assert images[i] == init[i];
    } else {
      assert LabelName(images[|images| - 1]) == writes[k].name;
    }
  }

  /** Each image that has boxes gets a label write. */
  lemma {:induction false} LabelWriteOf(images: seq<ToolImage>, annotations: map<string, seq<LabelBox>>, nt: NumberText, i: nat)
    requires i < |images| && BoxesOf(annotations, images[i].id) != []
    ensures exists k :: 0 <= k < |LabelWrites(images, annotations, nt)| && LabelWrites(images, annotations, nt)[k].name == LabelName(images[i])
  {
    var init, image := images[..|images| - 1], images[|images| - 1];
    var before := LabelWrites(init, annotations, nt);
    var writes := LabelWrites(images, annotations, nt);
    assert writes == before + LabelWrite(image, annotations, nt);
    if i < |init| {
      assert init[i] == images[i];
      LabelWriteOf(init, annotations, nt, i);
      var k :| 0 <= k < |before| && before[k].name == LabelName(init[i]);
      assert writes[k] == before[k];
    } else {
      assert writes[|before|].name == LabelName(image);
    }
  }

  /** The names a run framed by a first and a last write leaves in the table. */
  lemma {:induction false} FramedNames(first: Entry, middle: seq<Entry>, last: Entry, n: string)
    ensures n in Written([first] + middle + [last]) <==>
              n == first.name || n == last.name || exists k :: 0 <= k < |middle| && middle[k].name == n
  {
    var writes := [first] + middle + [last];
    WrittenNames(writes, n);
    if n in Written(writes) {
      var k :| 0 <= k < |writes| && writes[k].name == n;
      if 0 < k < |writes| - 1 {
        assert middle[k - 1] == writes[k];
      }
    }
    if k :| 0 <= k < |middle| && middle[k].name == n {
      assert writes[k + 1] == middle[k];
    }
    assert writes[0] == first;
    assert writes[|writes| - 1] == last;
  }

  /** The file table holds `classes.txt`, `README.txt` and a label file exactly for the images with boxes. */
  lemma {:induction false} ExportNames(state: ExportState, timestamp: string, nt: NumberText, n: string)
    ensures n in Written(ExportWrites(state, timestamp, nt)) <==>
              || n == "classes.txt" || n == "README.txt"
              || exists i :: 0 <= i < |state.images| && LabelName(state.images[i]) == n && BoxesOf(state.annotations, state.images[i].id) != []
  {
    var labels := LabelWrites(state.images, state.annotations, nt);
    FramedNames(Entry("classes.txt", ClassesContent(state.classes)), labels,
                Entry("README.txt", ReadmeText(state.classes, timestamp, |state.images|, BoxTotal(state.annotations))), n);
    if k :| 0 <= k < |labels| && labels[k].name == n {
      LabelWriteSource(state.images, state.annotations, nt, k);
    }
    if i :| 0 <= i < |state.images| && LabelName(state.images[i]) == n && BoxesOf(state.annotations, state.images[i].id) != [] {
      LabelWriteOf(state.images, state.annotations, nt, i);
    }
  }

  /** A label file's name starts with `labels/`, so it is never `classes.txt` or `README.txt`. */
  lemma LabelNameApart(image: ToolImage)
    ensures |LabelName(image)| >= 7 && LabelName(image)[..7] == "labels/"
    ensures LabelName(image) != "classes.txt" && LabelName(image) != "README.txt"
  {
    assert LabelName(image)[0] == 'l';
  }

  /** The write of the last image with a given label name decides that file's text. */
  lemma {:induction false} LabelWritesLast(pre: seq<Entry>, images: seq<ToolImage>, annotations: map<string, seq<LabelBox>>, nt: NumberText, i: nat)
    requires i < |images| && BoxesOf(annotations, images[i].id) != []
    requires forall j :: i < j < |images| ==> LabelName(images[j]) != LabelName(images[i])
    ensures LabelName(images[i]) in Written(pre + LabelWrites(images, annotations, nt))
    ensures Written(pre + LabelWrites(images, annotations, nt))[LabelName(images[i])] == LabelText(BoxesOf(annotations, images[i].id), nt)
  {
    var init, image := images[..|images| - 1], images[|images| - 1];
    var done := pre + LabelWrites(init, annotations, nt);
    var piece := LabelWrite(image, annotations, nt);
    assert pre + LabelWrites(images, annotations, nt) == done + piece;
    if i < |init| {
      assert init[i] == images[i];
      LabelWritesLast(pre, init, annotations, nt, i);
    }
    if piece == [] {
      assert done + piece == done;
    } else {
      WriteStep(done, piece[0]);
    }
  }

  /**
   * An image with boxes, and no later image with the same label name, leaves its label file in
   * the table with one line per box.
   */
  lemma ExportLabel(state: ExportState, timestamp: string, nt: NumberText, i: nat)
    requires i < |state.images| && BoxesOf(state.annotations, state.images[i].id) != []
    requires forall j :: i < j < |state.images| ==> LabelName(state.images[j]) != LabelName(state.images[i])
    ensures LabelName(state.images[i]) in Written(ExportWrites(state, timestamp, nt))
    ensures Written(ExportWrites(state, timestamp, nt))[LabelName(state.images[i])]
            == LabelText(BoxesOf(state.annotations, state.images[i].id), nt)
  {
    var first := [Entry("classes.txt", ClassesContent(state.classes))];
    var readme := Entry("README.txt", ReadmeText(state.classes, timestamp, |state.images|, BoxTotal(state.annotations)));
    LabelWritesLast(first, state.images, state.annotations, nt, i);
    LabelNameApart(state.images[i]);
    WriteStep(first + LabelWrites(state.images, state.annotations, nt), readme);
  }

  /** An image without boxes, or missing from the table, gets no label file of its own. */
  lemma ExportNoLabel(state: ExportState, timestamp: string, nt: NumberText, n: string)
    requires forall i :: 0 <= i < |state.images| && LabelName(state.images[i]) == n ==> BoxesOf(state.annotations, state.images[i].id) == []
    requires n != "classes.txt" && n != "README.txt"
    ensures n !in Written(ExportWrites(state, timestamp, nt))
  {
    ExportNames(state, timestamp, nt, n);
  }

  /** `classes.txt` holds the class names, one per line, in list order. */
  lemma ExportClasses(state: ExportState, timestamp: string, nt: NumberText)
    ensures "classes.txt" in Written(ExportWrites(state, timestamp, nt))
    ensures Written(ExportWrites(state, timestamp, nt))["classes.txt"] == ClassesContent(state.classes)
  {
    var writes := ExportWrites(state, timestamp, nt);
    var labels := LabelWrites(state.images, state.annotations, nt);
    forall k | 0 < k < |writes| ensures writes[k].name != "classes.txt" {
      if k - 1 < |labels| {
        assert writes[k] == labels[k - 1];
        LabelWriteSource(state.images, state.annotations, nt, k - 1);
        var i :| 0 <= i < |state.images| && LabelName(state.images[i]) == labels[k - 1].name;
        LabelNameApart(state.images[i]);
      }
    }
    LastWriteWins(writes, 0);
  }

  /** `README.txt` is the last write, so it always holds the format notes, the class table and the counts. */
  lemma ExportReadme(state: ExportState, timestamp: string, nt: NumberText)
    ensures "README.txt" in Written(ExportWrites(state, timestamp, nt))
    ensures Written(ExportWrites(state, timestamp, nt))["README.txt"]
            == ReadmeText(state.classes, timestamp, |state.images|, BoxTotal(state.annotations))
  {
    var readme := Entry("README.txt", ReadmeText(state.classes, timestamp, |state.images|, BoxTotal(state.annotations)));
    WriteStep([Entry("classes.txt", ClassesContent(state.classes))] + LabelWrites(state.images, state.annotations, nt), readme);
  }

  /** Each list counts toward the box total. */
  lemma BoxTotalAtLeast(m: map<string, seq<LabelBox>>, k: string)
    requires k in m
    ensures |m[k]| <= BoxTotal(m)
  {
    TotalOverRemove(m, m.Keys, k);
  }

  /** A list whose id names no listed image gets no label file, yet its boxes are in the README's total. */
  lemma OrphanBoxesCounted(b: LabelBox, timestamp: string, nt: NumberText)
    ensures var state := ExportState([], map["lost" := [b]], []);
      && BoxTotal(state.annotations) == 1
      && forall n :: n in Written(ExportWrites(state, timestamp, nt)) <==> n == "classes.txt" || n == "README.txt"
  {
    var state := ExportState([], map["lost" := [b]], []);
    TotalOverRemove(state.annotations, state.annotations.Keys, "lost");
    assert state.annotations.Keys - {"lost"} == {};
    forall n ensures n in Written(ExportWrites(state, timestamp, nt)) <==> n == "classes.txt" || n == "README.txt" {
      ExportNames(state, timestamp, nt, n);
    }
  }

  // ---------------------------------------------------------------- the class lists

  /**
   * With no line break in any class name, `classes.txt` splits back into the names and the
   * README's table into `i: name` lines, where `i` is the position in the list.
   */
  lemma ClassListsSplit(classes: seq<ToolClass>)
    requires |classes| > 0
    requires forall i :: 0 <= i < |classes| ==> '\n' !in classes[i].name
    ensures Split(ClassesContent(classes), '\n') == ClassNameLines(classes)
    ensures Split(ClassMapping(classes), '\n') == MappingLines(classes)
  {
    SplitJoin(ClassNameLines(classes), '\n');
    forall i | 0 <= i < |classes| ensures '\n' !in MappingLines(classes)[i] {
      IntToStringToken(i);
      assert IsSpace('\n');
    }
    SplitJoin(MappingLines(classes), '\n');
  }

  /** The README numbers classes by position, whatever their ids. */
  lemma ClassMappingExample()
    ensures ClassMapping([ToolClass(7, "cat"), ToolClass(3, "dog")]) == "0: cat\n1: dog"
  {
    var classes := [ToolClass(7, "cat"), ToolClass(3, "dog")];
    assert MappingLines(classes)[0] == "0: cat" by { assert IntToString(0) == "0"; }
    assert MappingLines(classes)[1] == "1: dog" by { assert IntToString(1) == "1"; }
    assert MappingLines(classes) == ["0: cat", "1: dog"];
    assert ["0: cat", "1: dog"][1..] == ["1: dog"];
    assert "0: cat" + "\n" + "1: dog" == "0: cat\n1: dog";
  }

  // ---------------------------------------------------------------- the downloads

  /** `name.replace('labels/', '')` for a name that starts with `labels/`: the first occurrence is the prefix. */
  function DownloadName(name: string): string
    requires |name| >= 7 && name[..7] == "labels/"
  {
    name[7..]
  }

  /** The second loop of `downloadZip`: each label file is also offered on its own, without the folder. */
  function LabelDownloads(entries: seq<Entry>): seq<Entry> {
    if |entries| == 0 then []
    else
      var e := entries[|entries| - 1];
      LabelDownloads(entries[..|entries| - 1])
      + (if |e.name| >= 7 && e.name[..7] == "labels/" then [Entry(DownloadName(e.name), e.content)] else [])
  }

  lemma {:induction false} LabelDownloadsMember(entries: seq<Entry>, d: Entry)
    ensures d in LabelDownloads(entries) <==> Entry("labels/" + d.name, d.content) in entries
  {
    if |entries| > 0 {
      var init, e := entries[..|entries| - 1], entries[|entries| - 1];
      LabelDownloadsMember(init, d);
      assert entries == init + [e];
      if |e.name| >= 7 && e.name[..7] == "labels/" {
        assert e.name == "labels/" + e.name[7..];
      }
    }
  }

  /** `exportSingleImageAnnotations`: the download name and the text for one image's boxes, even when it has none. */
  function SingleImageFile(image: ToolImage, boxes: seq<LabelBox>, nt: NumberText): Entry {
    Entry(ReplaceExtension(image.name), LabelText(boxes, nt))
  }

  /**
   * For an image with boxes, the file offered on its own after a full export is the one the
   * single-image export gives.
   */
  lemma SingleImageMatchesExport(zip: Zip, state: ExportState, timestamp: string, nt: NumberText, i: nat)
    requires zip.Valid() && zip.files == Written(ExportWrites(state, timestamp, nt))
    requires i < |state.images| && BoxesOf(state.annotations, state.images[i].id) != []
    requires forall j :: i < j < |state.images| ==> LabelName(state.images[j]) != LabelName(state.images[i])
    ensures SingleImageFile(state.images[i], BoxesOf(state.annotations, state.images[i].id), nt) in LabelDownloads(zip.Entries())
  {
    var image := state.images[i];
    var f := SingleImageFile(image, BoxesOf(state.annotations, image.id), nt);
    ExportLabel(state, timestamp, nt, i);
    assert "labels/" + f.name == LabelName(image);
    LabelDownloadsMember(zip.Entries(), f);
  }
}
