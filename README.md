# label-tiny in Dafny

A verified model of the label-format handling and the in-memory stores of label-tiny, a
browser tool for drawing boxes on images and exporting them as YOLO (Darknet) label files:
one text line per box, `class cx cy w h`, with coordinates normalised to the image.

The model covers four parts of the repository.

- **The YOLO codec, validator and statistics of the editor** (`src/utils/yolo.js`):
  - `convertToYOLO` writes corner-form boxes as centre-form lines;
  - `parseYOLO` reads lines back, skipping bad lines and clamping the rest to the image;
  - `validateYOLO` reports every problem of every line;
  - `calculateAnnotationStats` counts boxes per category and by size;
  - the file assembly of `exportBatchYOLO` and the `generateYOLOConfig` template.
- **The export of the labelling tool** (`yolo-annotation-tool/src/utils/yoloExporter.js`):
  - `exportToYOLO` fills a file table with `classes.txt`, one `labels/<name>.txt` per image
    that has boxes, and a `README.txt`;
  - the table object of `createZip`;
  - the combined text and the per-label downloads of `downloadZip`;
  - the single-image export.
- **The editor store** (`src/store/index.js`): its state, its mutations and its getters.
- **The tool's annotation module** (`yolo-annotation-tool/src/store/modules/annotation.js`):
  the per-image box table, its mutations, the `loadImages` action and the getters.

## Design

- **Numbers.** Coordinates are `real`. A number read from text is a `Num`
  (`NaN`, `Inf` or `Fin(real)`), because `parseYOLO` lets NaN through: every comparison with
  NaN is false.
- **Number text.** `toFixed(6)` and `Number(token)` are one abstract `NumberText` value passed
  in as a parameter. Three predicates state what a result needs of it:
  - `Readable`: a formatted number is a single blank-free token;
  - `ExactAt(nt, r)`: parsing the formatted `r` gives `r` back;
  - `ExactInt(nt, k)`: parsing the decimal text of the integer `k` gives `k`.

  A round trip asks for exactness only at the numbers it writes. `YoloCodec.ReadsBackPossible`
  and `YoloExporter.BoxReadsBackPossible` show that some number text meets this for any box.
- **Clock.** `parseYOLO` reads `Date.now()` for each accepted line. The model takes the
  readings as a parameter `clock`, where `clock(j)` is the reading for line `j`.
- **Integers as text.** `${k}` is concrete (`Text.IntToString`).
- **Imperative code stays imperative.** The following are `method`s with loops, each proved
  equal to a specification function:
  - the loops of `parseYOLO`, `validateYOLO`, `calculateAnnotationStats`, `exportBatchYOLO`
    and `exportToYOLO`;
  - the `Object.values(...).flat().length` count;
  - the `combinedContent +=` fold.
- **Objects become classes.** The `createZip` object and the two stores are classes:
  - each mutation is a method stating the whole new state;
  - the store classes state it as a one-field update of `State()`.
- **Text operations.** The JavaScript string operations the sources use are modelled in
  `text.dfy`: `trim`, `split('\n')`, `split(/\s+/)` after a trim, `join`, the default
  `Array.prototype.sort` order, and the `/\.[^/.]+$/` extension regex.

Three behaviours of the code are easy to miss:
- **Clamping.** `parseYOLO` moves a box that spills over the left or top edge instead of
  cutting it, because the width clamp uses the unclamped corner (`YoloCodec.LeftSpillIsShifted`).
- **Centre out of range.** `parseYOLO` rejects a line whose centre lies outside `[0, 1]`, such as
  `0 1.5 0.5 0.2 0.2`.
- **Two exports.** The batch export of `src/utils/yolo.js` writes a label file for every
  image, empty or not, and sorts the class ids as text. The export of `yoloExporter.js` skips
  images without boxes and keeps the class list order.

## Model

| member | source | states |
|---|---|---|
| Text.Trim | src/utils/yolo.js:46 | the trimmed text is no longer than the input and is empty exactly when the input is all white space |
| Text.TrimIdempotent | src/utils/yolo.js:54 | trimming twice is trimming once |
| Text.SplitJoin | src/utils/yolo.js:50 | splitting a join of newline-free parts at the separator gives back exactly the parts |
| Text.SplitBlanksJoin | src/utils/yolo.js:54 | `trim().split(/\s+/)` of tokens joined by single spaces gives back the tokens |
| Text.IntToStringToken | src/utils/yolo.js:35 | `${id}` of an integer is a blank-free token starting with a digit or a minus sign |
| Text.ReplaceExtensionSpec | src/utils/yolo.js:100 | the name is cut at the dot of its final `.ext` (non-empty, without dot or slash) and given `.txt`; a name without one is unchanged |
| Text.ReplaceExtensionExamples | yolo-annotation-tool/src/utils/yoloExporter.js:27 | `a.b.jpg` becomes `a.b.txt`; `img`, `img.` and `v1.0/img` are unchanged |
| Text.StrLeTotal | src/utils/yolo.js:126 | the text order of the default sort compares every two texts |
| Text.StrLeTrans | src/utils/yolo.js:126 | the text order of the default sort is transitive |
| JsNumber.Max | src/utils/yolo.js:82-83 | `Math.max` of two numbers is the larger one and NaN when either is NaN |
| JsNumber.Min | src/utils/yolo.js:84-85 | `Math.min` of two numbers is the smaller one and NaN when either is NaN |
| YoloCodec.ConvertToYoloLines | src/utils/yolo.js:14-37 | no boxes give `""`; otherwise the text splits into one line per box, in order, and each line into `id cx cy w h` with `cx = x + w/2`, `cy = y + h/2`, unclamped |
| YoloCodec.EncodeLineShape | src/utils/yolo.js:35 | a box's line has no line break, is not blank, and splits into its five fields |
| YoloCodec.ConvertedLines | src/utils/yolo.js:36 | the text written for a non-empty list is not blank and `parseYOLO` cuts it back into exactly its lines |
| YoloCodec.DecodeFields | src/utils/yolo.js:64-86 | a line is accepted exactly when it passes the range test; the accepted box keeps the class and takes the given id |
| YoloCodec.SideInsideImage | src/utils/yolo.js:76-85 | an axis that passed the range test decodes inside `[0, 1]` with a positive extent, finite when its numbers are |
| YoloCodec.DecodeInside | src/utils/yolo.js:64-86 | every accepted line decodes to a box inside the image on every finite axis |
| YoloCodec.ParseSpec | src/utils/yolo.js:45-90 | the boxes returned are never more than the lines |
| YoloCodec.ParseYolo | src/utils/yolo.js:45-90 | the `forEach` loop returns exactly the specification's boxes |
| YoloCodec.ParseFromLine | src/utils/yolo.js:53-87 | every box returned comes from some line that decodes to it |
| YoloCodec.LineInParse | src/utils/yolo.js:53-87 | every line that decodes contributes its box, whatever the other lines hold |
| YoloCodec.ParseInside | src/utils/yolo.js:46-48 | blank input gives no boxes, and every box returned lies inside the image |
| YoloCodec.LeftSpillIsShifted | src/utils/yolo.js:82-84 | a box spilling over the left edge starts at 0 and keeps its full width: it is shifted, not cut |
| YoloCodec.RightSpillIsCut | src/utils/yolo.js:82-84 | a box spilling over the right edge keeps its corner and its width is cut at the edge |
| YoloCodec.NaNIsAccepted | src/utils/yolo.js:64-73 | a NaN centre passes the range test and flows into the box |
| YoloCodec.DecodeCenterForm | src/utils/yolo.js:32-33 | decoding the centre form of an in-image box gives the box back exactly |
| YoloCodec.ClampIdempotent | src/utils/yolo.js:76-85 | re-encoding a decoded finite box and decoding it again changes nothing |
| YoloCodec.DecodeEncodedLine | src/utils/yolo.js:35 | the line written for an in-image box that the number text reads back decodes to that box, with id `clock(index) + index` |
| YoloCodec.ReadsBackPossible | src/utils/yolo.js:35 | for every box some readable number text reads back the five numbers written for it |
| YoloCodec.ParseConvertRoundTrip | src/utils/yolo.js:14-90 | `parseYOLO(convertToYOLO(boxes))` gives back every in-image box the number text reads back, in order, with ids `clock(i) + i` |
| YoloValidate.CheckLine | src/utils/yolo.js:163-218 | the checks of one line collect exactly that line's specified errors |
| YoloValidate.CheckLines | src/utils/yolo.js:162-219 | the loop collects the errors of every line in order |
| YoloValidate.ValidateYolo | src/utils/yolo.js:153-225 | blank input is valid with no errors, and `valid` holds exactly when the error list is empty |
| YoloValidate.LineErrorShape | src/utils/yolo.js:170-181 | a wrong token count or a non-numeric token gives exactly one error and no range checks |
| YoloValidate.RangeErrorsMembers | src/utils/yolo.js:190-218 | a numeric line has at most six errors, one for each check that fails |
| YoloValidate.RaisedOnce | src/utils/yolo.js:190-218 | an error is reported exactly when its check fails, with the line's number |
| YoloValidate.LineErrorsNumbered | src/utils/yolo.js:163 | every error a line reports carries that line's number |
| YoloValidate.PerLineErrors | src/utils/yolo.js:162-219 | the errors of a list of lines are exactly the errors of each line under its own number |
| YoloValidate.ValidateErrors | src/utils/yolo.js:160-219 | the errors of a text are exactly the errors of its trimmed lines, each under its own number |
| YoloValidate.BlankLineIsFormatError | src/utils/yolo.js:164-173 | a blank inner line is a format error, so the text is invalid |
| YoloValidate.SeveralErrorsOnOneLine | src/utils/yolo.js:190-196 | a class id of 1.5 with centre x 2 gives both errors, in order |
| YoloValidate.CleanFields | src/utils/yolo.js:189-218 | a numeric line without errors holds five finite numbers and a box inside the image |
| YoloValidate.CleanFieldsDecode | src/utils/yolo.js:76-85 | such a line decodes with no clamping |
| YoloValidate.CleanLineDecodesExactly | src/utils/yolo.js:53-86 | a line the validator passes is accepted by the parser, unchanged |
| YoloValidate.ValidTextKeepsEveryLine | src/utils/yolo.js:153-225 | a text the validator passes loses no line when parsed |
| YoloValidate.ParseAcceptsWhatValidateRejects | src/utils/yolo.js:64-73 | a spilling box, a fractional class id and a NaN centre are reported by the validator yet accepted by the parser |
| YoloStats.ZeroTable | src/utils/yolo.js:282-287 | the table starts with every category id at count 0 and share 0 |
| YoloStats.CalculateStats | src/utils/yolo.js:269-328 | the loop returns exactly the specified statistics: counts of known categories, shares, averages and size classes |
| YoloStats.SizesSumToTotal | src/utils/yolo.js:308-315 | small, medium and large add up to the total |
| YoloStats.EmptyStats | src/utils/yolo.js:289-291 | no boxes: total, averages and sizes are zero and every category has count and share 0 |
| YoloStats.CountsAtMostTotal | src/utils/yolo.js:300-302 | the counts of distinct categories add up to the boxes of those categories, at most the total |
| YoloStats.PercentageBounds | src/utils/yolo.js:323-325 | each share is between 0 and 100 and each count at most the total |
| YoloStats.AverageSizeBounds | src/utils/yolo.js:319-320 | for boxes with sides in `(0, 1]` the average sides are in `(0, 1]` |
| YoloBatch.Distinct | src/utils/yolo.js:119-124 | the `Set` holds each id of the input once, and only those |
| YoloBatch.DistinctStep | src/utils/yolo.js:122 | adding an id already present changes nothing; a new id goes last |
| YoloBatch.CollectCategoryIds | src/utils/yolo.js:119-124 | the nested loop fills the set with the distinct ids in first-seen order |
| YoloBatch.AllIdsMember | src/utils/yolo.js:120-124 | an id is collected exactly when some box of some image has it |
| YoloBatch.Insert | src/utils/yolo.js:126 | inserting into a run adds exactly that one text |
| YoloBatch.SortTextsSpec | src/utils/yolo.js:126 | the sort orders by text and neither loses nor invents a value |
| YoloBatch.TenBeforeTwo | src/utils/yolo.js:126 | ids 2 and 10 sort as `10`, `2` |
| YoloBatch.ClassTextsSpec | src/utils/yolo.js:119-126 | the listed ids are sorted as text, each distinct id once, and exactly the ids of some box |
| YoloBatch.ClassesTextLines | src/utils/yolo.js:126-127 | `classes.txt` is empty without boxes, otherwise one `class_<id>` line per listed id |
| YoloBatch.WriteLabelFiles | src/utils/yolo.js:130-141 | the loop writes every image's label file after the writes already made |
| YoloBatch.ExportBatch | src/utils/yolo.js:111-141 | the zip holds exactly the table of the specified writes: `classes.txt`, then every image |
| YoloBatch.BatchWrite | src/utils/yolo.js:130-135 | the write for image `i` comes after `classes.txt` and the images before it |
| YoloBatch.BatchNames | src/utils/yolo.js:127-135 | the zip holds `classes.txt` and one file per image name, and nothing else |
| YoloBatch.BatchLabel | src/utils/yolo.js:132-135 | the last image with a name decides that file: `convertToYOLO` of its boxes |
| YoloBatch.EmptyImageLabel | src/utils/yolo.js:132-135 | an image without boxes still gets a file, and it is empty |
| YoloBatch.BatchClasses | src/utils/yolo.js:127 | `classes.txt` keeps the class list unless some label file has that name |
| YoloBatch.ClassesOverwritten | src/utils/yolo.js:127-135 | an image `classes.png` without boxes empties `classes.txt` |
| YoloBatch.ConfigSplits | src/utils/yolo.js:249-260 | without line breaks in the paths and names, the configuration is exactly its lines |
| YoloBatch.ConfigExample | src/utils/yolo.js:233-260 | missing options take the defaults; two classes give `nc: 2` and their quoted names |
| ZipStore.WriteStep | yolo-annotation-tool/src/utils/yoloExporter.js:67-69 | one more write sets that name's text; a new name goes last in the order |
| ZipStore.LastWriteWins | yolo-annotation-tool/src/utils/yoloExporter.js:67-69 | the last write of a name decides its text |
| ZipStore.WrittenNames | yolo-annotation-tool/src/utils/yoloExporter.js:65-73 | a name is in the table exactly when some write used it |
| ZipStore.FirstNamesDistinct | yolo-annotation-tool/src/utils/yoloExporter.js:83 | no name is listed twice |
| ZipStore.Zip.constructor | yolo-annotation-tool/src/utils/yoloExporter.js:64-65 | a new table is empty |
| ZipStore.Zip.File | yolo-annotation-tool/src/utils/yoloExporter.js:67-69 | writing a name sets its text and keeps its first place in the order |
| ZipStore.Zip.Entries | yolo-annotation-tool/src/utils/yoloExporter.js:70-72 | the entries are the written names in first-write order, each with its latest text, one per name |
| ZipStore.CombinedText | yolo-annotation-tool/src/utils/yoloExporter.js:81-87 | the `+=` loop builds the combined text of all entries |
| ZipStore.CombinedAppend | yolo-annotation-tool/src/utils/yoloExporter.js:83-87 | the combined text of two runs is the two texts one after the other |
| ZipStore.CombinedSection | yolo-annotation-tool/src/utils/yoloExporter.js:84-86 | each file's banner, text and line break sit, whole, after the sections of the files before it |
| YoloExporter.LabelTextLines | yolo-annotation-tool/src/utils/yoloExporter.js:21-24 | a label file splits into one line per box, in order, each holding that box's five fields |
| YoloExporter.BoxLineShape | yolo-annotation-tool/src/utils/yoloExporter.js:23 | a box's line has no line break and splits into its five fields |
| YoloExporter.BoxReadsBackPossible | yolo-annotation-tool/src/utils/yoloExporter.js:23 | for every box some readable number text reads back the five numbers written for it |
| YoloExporter.LabelTextRoundTrip | yolo-annotation-tool/src/utils/yoloExporter.js:21-24 | reading a label file back gives a box's class and centre form as stored, with no conversion, when the number text reads that box back |
| YoloExporter.TotalOverRemove | yolo-annotation-tool/src/utils/yoloExporter.js:54 | the box total does not depend on the order the lists are counted in |
| YoloExporter.CountBoxes | yolo-annotation-tool/src/utils/yoloExporter.js:54 | the count is the number of boxes in every list of the table |
| YoloExporter.BoxTotalAtLeast | yolo-annotation-tool/src/utils/yoloExporter.js:54 | every list counts toward the box total |
| YoloExporter.WriteLabels | yolo-annotation-tool/src/utils/yoloExporter.js:18-30 | the loop writes a label file for each image with boxes after the writes already made |
| YoloExporter.ExportToYolo | yolo-annotation-tool/src/utils/yoloExporter.js:7-61 | the table holds exactly the specified writes: `classes.txt`, the label files, `README.txt` |
| YoloExporter.LabelWriteSource | yolo-annotation-tool/src/utils/yoloExporter.js:19-28 | each label write is the label file of a listed image that has boxes |
| YoloExporter.LabelWriteOf | yolo-annotation-tool/src/utils/yoloExporter.js:19-28 | each listed image with boxes gets a label write |
| YoloExporter.FramedNames | yolo-annotation-tool/src/utils/yoloExporter.js:15-57 | a name is in the table of a framed run of writes exactly when the first, the last or a middle write used it |
| YoloExporter.ExportNames | yolo-annotation-tool/src/utils/yoloExporter.js:15-57 | the table holds `classes.txt`, `README.txt` and a label file exactly for the images with boxes |
| YoloExporter.LabelNameApart | yolo-annotation-tool/src/utils/yoloExporter.js:28 | a label file's name starts with `labels/`, so it is never `classes.txt` or `README.txt` |
| YoloExporter.LabelWritesLast | yolo-annotation-tool/src/utils/yoloExporter.js:18-30 | the last image with a label name decides that file's text |
| YoloExporter.ExportLabel | yolo-annotation-tool/src/utils/yoloExporter.js:18-30 | that image's boxes, one line each, are its label file |
| YoloExporter.ExportNoLabel | yolo-annotation-tool/src/utils/yoloExporter.js:19-20 | an image without boxes, or with no list, gets no label file |
| YoloExporter.ExportClasses | yolo-annotation-tool/src/utils/yoloExporter.js:14-15 | `classes.txt` holds the class names in list order, one per line |
| YoloExporter.ExportReadme | yolo-annotation-tool/src/utils/yoloExporter.js:33-57 | `README.txt` holds the format notes, the class table, the time stamp, `images.length` and the box total |
| YoloExporter.OrphanBoxesCounted | yolo-annotation-tool/src/utils/yoloExporter.js:50-54 | a list whose id names no image gets no label file, yet its boxes are in the README's total |
| YoloExporter.ClassListsSplit | yolo-annotation-tool/src/utils/yoloExporter.js:14-50 | without line breaks in the names, `classes.txt` is one name per line and the class table one `i: name` per line |
| YoloExporter.ClassMappingExample | yolo-annotation-tool/src/utils/yoloExporter.js:50 | the class table numbers classes by position, not by id |
| YoloExporter.LabelDownloadsMember | yolo-annotation-tool/src/utils/yoloExporter.js:101-113 | a file is offered on its own exactly when the table has it under `labels/` |
| YoloExporter.SingleImageMatchesExport | yolo-annotation-tool/src/utils/yoloExporter.js:119-133 | the single-image export of an image with boxes matches the file the batch export offers for it |
| EditorStore.Updated | src/store/index.js:49-53 | same length; only an index in range is replaced, every other box stays |
| EditorStore.Deleted | src/store/index.js:55-59 | an index in range removes that box, keeps the ones before and shifts the ones after; any other index changes nothing |
| EditorStore.DeletedRemovesOne | src/store/index.js:55-59 | a delete takes exactly that one box out of the list |
| EditorStore.DeleteUndoesAdd | src/store/index.js:45-59 | deleting the box just added gives back the list from before |
| EditorStore.FindCategory | src/store/index.js:117-119 | the category found is in the list with that id, and none is found exactly when no category has it |
| EditorStore.FindCategoryFirst | src/store/index.js:117-119 | the category found is the first with that id |
| EditorStore.FindImageIndex | src/store/index.js:123 | the first position with that id, or -1 exactly when there is none |
| EditorStore.CurrentCategory | src/store/index.js:113-115 | the category found is in the list with the selected id, and none is found exactly when no category has it (the first one, by `FindCategoryFirst`) |
| EditorStore.CategoryById | src/store/index.js:117-119 | the category found is in the list with that id, and none is found exactly when no category has it |
| EditorStore.CurrentImageIndex | src/store/index.js:121-124 | -1 without a current image; otherwise the first position holding an image with its id, and -1 exactly when no image has that id |
| EditorStore.CurrentImageFound | src/store/index.js:121-124 | a current image taken from the list is found at the first image with its id |
| EditorStore.DefaultCategoriesFound | src/store/index.js:15-23 | each of the five default categories is found by its id, id 5 is not, and the current category starts as `人` |
| EditorStore.Store.constructor | src/store/index.js:7-30 | the store starts in the initial state |
| EditorStore.Store.SetCurrentImage | src/store/index.js:33-35 | only the current image changes |
| EditorStore.Store.SetImageList | src/store/index.js:37-39 | only the image list changes |
| EditorStore.Store.SetCurrentAnnotations | src/store/index.js:41-43 | only the box list changes |
| EditorStore.Store.AddAnnotation | src/store/index.js:45-47 | the box list grows by one, the new box last, the others unchanged; nothing else changes |
| EditorStore.Store.UpdateAnnotation | src/store/index.js:49-53 | the box list becomes the bounds-checked update; nothing else changes |
| EditorStore.Store.DeleteAnnotation | src/store/index.js:55-59 | the box list becomes the bounds-checked delete; nothing else changes |
| EditorStore.Store.SetSelectedCategory | src/store/index.js:61-63 | only the selected category changes |
| EditorStore.Store.SetCanvasScale | src/store/index.js:65-67 | only the scale changes |
| EditorStore.Store.SetIsDrawing | src/store/index.js:69-71 | only the drawing flag changes |
| EditorStore.Store.SetSelectedAnnotation | src/store/index.js:73-75 | only the selected box changes |
| EditorStore.Store.UpdateCategories | src/store/index.js:77-79 | only the category list changes |
| AnnotationStore.SpliceStart | yolo-annotation-tool/src/store/modules/annotation.js:40 | the start of `splice` lies within the list |
| AnnotationStore.SpliceOne | yolo-annotation-tool/src/store/modules/annotation.js:40 | an index in range removes that box; one past the end does nothing; a negative index counts from the end, and far below removes the first; an empty list stays empty |
| AnnotationStore.SpliceLast | yolo-annotation-tool/src/store/modules/annotation.js:40 | `splice(-1, 1)` drops the last box |
| AnnotationStore.SetList | yolo-annotation-tool/src/store/modules/annotation.js:21-26 | the image's list becomes the new one and every other list stays |
| AnnotationStore.AddTo | yolo-annotation-tool/src/store/modules/annotation.js:27-32 | the box goes last in the image's list, a missing list starts empty, every other list stays |
| AnnotationStore.UpdateIn | yolo-annotation-tool/src/store/modules/annotation.js:33-37 | with a list, only the box at the index is replaced; without one nothing happens; other lists stay |
| AnnotationStore.DeleteIn | yolo-annotation-tool/src/store/modules/annotation.js:38-42 | with a list, it is spliced at the index; without one nothing happens; other lists stay |
| AnnotationStore.AddThenDeleteLast | yolo-annotation-tool/src/store/modules/annotation.js:27-42 | adding a box and then deleting at -1 gives back the table |
| AnnotationStore.CurrentImage | yolo-annotation-tool/src/store/modules/annotation.js:87-89 | there is a current image exactly when the index is in range, and it is the image there |
| AnnotationStore.CurrentImageAnnotations | yolo-annotation-tool/src/store/modules/annotation.js:90-94 | no current image or no list gives `[]`, otherwise the current image's list |
| AnnotationStore.AllAnnotations | yolo-annotation-tool/src/store/modules/annotation.js:95 | the whole table, in which the current image's boxes are its entry, or none |
| AnnotationStore.ImageCount | yolo-annotation-tool/src/store/modules/annotation.js:96 | there is a current image exactly when the index is below the count, and none at any index without images |
| AnnotationStore.NextIsAnImage | yolo-annotation-tool/src/store/modules/annotation.js:97 | from an image, there is a next image exactly when the next position holds one |
| AnnotationStore.PrevIsAnImage | yolo-annotation-tool/src/store/modules/annotation.js:98 | from an image, there is a previous image exactly when the position before holds one |
| AnnotationStore.LoadImages | yolo-annotation-tool/src/store/modules/annotation.js:59-64 | the list is replaced; the index becomes 0 only for a non-empty list; nothing else changes |
| AnnotationStore.LoadImagesNavigation | yolo-annotation-tool/src/store/modules/annotation.js:59-64 | after a non-empty load the first image is current, there is no previous one, and a next one exactly with two or more |
| AnnotationStore.AnnotationTable.constructor | yolo-annotation-tool/src/store/modules/annotation.js:1-9 | the module starts in its initial state |
| AnnotationStore.AnnotationTable.SetImages | yolo-annotation-tool/src/store/modules/annotation.js:12-14 | only the image list changes |
| AnnotationStore.AnnotationTable.AddImage | yolo-annotation-tool/src/store/modules/annotation.js:15-17 | the image goes last; nothing else changes |
| AnnotationStore.AnnotationTable.SetCurrentImageIndex | yolo-annotation-tool/src/store/modules/annotation.js:18-20 | only the index changes, to any number |
| AnnotationStore.AnnotationTable.SetAnnotations | yolo-annotation-tool/src/store/modules/annotation.js:21-26 | the table becomes `SetList` of it; nothing else changes |
| AnnotationStore.AnnotationTable.AddAnnotation | yolo-annotation-tool/src/store/modules/annotation.js:27-32 | the table becomes `AddTo` of it; nothing else changes |
| AnnotationStore.AnnotationTable.UpdateAnnotation | yolo-annotation-tool/src/store/modules/annotation.js:33-37 | the table becomes `UpdateIn` of it; nothing else changes |
| AnnotationStore.AnnotationTable.DeleteAnnotation | yolo-annotation-tool/src/store/modules/annotation.js:38-42 | the table becomes `DeleteIn` of it; nothing else changes |
| AnnotationStore.AnnotationTable.SetClasses | yolo-annotation-tool/src/store/modules/annotation.js:43-45 | only the class list changes |
| AnnotationStore.AnnotationTable.SetSelectedClass | yolo-annotation-tool/src/store/modules/annotation.js:46-48 | only the selected class changes |
| AnnotationStore.AnnotationTable.SetScale | yolo-annotation-tool/src/store/modules/annotation.js:49-51 | only the scale changes |
| AnnotationStore.AnnotationTable.SetIsDrawing | yolo-annotation-tool/src/store/modules/annotation.js:52-54 | only the drawing flag changes |
| AnnotationStore.AnnotationTable.LoadImagesAction | yolo-annotation-tool/src/store/modules/annotation.js:59-64 | the two commits leave the state `LoadImages` specifies |

## Left out

- Null and undefined inputs (`!annotations`, `!yoloString`) are not modelled: lists and texts are always present.
- `toFixed(6)` rounding and `Number` / `isNaN` parsing are abstract (`NumberText`). Round trips take the formatting to be exact, so no claim is made about six-decimal output.
- The clock readings of `parseYOLO` (`Date.now()`, one per accepted line) and the `toLocaleString` time stamp of the README are parameters.
- The downloads are not modelled: `saveAs`, `Blob`, object URLs, anchor clicks, `alert`, JSZip's `generateAsync` and the zip file names. The model stops at the file table, the combined text and the list of single downloads.
- `exportSingleYOLO` is its download alone: its file is `Text.ReplaceExtension` of the name with `YoloCodec.ConvertToYolo` of the boxes, both modelled.
- The `Math.round` progress callback of `exportBatchYOLO` is not modelled.
- The async actions are not modelled: `loadImageList`, `loadAnnotations` and `saveAnnotations` in both stores call the network or a timer.
- The console warnings of `parseYOLO` are not modelled. The messages of `validateYOLO` become a line number and an error kind.
- The image size argument of `convertToYOLO` / `parseYOLO` and the `modelName` option of `generateYOLOConfig` are read but never used, so they are not modelled.
- The `parts.length === 0` branch of `validateYOLO` cannot be taken, because the split never returns an empty list, so it has no counterpart.
- JavaScript lists object keys that look like integers before the others. `ZipStore.Zip.Entries` lists every name in first-write order, which differs only for such names.
- JSZip in `exportBatchYOLO` is modelled by the same name-to-text table as `createZip`.
- Lists are values. `SET_IMAGE_LIST` and the other setters share the caller's array in JavaScript, and later pushes through another reference are not modelled.
- The default sort compares UTF-16 code units. The model compares characters, which agrees for the digit and minus characters of the sorted ids.
- `ann.class` of the tool's boxes is an integer; other values in that field are not modelled.
- The editor's boxes have an integer class and real coordinates. The model therefore cannot feed what `parseYOLO` returns (a fractional or NaN class, NaN coordinates) back into `convertToYOLO` or `calculateAnnotationStats`.
- `Text.IntToString` writes every integer in plain decimal. JavaScript's `${k}` switches to exponent notation from 10^21 on, and integers that large are not modelled.
- AnnotationStore.AnnotationTable.UpdateAnnotation: requires the same bound as `AnnotationStore.UpdateIn`, for the same reason.
- AnnotationStore.UpdateIn: requires the index to be below the list's length when the list exists. Outside it, JavaScript would grow the list with holes, which sequences cannot hold.
- `Vue.set` is plain assignment; reactivity is not modelled.
- `src/api/index.js`, the router, `main.js`, `vue.config.js` and the tool's root store are not part of this model.
