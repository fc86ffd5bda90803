/**
 * `validateYOLO` of `src/utils/yolo.js`: a strict diagnostic pass over label text. Unlike
 * `parseYOLO` it reports non-numeric tokens, non-integer class ids and boxes that spill over
 * the image, and it collects every range problem of a line instead of stopping at the first.
 * Messages are reduced to their kind and the 1-based line number they carry.
 */
module YoloValidate {
  import opened Wrappers
  import opened Text
  import opened JsNumber
  import opened YoloCodec

  datatype ErrorKind =
    | Format       // not exactly five tokens
    | NonNumeric   // some token is not a number
    | ClassId      // class id negative or not an integer
    | CenterX      // centre x outside [0, 1]
    | CenterY      // centre y outside [0, 1]
    | Width        // width outside (0, 1]
    | Height       // height outside (0, 1]
    | OutOfImage   // the box, taken from its centre, spills over an edge

  datatype LineError = LineError(line: nat, kind: ErrorKind)

  datatype Validation = Validation(valid: bool, errors: seq<LineError>)

  // ---------------------------------------------------------------- the checks of one line

  predicate BadClassId(f: Fields) {
    Lt(f.classId, Fin(0.0)) || !IsInteger(f.classId)
  }

  predicate BadCenter(c: Num) {
    Lt(c, Fin(0.0)) || Gt(c, Fin(1.0))
  }

  predicate BadExtent(len: Num) {
    Le(len, Fin(0.0)) || Gt(len, Fin(1.0))
  }

  /** The edges `center ∓ extent/2` of one axis, unclamped, fall outside `[0, 1]`. */
  predicate Spills(c: Num, len: Num) {
    Lt(Sub(c, Half(len)), Fin(0.0)) || Gt(Add(c, Half(len)), Fin(1.0))
  }

  predicate HasNaN(f: Fields) {
    f.classId.NaN? || f.centerX.NaN? || f.centerY.NaN? || f.width.NaN? || f.height.NaN?
  }

  /** The tokens of one line, read as numbers. */
  function LineFields(parts: seq<string>, nt: NumberText): Fields
    requires |parts| == 5
  {
    Fields(nt.parse(parts[0]), nt.parse(parts[1]), nt.parse(parts[2]), nt.parse(parts[3]), nt.parse(parts[4]))
  }

  /** Whether the range checks of a numeric line report an error of this kind. */
  predicate Raised(f: Fields, kind: ErrorKind) {
    match kind
    case Format => false
    case NonNumeric => false
    case ClassId => BadClassId(f)
    case CenterX => BadCenter(f.centerX)
    case CenterY => BadCenter(f.centerY)
    case Width => BadExtent(f.width)
    case Height => BadExtent(f.height)
    case OutOfImage => Spills(f.centerX, f.width) || Spills(f.centerY, f.height)
  }

  /** One check: its error when the condition holds, nothing otherwise. */
  function Check(condition: bool, e: LineError): (r: seq<LineError>)
    ensures |r| <= 1
    ensures forall x :: x in r <==> condition && x == e
  {
    if condition then [e] else []
  }

  /** The range and bounds errors of a numeric line, each check on its own, in the order of the source. */
  function RangeErrors(f: Fields, number: nat): seq<LineError> {
    Check(BadClassId(f), LineError(number, ClassId))
    + Check(BadCenter(f.centerX), LineError(number, CenterX))
    + Check(BadCenter(f.centerY), LineError(number, CenterY))
    + Check(BadExtent(f.width), LineError(number, Width))
    + Check(BadExtent(f.height), LineError(number, Height))
    + Check(Spills(f.centerX, f.width) || Spills(f.centerY, f.height), LineError(number, OutOfImage))
  }

  /** The errors one line contributes: a format error, a non-numeric error, or the range errors. */
  function LineErrors(line: string, number: nat, nt: NumberText): seq<LineError> {
    var parts := SplitBlanks(Trim(line));
    if |parts| != 5 then [LineError(number, Format)]
    else if HasNaN(LineFields(parts, nt)) then [LineError(number, NonNumeric)]
    else RangeErrors(LineFields(parts, nt), number)
  }

  /** The errors of every line, the line number being the position plus one. */
  function PerLine(lines: seq<string>, nt: NumberText): (r: seq<seq<LineError>>)
    ensures |r| == |lines|
    ensures forall j :: 0 <= j < |lines| ==> r[j] == LineErrors(lines[j], j + 1, nt)
  {
    seq(|lines|, j requires 0 <= j < |lines| => LineErrors(lines[j], j + 1, nt))
  }

  /** What `validateYOLO(text)` returns. */
  function ValidateSpec(text: string, nt: NumberText): Validation {
    if Trim(text) == "" then Validation(true, [])
    else
      var errors := Flatten(PerLine(Lines(text), nt));
      Validation(|errors| == 0, errors)
  }

  // ---------------------------------------------------------------- the pass itself

  /** The checks of one line, pushing each error as it is found. */
  method CheckLine(line: string, number: nat, nt: NumberText) returns (errors: seq<LineError>)
    ensures errors == LineErrors(line, number, nt)
  {
    var parts := SplitBlanks(Trim(line));
    if |parts| != 5 {
      return [LineError(number, Format)];
    }
    var f := LineFields(parts, nt);
    if HasNaN(f) {
      return [LineError(number, NonNumeric)];
    }
    errors := [];
    if BadClassId(f) {
      errors := errors + [LineError(number, ClassId)];
    }
    assert errors == Check(BadClassId(f), LineError(number, ClassId));
    ghost var done := errors;
    if BadCenter(f.centerX) {
      errors := errors + [LineError(number, CenterX)];
    }
    assert errors == done + Check(BadCenter(f.centerX), LineError(number, CenterX));
    done := errors;
    if BadCenter(f.centerY) {
      errors := errors + [LineError(number, CenterY)];
    }
    assert errors == done + Check(BadCenter(f.centerY), LineError(number, CenterY));
    done := errors;
    if BadExtent(f.width) {
      errors := errors + [LineError(number, Width)];
    }
    assert errors == done + Check(BadExtent(f.width), LineError(number, Width));
    done := errors;
    if BadExtent(f.height) {
      errors := errors + [LineError(number, Height)];
    }
    assert errors == done + Check(BadExtent(f.height), LineError(number, Height));
    done := errors;
    if Spills(f.centerX, f.width) || Spills(f.centerY, f.height) {
      errors := errors + [LineError(number, OutOfImage)];
    }
    assert errors == done + Check(Spills(f.centerX, f.width) || Spills(f.centerY, f.height), LineError(number, OutOfImage));
  }

  /** The line-by-line pass of `validateYOLO`. */
  method CheckLines(lines: seq<string>, nt: NumberText) returns (errors: seq<LineError>)
    ensures errors == Flatten(PerLine(lines, nt))
  {
    ghost var perLine := PerLine(lines, nt);
    errors := [];
    var i := 0;
    assert perLine[..0] == [];
    while i < |lines|
      invariant i <= |lines|
      invariant errors == Flatten(perLine[..i])
    {
      var lineErrors := CheckLine(lines[i], i + 1, nt);
      FlattenStep(perLine, i);
      errors := errors + lineErrors;
      i := i + 1;
    }
    assert perLine[..|lines|] == perLine;
  }

  /** `validateYOLO`: blank text is valid; otherwise every line is checked and the text is valid exactly when no line reported anything. */
  method ValidateYolo(text: string, nt: NumberText) returns (r: Validation)
    ensures r == ValidateSpec(text, nt)
    ensures r.valid <==> r.errors == []
    ensures Trim(text) == "" ==> r == Validation(true, [])
  {
    if Trim(text) == "" {
      return Validation(true, []);
    }
    var errors := CheckLines(Lines(text), nt);
    r := Validation(|errors| == 0, errors);
  }

  // ---------------------------------------------------------------- properties

  /**
   * The shape of one line's errors: all carry the line's number; a wrong token count gives
   * exactly one format error and nothing else; a non-numeric token exactly one non-numeric
   * error; otherwise each range check reports on its own, exactly when its condition holds.
   */
  lemma LineErrorShape(line: string, number: nat, nt: NumberText)
    ensures var errors := LineErrors(line, number, nt);
      var parts := SplitBlanks(Trim(line));
      && (forall e :: e in errors ==> e.line == number)
      && (|parts| != 5 ==> errors == [LineError(number, Format)])
      && (|parts| == 5 && HasNaN(LineFields(parts, nt)) ==> errors == [LineError(number, NonNumeric)])
      && (|parts| == 5 && !HasNaN(LineFields(parts, nt)) ==>
            forall e :: e in errors <==> e.line == number && Raised(LineFields(parts, nt), e.kind))
  {
    var parts := SplitBlanks(Trim(line));
    if |parts| == 5 && !HasNaN(LineFields(parts, nt)) {
      RangeErrorsMembers(LineFields(parts, nt), number);
    }
  }

  /** An error of `kind` is reported for a numeric line exactly when `Raised` holds; no kind is reported twice. */
  lemma RangeErrorsMembers(f: Fields, number: nat)
    ensures |RangeErrors(f, number)| <= 6
    ensures forall e :: e in RangeErrors(f, number) <==> e.line == number && Raised(f, e.kind)
  {
    forall e ensures e in RangeErrors(f, number) <==> e.line == number && Raised(f, e.kind) {
      RaisedOnce(f, number, e);
    }
  }

  lemma RaisedOnce(f: Fields, number: nat, e: LineError)
    ensures e in RangeErrors(f, number) <==> e.line == number && Raised(f, e.kind)
  {
    SixChecks(BadClassId(f), BadCenter(f.centerX), BadCenter(f.centerY), BadExtent(f.width), BadExtent(f.height),
              Spills(f.centerX, f.width) || Spills(f.centerY, f.height), number, e);
  }

  /** Six independent checks report an error of a kind exactly when that kind's condition holds. */
  lemma SixChecks(classId: bool, centerX: bool, centerY: bool, width: bool, height: bool, outside: bool, number: nat, e: LineError)
    ensures e in Check(classId, LineError(number, ClassId)) + Check(centerX, LineError(number, CenterX))
                 + Check(centerY, LineError(number, CenterY)) + Check(width, LineError(number, Width))
                 + Check(height, LineError(number, Height)) + Check(outside, LineError(number, OutOfImage))
            <==> e.line == number && match e.kind
                                     case Format => false
                                     case NonNumeric => false
                                     case ClassId => classId
                                     case CenterX => centerX
                                     case CenterY => centerY
                                     case Width => width
                                     case Height => height
                                     case OutOfImage => outside
  {
    var c1 := Check(classId, LineError(number, ClassId));
    var c2 := Check(centerX, LineError(number, CenterX));
    var c3 := Check(centerY, LineError(number, CenterY));
    var c4 := Check(width, LineError(number, Width));
    var c5 := Check(height, LineError(number, Height));
    var c6 := Check(outside, LineError(number, OutOfImage));
    assert e in c1 + c2 <==> e in c1 || e in c2;
    assert e in c1 + c2 + c3 <==> e in c1 + c2 || e in c3;
    assert e in c1 + c2 + c3 + c4 <==> e in c1 + c2 + c3 || e in c4;
    assert e in c1 + c2 + c3 + c4 + c5 <==> e in c1 + c2 + c3 + c4 || e in c5;
    assert e in c1 + c2 + c3 + c4 + c5 + c6 <==> e in c1 + c2 + c3 + c4 + c5 || e in c6;
  }

  /** Every error a line reports carries that line's number. */
  lemma LineErrorsNumbered(line: string, number: nat, nt: NumberText)
    ensures forall e :: e in LineErrors(line, number, nt) ==> e.line == number
  {
    var parts := SplitBlanks(Trim(line));
    if |parts| == 5 && !HasNaN(LineFields(parts, nt)) {
      RangeErrorsMembers(LineFields(parts, nt), number);
    }
  }

  /** The errors of a list of lines are exactly the errors of each line, tagged with its own number. */
  lemma PerLineErrors(lines: seq<string>, nt: NumberText, e: LineError)
    ensures e in Flatten(PerLine(lines, nt)) <==>
              1 <= e.line <= |lines| && e in LineErrors(lines[e.line - 1], e.line, nt)
  {
    var perLine := PerLine(lines, nt);
    forall j: int, y: LineError | 0 <= j < |perLine| && y in perLine[j] ensures y.line - 1 == j {
      LineErrorsNumbered(lines[j], j + 1, nt);
    }
    FlattenNumbered(perLine, e, (y: LineError) => y.line - 1);
  }

  /** The errors of a text are exactly the errors of its lines, each tagged with its own line number. */
  lemma ValidateErrors(text: string, nt: NumberText, e: LineError)
    requires Trim(text) != ""
    ensures e in ValidateSpec(text, nt).errors <==>
              1 <= e.line <= |Lines(text)| && e in LineErrors(Lines(text)[e.line - 1], e.line, nt)
  {
    PerLineErrors(Lines(text), nt, e);
  }

  /**
   * A blank line inside the text is a format error: `split(/\s+/)` of an empty string gives one
   * empty token, never none, so the source's "empty line" early return is never taken.
   */
  lemma BlankLineIsFormatError(text: string, nt: NumberText, j: nat)
    requires Trim(text) != "" && j < |Lines(text)| && AllSpace(Lines(text)[j])
    ensures LineError(j + 1, Format) in ValidateSpec(text, nt).errors
    ensures !ValidateSpec(text, nt).valid
  {
    var line := Lines(text)[j];
    assert Trim(line) == "";
    assert LineErrors(line, j + 1, nt) == [LineError(j + 1, Format)];
    ValidateErrors(text, nt, LineError(j + 1, Format));
  }

  /** Several problems on one line are all reported: a class id of 1.5 at centre x 2 gives both errors. */
  lemma SeveralErrorsOnOneLine(number: nat)
    ensures RangeErrors(Fields(Fin(1.5), Fin(2.0), Fin(0.5), Fin(0.2), Fin(0.2)), number) ==
              [LineError(number, ClassId), LineError(number, CenterX), LineError(number, OutOfImage)]
  {
    assert !IsInteger(Fin(1.5)) by { assert (1.5).Floor == 1; }
  }

  /** The box of a line converted to corner form with no clamping. */
  function Corner(f: Fields, id: int): Decoded {
    Decoded(id, f.classId, Sub(f.centerX, Half(f.width)), Sub(f.centerY, Half(f.height)), f.width, f.height)
  }

  /** A numeric line without range errors holds five finite numbers and a box inside the image. */
  lemma CleanFields(f: Fields, number: nat)
    requires !HasNaN(f) && RangeErrors(f, number) == []
    ensures f.classId.Fin? && f.centerX.Fin? && f.centerY.Fin? && f.width.Fin? && f.height.Fin?
    ensures 0.0 <= f.classId.v && 0.0 < f.width.v <= 1.0 && 0.0 < f.height.v <= 1.0
    ensures 0.0 <= f.centerX.v - f.width.v / 2.0 && f.centerX.v + f.width.v / 2.0 <= 1.0
    ensures 0.0 <= f.centerY.v - f.height.v / 2.0 && f.centerY.v + f.height.v / 2.0 <= 1.0
  {
    RangeErrorsMembers(f, number);
    assert !Raised(f, ClassId) && !Raised(f, CenterX) && !Raised(f, CenterY);
    assert !Raised(f, Width) && !Raised(f, Height) && !Raised(f, OutOfImage);
  }

  /** Such a line decodes with no clamping at all. */
  lemma CleanFieldsDecode(f: Fields, id: int)
    requires f.classId.Fin? && f.centerX.Fin? && f.centerY.Fin? && f.width.Fin? && f.height.Fin?
    requires 0.0 <= f.classId.v && 0.0 < f.width.v <= 1.0 && 0.0 < f.height.v <= 1.0
    requires 0.0 <= f.centerX.v - f.width.v / 2.0 && f.centerX.v + f.width.v / 2.0 <= 1.0
    requires 0.0 <= f.centerY.v - f.height.v / 2.0 && f.centerY.v + f.height.v / 2.0 <= 1.0
    ensures DecodeFields(f, id) == Some(Corner(f, id))
  {
    assert Accepts(f);
    SideFinite(f.centerX.v, f.width.v);
    SideFinite(f.centerY.v, f.height.v);
  }

  /**
   * A line the validator passes is read by `parseYOLO` without any clamping: the box is the
   * centre form converted to a corner, exactly.
   */
  lemma CleanLineDecodesExactly(line: string, index: nat, clock: nat -> int, nt: NumberText)
    requires LineErrors(line, index + 1, nt) == []
    ensures |SplitBlanks(Trim(line))| == 5
    ensures DecodeLine(line, index, clock, nt) == Some(Corner(LineFields(SplitBlanks(Trim(line)), nt), clock(index) + index))
  {
    var parts := SplitBlanks(Trim(line));
    assert |parts| == 5;
    var f := LineFields(parts, nt);
    assert !HasNaN(f) && RangeErrors(f, index + 1) == [];
    CleanFields(f, index + 1);
    CleanFieldsDecode(f, clock(index) + index);
    assert DecodeLine(line, index, clock, nt) == DecodeFields(f, clock(index) + index);
  }

  /** A text the validator passes loses no line when parsed. */
  lemma ValidTextKeepsEveryLine(text: string, clock: nat -> int, nt: NumberText)
    requires Trim(text) != "" && ValidateSpec(text, nt).valid
    ensures |ParseSpec(text, clock, nt)| == |Lines(text)|
  {
    FlattenEmpty(PerLine(Lines(text), nt));
    CleanLinesAllDecode(Lines(text), clock, nt);
  }

  lemma CleanLinesAllDecode(lines: seq<string>, clock: nat -> int, nt: NumberText)
    requires forall j :: 0 <= j < |lines| ==> PerLine(lines, nt)[j] == []
    ensures |Somes(LineResults(lines, clock, nt))| == |lines|
  {
    var results := LineResults(lines, clock, nt);
    forall j | 0 <= j < |lines| ensures results[j].Some? {
      assert PerLine(lines, nt)[j] == LineErrors(lines[j], j + 1, nt);
      CleanLineDecodesExactly(lines[j], j, clock, nt);
    }
    SomesAll(seq(|results|, j requires 0 <= j < |results| => results[j].value), results);
  }

  /**
   * The two readers disagree: a box spilling over the left edge, a class id of 1.5 and a NaN
   * coordinate all pass `parseYOLO`'s range test but are reported by `validateYOLO`.
   */
  lemma ParseAcceptsWhatValidateRejects(number: nat)
    ensures var spill := Fields(Fin(0.0), Fin(0.05), Fin(0.5), Fin(0.2), Fin(0.2));
      Accepts(spill) && RangeErrors(spill, number) == [LineError(number, OutOfImage)]
    ensures var fraction := Fields(Fin(1.5), Fin(0.5), Fin(0.5), Fin(0.2), Fin(0.2));
      Accepts(fraction) && RangeErrors(fraction, number) == [LineError(number, ClassId)]
    ensures var nan := Fields(Fin(0.0), NaN, Fin(0.5), Fin(0.2), Fin(0.2));
      Accepts(nan) && HasNaN(nan)
  {
    assert !IsInteger(Fin(1.5)) by { assert (1.5).Floor == 1; }
  }
}
