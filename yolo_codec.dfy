/**
 * The YOLO label codec of `src/utils/yolo.js`: `convertToYOLO` turns corner-form boxes into
 * `class cx cy w h` lines, `parseYOLO` reads such lines back, skipping bad ones and clamping
 * the rest to the image.
 */
module YoloCodec {
  import opened Wrappers
  import opened Text
  import opened JsNumber
  import opened Annotations

  /** The five numbers of one label line, as `Number` gives them. */
  datatype Fields = Fields(classId: Num, centerX: Num, centerY: Num, width: Num, height: Num)

  /** A box read back from a label line. NaN can survive the range check, so its numbers are `Num`s. */
  datatype Decoded = Decoded(id: int, categoryId: Num, x: Num, y: Num, width: Num, height: Num)

  // ---------------------------------------------------------------- encoding

  /** The centre-form numbers `convertToYOLO` writes for a box: no clamping. */
  function CenterForm(a: Annotation): Fields {
    Fields(Fin(a.categoryId as real), Fin(a.x + a.width / 2.0), Fin(a.y + a.height / 2.0), Fin(a.width), Fin(a.height))
  }

  /** The five fields of a box's line, as text. */
  function LineTokens(a: Annotation, nt: NumberText): seq<string> {
    [IntToString(a.categoryId), nt.fixed(a.x + a.width / 2.0), nt.fixed(a.y + a.height / 2.0),
     nt.fixed(a.width), nt.fixed(a.height)]
  }

  function EncodeLine(a: Annotation, nt: NumberText): string {
    Join(LineTokens(a, nt), " ")
  }

  function EncodeLines(anns: seq<Annotation>, nt: NumberText): seq<string> {
    seq(|anns|, i requires 0 <= i < |anns| => EncodeLine(anns[i], nt))
  }

  /** `convertToYOLO`: one line per box, joined by newlines. The image size argument is unused by the source. */
  function ConvertToYolo(anns: seq<Annotation>, nt: NumberText): string {
    if |anns| == 0 then "" else Join(EncodeLines(anns, nt), "\n")
  }

  /** Facts about one encoded line that the decoder relies on. */
  lemma EncodeLineShape(a: Annotation, nt: NumberText)
    requires Readable(nt)
    ensures var line := EncodeLine(a, nt);
      && line != "" && !IsSpace(line[0]) && !IsSpace(line[|line| - 1])
      && '\n' !in line
      && Trim(line) == line
      && SplitBlanks(line) == LineTokens(a, nt)
  {
    var tokens := LineTokens(a, nt);
    IntToStringToken(a.categoryId);
    assert forall k :: 0 <= k < |tokens| ==> IsToken(tokens[k]);
    JoinEmpty(tokens, " ");
    assert !IsSpace(tokens[4][|tokens[4]| - 1]);
    JoinTokensNoChar(tokens, '\n');
    JoinTokensTrimmed(tokens);
    SplitBlanksJoin(tokens);
  }

  /**
   * The text is empty for no boxes; otherwise it has one line per box, in order, and each line
   * holds the class id and the unclamped centre form `x + w/2`, `y + h/2`, `w`, `h`.
   */
  lemma ConvertToYoloLines(anns: seq<Annotation>, nt: NumberText)
    requires Readable(nt)
    ensures |anns| == 0 ==> ConvertToYolo(anns, nt) == ""
    ensures |anns| > 0 ==> Split(ConvertToYolo(anns, nt), '\n') == EncodeLines(anns, nt)
    ensures forall i :: 0 <= i < |anns| ==>
              SplitBlanks(EncodeLines(anns, nt)[i]) ==
                [IntToString(anns[i].categoryId), nt.fixed(anns[i].x + anns[i].width / 2.0),
                 nt.fixed(anns[i].y + anns[i].height / 2.0), nt.fixed(anns[i].width), nt.fixed(anns[i].height)]
  {
    var lines := EncodeLines(anns, nt);
    forall i | 0 <= i < |anns| ensures '\n' !in lines[i] && SplitBlanks(lines[i]) == LineTokens(anns[i], nt) {
      EncodeLineShape(anns[i], nt);
    }
    if |anns| > 0 { SplitJoin(lines, '\n'); }
  }

  // ---------------------------------------------------------------- decoding

  /** The range test of `parseYOLO`: every comparison is false on NaN, so NaN fields pass. */
  predicate Accepts(f: Fields) {
    !(|| Lt(f.classId, Fin(0.0))
      || Lt(f.centerX, Fin(0.0)) || Gt(f.centerX, Fin(1.0))
      || Lt(f.centerY, Fin(0.0)) || Gt(f.centerY, Fin(1.0))
      || Le(f.width, Fin(0.0)) || Gt(f.width, Fin(1.0))
      || Le(f.height, Fin(0.0)) || Gt(f.height, Fin(1.0)))
  }

  /** A decoded side (position and extent) lies in `[0, 1]` with positive extent whenever its extent is a number. */
  predicate SideInside(pos: Num, len: Num) {
    len.Fin? ==> pos.Fin? && 0.0 <= pos.v && 0.0 < len.v && pos.v + len.v <= 1.0
  }

  /**
   * The corner and extent one axis decodes to: the corner `c - len/2` clamped to 0, the extent
   * clamped to `1 - corner`, where the corner in that `min` is the UNclamped one.
   */
  function Side(c: Num, len: Num): (Num, Num) {
    var lo := Sub(c, Half(len));
    (Max(Fin(0.0), lo), Min(len, Sub(Fin(1.0), lo)))
  }

  /** One accepted line becomes a corner-form box. */
  function DecodeFields(f: Fields, id: int): (r: Option<Decoded>)
    ensures r.Some? <==> Accepts(f)
    ensures r.Some? ==> r.value.id == id && r.value.categoryId == f.classId
  {
    if !Accepts(f) then None
    else
      var h := Side(f.centerX, f.width);
      var v := Side(f.centerY, f.height);
      Some(Decoded(id, f.classId, h.0, v.0, h.1, v.1))
  }

  /** On numbers, one axis decodes by the two clamps. */
  lemma SideFinite(c: real, len: real)
    ensures var lo := c - len / 2.0;
      Side(Fin(c), Fin(len)) == (Fin(if lo > 0.0 then lo else 0.0), Fin(if 1.0 - lo < len then 1.0 - lo else len))
  {
  }

  /** An axis that passed the range test decodes inside the image; a NaN only yields NaN. */
  lemma SideInsideImage(c: Num, len: Num)
    requires !(Lt(c, Fin(0.0)) || Gt(c, Fin(1.0)) || Le(len, Fin(0.0)) || Gt(len, Fin(1.0)))
    ensures SideInside(Side(c, len).0, Side(c, len).1)
    ensures c.Fin? && len.Fin? ==> Side(c, len).0.Fin? && Side(c, len).1.Fin?
  {
    if c.Fin? && len.Fin? {
      SideFinite(c.v, len.v);
    }
  }

  /** Every accepted line decodes to a box inside the image wherever its numbers are numbers. */
  lemma DecodeInside(f: Fields, id: int)
    requires Accepts(f)
    ensures var d := DecodeFields(f, id).value;
      && SideInside(d.x, d.width) && SideInside(d.y, d.height)
      && (f.centerX.Fin? && f.width.Fin? ==> d.x.Fin? && d.width.Fin?)
      && (f.centerY.Fin? && f.height.Fin? ==> d.y.Fin? && d.height.Fin?)
  {
    SideInsideImage(f.centerX, f.width);
    SideInsideImage(f.centerY, f.height);
  }

  /** One line of `parseYOLO`: exactly five blank-separated tokens, then the range test; the id is that line's clock reading plus its index. */
  function DecodeLine(line: string, index: nat, clock: nat -> int, nt: NumberText): Option<Decoded> {
    var parts := SplitBlanks(Trim(line));
    if |parts| != 5 then None
    else DecodeFields(Fields(nt.parse(parts[0]), nt.parse(parts[1]), nt.parse(parts[2]),
                             nt.parse(parts[3]), nt.parse(parts[4])), clock(index) + index)
  }

  /** The outcome of every line, in order. */
  function LineResults(lines: seq<string>, clock: nat -> int, nt: NumberText): (r: seq<Option<Decoded>>)
    ensures |r| == |lines|
    ensures forall j :: 0 <= j < |lines| ==> r[j] == DecodeLine(lines[j], j, clock, nt)
  {
    seq(|lines|, j requires 0 <= j < |lines| => DecodeLine(lines[j], j, clock, nt))
  }

  /** The lines `parseYOLO` works on: the trimmed text cut at newlines. */
  function Lines(text: string): seq<string> {
    Split(Trim(text), '\n')
  }

  /**
   * What `parseYOLO(text)` returns: the boxes of the accepted lines, in order. `clock(j)` is what
   * `Date.now()` reads when line `j` is accepted; each accepted line reads the clock anew.
   */
  function ParseSpec(text: string, clock: nat -> int, nt: NumberText): (r: seq<Decoded>)
    ensures Trim(text) != "" ==> |r| <= |Lines(text)|
  {
    if Trim(text) == "" then [] else Somes(LineResults(Lines(text), clock, nt))
  }

  /** `parseYOLO`. */
  method ParseYolo(text: string, clock: nat -> int, nt: NumberText) returns (anns: seq<Decoded>)
    ensures anns == ParseSpec(text, clock, nt)
  {
    if Trim(text) == "" {
      return [];
    }
    var lines := Lines(text);
    ghost var results := LineResults(lines, clock, nt);
    anns := [];
    var i := 0;
    assert results[..0] == [];
    while i < |lines|
      invariant i <= |lines|
      invariant anns == Somes(results[..i])
    {
      var d := DecodeLine(lines[i], i, clock, nt);
      if d.Some? {
        anns := anns + [d.value];
      }
      assert results[i] == d;
      SomesStep(results, i);
      i := i + 1;
    }
    assert results[..|lines|] == results;
  }

  // ---------------------------------------------------------------- properties of the decoder

  /** A bad line is skipped without stopping the others: every box returned comes from a line that decodes to it ... */
  lemma ParseFromLine(text: string, clock: nat -> int, nt: NumberText, d: Decoded)
    requires Trim(text) != ""
    requires d in ParseSpec(text, clock, nt)
    ensures exists j :: 0 <= j < |Lines(text)| && DecodeLine(Lines(text)[j], j, clock, nt) == Some(d)
  {
    var lines := Lines(text);
    var results := LineResults(lines, clock, nt);
    SomesMember(results, d);
    var j :| 0 <= j < |results| && results[j] == Some(d);
    assert DecodeLine(lines[j], j, clock, nt) == Some(d);
  }

  /** ... and every line that decodes contributes its box, whatever the other lines hold. */
  lemma LineInParse(text: string, clock: nat -> int, nt: NumberText, j: nat)
    requires Trim(text) != ""
    requires j < |Lines(text)| && DecodeLine(Lines(text)[j], j, clock, nt).Some?
    ensures DecodeLine(Lines(text)[j], j, clock, nt).value in ParseSpec(text, clock, nt)
  {
    var lines := Lines(text);
    var results := LineResults(lines, clock, nt);
    var d := DecodeLine(lines[j], j, clock, nt).value;
    SomesMember(results, d);
    assert results[j] == Some(d);
  }

  /** Every box `parseYOLO` returns lies inside the image, and blank input gives none. */
  lemma ParseInside(text: string, clock: nat -> int, nt: NumberText)
    ensures Trim(text) == "" ==> ParseSpec(text, clock, nt) == []
    ensures forall d :: d in ParseSpec(text, clock, nt) ==> SideInside(d.x, d.width) && SideInside(d.y, d.height)
  {
    if Trim(text) != "" {
      var lines := Lines(text);
      forall d | d in ParseSpec(text, clock, nt) ensures SideInside(d.x, d.width) && SideInside(d.y, d.height) {
        ParseFromLine(text, clock, nt, d);
        var j :| 0 <= j < |lines| && DecodeLine(lines[j], j, clock, nt) == Some(d);
        var parts := SplitBlanks(Trim(lines[j]));
        DecodeInside(Fields(nt.parse(parts[0]), nt.parse(parts[1]), nt.parse(parts[2]),
                            nt.parse(parts[3]), nt.parse(parts[4])), clock(j) + j);
      }
    }
  }

  /** A box spilling over the left (top) edge is moved right (down), keeping its full width: it is not cut. */
  lemma LeftSpillIsShifted(cls: Num, cx: real, cy: Num, w: real, h: Num, id: int)
    requires Accepts(Fields(cls, Fin(cx), cy, Fin(w), h))
    requires cx - w / 2.0 < 0.0
    ensures var d := DecodeFields(Fields(cls, Fin(cx), cy, Fin(w), h), id).value;
      d.x == Fin(0.0) && d.width == Fin(w) && d.x.v + d.width.v > cx + w / 2.0
  {
    SideFinite(cx, w);
  }

  /** A box spilling over the right (bottom) edge keeps its corner and is cut at the edge. */
  lemma RightSpillIsCut(cls: Num, cx: real, cy: Num, w: real, h: Num, id: int)
    requires Accepts(Fields(cls, Fin(cx), cy, Fin(w), h))
    requires cx + w / 2.0 > 1.0
    ensures var d := DecodeFields(Fields(cls, Fin(cx), cy, Fin(w), h), id).value;
      d.x == Fin(cx - w / 2.0) && d.width == Fin(1.0 - (cx - w / 2.0)) && d.x.v + d.width.v == 1.0
  {
    SideFinite(cx, w);
  }

  /** A NaN coordinate is not rejected: the line is accepted and NaN flows into the box. */
  lemma NaNIsAccepted(id: int)
    ensures var d := DecodeFields(Fields(Fin(0.0), NaN, Fin(0.5), Fin(0.2), Fin(0.2)), id);
      d.Some? && d.value.x == NaN && d.value.width == NaN
  {
  }

  /** Decoding the centre form of an in-image box gives the box back exactly. */
  lemma DecodeCenterForm(a: Annotation, id: int)
    requires Normalized(a)
    ensures DecodeFields(CenterForm(a), id) ==
              Some(Decoded(id, Fin(a.categoryId as real), Fin(a.x), Fin(a.y), Fin(a.width), Fin(a.height)))
  {
    assert Accepts(CenterForm(a));
    SideFinite(a.x + a.width / 2.0, a.width);
    SideFinite(a.y + a.height / 2.0, a.height);
  }

  /** Clamping is idempotent: re-encoding a decoded finite box and decoding it again changes nothing. */
  lemma ClampIdempotent(f: Fields, id: int)
    requires DecodeFields(f, id).Some?
    requires f.centerX.Fin? && f.centerY.Fin? && f.width.Fin? && f.height.Fin?
    ensures var d := DecodeFields(f, id).value;
      DecodeFields(Fields(d.categoryId, Fin(d.x.v + d.width.v / 2.0), Fin(d.y.v + d.height.v / 2.0), d.width, d.height), id)
        == Some(d)
  {
    var d := DecodeFields(f, id).value;
    SideFinite(f.centerX.v, f.width.v);
    SideFinite(f.centerY.v, f.height.v);
    SideFinite(d.x.v + d.width.v / 2.0, d.width.v);
    SideFinite(d.y.v + d.height.v / 2.0, d.height.v);
  }

  /** The number text reads back the five numbers written for `a` exactly. */
  ghost predicate ReadsBack(a: Annotation, nt: NumberText) {
    && ExactInt(nt, a.categoryId)
    && ExactAt(nt, a.x + a.width / 2.0) && ExactAt(nt, a.y + a.height / 2.0)
    && ExactAt(nt, a.width) && ExactAt(nt, a.height)
  }

  /**
   * For every box there is a number text that is readable and reads that box back: the
   * round trips below ask for something a formatter can give.
   */
  lemma ReadsBackPossible(a: Annotation)
    ensures exists nt :: Readable(nt) && ReadsBack(a, nt)
  {
    var cx, cy := a.x + a.width / 2.0, a.y + a.height / 2.0;
    var fixed := (r: real) => if r == cx then "a" else if r == cy then "b" else if r == a.width then "c" else "d";
    var parse := (t: string) =>
      if t == IntToString(a.categoryId) then Fin(a.categoryId as real)
      else if t == "a" then Fin(cx) else if t == "b" then Fin(cy) else if t == "c" then Fin(a.width) else Fin(a.height);
    var nt := NumberText(fixed, parse);
    IntToStringToken(a.categoryId);
    assert Readable(nt) by {
      forall r: real ensures IsToken(nt.fixed(r)) {
        assert IsToken(fixed(r)) by {
          assert |fixed(r)| == 1 && fixed(r)[0] in "abcd";
        }
      }
    }
    assert ReadsBack(a, nt);
  }

  function Expected(a: Annotation, id: int): Decoded {
    Decoded(id, Fin(a.categoryId as real), Fin(a.x), Fin(a.y), Fin(a.width), Fin(a.height))
  }

  lemma DecodeEncodedLine(a: Annotation, index: nat, clock: nat -> int, nt: NumberText)
    requires Normalized(a) && Readable(nt) && ReadsBack(a, nt)
    ensures DecodeLine(EncodeLine(a, nt), index, clock, nt) == Some(Expected(a, clock(index) + index))
  {
    EncodeLineShape(a, nt);
    var t := LineTokens(a, nt);
    assert nt.parse(t[0]) == Fin(a.categoryId as real);
    assert Fields(nt.parse(t[0]), nt.parse(t[1]), nt.parse(t[2]), nt.parse(t[3]), nt.parse(t[4])) == CenterForm(a);
    DecodeCenterForm(a, clock(index) + index);
  }

  /**
   * Round trip: parsing what `convertToYOLO` writes for in-image boxes gives back every box,
   * in order, with the same class, corner and extent (the id comes from the clock and the line number).
   */
  lemma ParseConvertRoundTrip(anns: seq<Annotation>, clock: nat -> int, nt: NumberText)
    requires forall i :: 0 <= i < |anns| ==> Normalized(anns[i]) && ReadsBack(anns[i], nt)
    requires Readable(nt)
    ensures ParseSpec(ConvertToYolo(anns, nt), clock, nt) ==
              seq(|anns|, i requires 0 <= i < |anns| => Expected(anns[i], clock(i) + i))
  {
    if |anns| > 0 {
      ConvertedLines(anns, nt);
      var lines := EncodeLines(anns, nt);
      var results := LineResults(lines, clock, nt);
      forall i | 0 <= i < |anns| ensures results[i] == Some(Expected(anns[i], clock(i) + i)) {
        assert results[i] == DecodeLine(EncodeLine(anns[i], nt), i, clock, nt);
        DecodeEncodedLine(anns[i], i, clock, nt);
      }
      SomesExpected(anns, clock, results);
    }
  }

  lemma SomesExpected(anns: seq<Annotation>, clock: nat -> int, results: seq<Option<Decoded>>)
    requires |results| == |anns|
    requires forall i :: 0 <= i < |anns| ==> results[i] == Some(Expected(anns[i], clock(i) + i))
    ensures Somes(results) == seq(|anns|, i requires 0 <= i < |anns| => Expected(anns[i], clock(i) + i))
  {
    SomesAll(seq(|anns|, i requires 0 <= i < |anns| => Expected(anns[i], clock(i) + i)), results);
  }

  /** The text `convertToYOLO` writes for a non-empty list is not blank and splits back into its lines. */
  lemma ConvertedLines(anns: seq<Annotation>, nt: NumberText)
    requires |anns| > 0 && Readable(nt)
    ensures Trim(ConvertToYolo(anns, nt)) != ""
    ensures Lines(ConvertToYolo(anns, nt)) == EncodeLines(anns, nt)
  {
    var lines := EncodeLines(anns, nt);
    var text := ConvertToYolo(anns, nt);
    var first, last := lines[0], lines[|lines| - 1];
    assert first != "" && !IsSpace(first[0]) by { EncodeLineShape(anns[0], nt); }
    assert last != "" && !IsSpace(last[|last| - 1]) by {
      var a := anns[|anns| - 1];
      assert last == EncodeLine(a, nt);
      EncodeLineShape(a, nt);
    }
    assert text != "" && !IsSpace(text[0]) && !IsSpace(text[|text| - 1]) by {
      assert text == Join(lines, "\n");
      JoinEmpty(lines, "\n");
    }
    assert Trim(text) == text by { TrimNoBlanks(text); }
    assert Split(text, '\n') == lines by { ConvertToYoloLines(anns, nt); }
  }
}
