/**
 * The in-memory "zip" of `yolo-annotation-tool/src/utils/yoloExporter.js`: a name-to-text
 * table written entry by entry (`createZip`), and the single text `downloadZip` builds from
 * all its entries before handing it to the browser.
 */
module ZipStore {

  /** One file of the table: its name and its text. */
  datatype Entry = Entry(name: string, content: string)

  // ---------------------------------------------------------------- specification

  /** The table a run of writes leaves behind: a later write of a name replaces the earlier text. */
  function Written(writes: seq<Entry>): map<string, string> {
    if |writes| == 0 then map[]
    else
      var last := writes[|writes| - 1];
      Written(writes[..|writes| - 1])[last.name := last.content]
  }

  /** The names of a run of writes, each once, in the order of its first write. */
  function FirstNames(writes: seq<Entry>): seq<string> {
    if |writes| == 0 then []
    else
      var init := FirstNames(writes[..|writes| - 1]);
      var name := writes[|writes| - 1].name;
      if name in init then init else init + [name]
  }

  /** One more write: the table gains or replaces that name, and a new name goes to the end of the list. */
  lemma WriteStep(writes: seq<Entry>, e: Entry)
    ensures Written(writes + [e]) == Written(writes)[e.name := e.content]
    ensures FirstNames(writes + [e]) == if e.name in FirstNames(writes) then FirstNames(writes) else FirstNames(writes) + [e.name]
  {
    assert (writes + [e])[..|writes|] == writes;
  }

  /** A loop writing `entries` one by one after `done`: the write of entry `i`. */
  lemma WritePrefixStep(done: seq<Entry>, entries: seq<Entry>, i: nat)
    requires i < |entries|
    ensures Written(done + entries[..i + 1]) == Written(done + entries[..i])[entries[i].name := entries[i].content]
    ensures FirstNames(done + entries[..i + 1]) ==
              if entries[i].name in FirstNames(done + entries[..i]) then FirstNames(done + entries[..i])
              else FirstNames(done + entries[..i]) + [entries[i].name]
  {
    assert done + entries[..i + 1] == (done + entries[..i]) + [entries[i]];
    WriteStep(done + entries[..i], entries[i]);
  }

  lemma {:induction false} WrittenKeys(writes: seq<Entry>)
    ensures forall n :: n in Written(writes) <==> n in FirstNames(writes)
  {
    if |writes| > 0 {
      WrittenKeys(writes[..|writes| - 1]);
    }
  }

  /** Every write of a name is undone by a later write of the same name; the last one stays. */
  lemma {:induction false} LastWriteWins(writes: seq<Entry>, i: nat)
    requires i < |writes|
    requires forall k :: i < k < |writes| ==> writes[k].name != writes[i].name
    ensures writes[i].name in Written(writes)
    ensures Written(writes)[writes[i].name] == writes[i].content
  {
    if i < |writes| - 1 {
      LastWriteWins(writes[..|writes| - 1], i);
    }
  }

  /** A name is in the table exactly when some write used it. */
  lemma {:induction false} WrittenNames(writes: seq<Entry>, n: string)
    ensures n in Written(writes) <==> exists i :: 0 <= i < |writes| && writes[i].name == n
  {
    if |writes| > 0 {
      var init := writes[..|writes| - 1];
      WrittenNames(init, n);
      if n in Written(init) {
        var i :| 0 <= i < |init| && init[i].name == n;
        assert writes[i] == init[i];
      }
      if i :| 0 <= i < |writes| && writes[i].name == n {
        if i < |init| {
          assert init[i] == writes[i];
        }
      }
    }
  }

  /** No name is listed twice. */
  lemma {:induction false} FirstNamesDistinct(writes: seq<Entry>)
    ensures forall i, j :: 0 <= i < j < |FirstNames(writes)| ==> FirstNames(writes)[i] != FirstNames(writes)[j]
  {
    if |writes| > 0 {
      FirstNamesDistinct(writes[..|writes| - 1]);
    }
  }

  // ---------------------------------------------------------------- the table

  /** `createZip()`: the object with `file` and `generate` over a private `files` dictionary. */
  class Zip {
    /** The names in the order they were first written: the order `Object.entries` lists them in. */
    var names: seq<string>
    var files: map<string, string>

    ghost predicate Valid()
      reads this
    {
      && (forall n :: n in files <==> n in names)
      && (forall i, j :: 0 <= i < j < |names| ==> names[i] != names[j])
    }

    constructor ()
      ensures Valid()
      ensures names == [] && files == map[]
    {
      names := [];
      files := map[];
    }

    /** `file(name, content)`: writing a name again replaces its text and keeps its place. */
    method File(name: string, content: string)
      requires Valid()
      modifies this
      ensures Valid()
      ensures files == old(files)[name := content]
      ensures names == if name in old(files) then old(names) else old(names) + [name]
    {
      if name !in files {
        names := names + [name];
      }
      files := files[name := content];
    }

    /** `Object.entries(generate())`: every written file with its latest text, in first-write order. */
    function Entries(): (r: seq<Entry>)
      requires Valid()
      reads this
      ensures |r| == |names|
      ensures forall i :: 0 <= i < |r| ==> r[i] == Entry(names[i], files[names[i]])
      ensures forall e :: e in r <==> e.name in files && files[e.name] == e.content
    {
      EntriesOf(names, files)
    }
  }

  function EntriesOf(names: seq<string>, files: map<string, string>): (r: seq<Entry>)
    requires forall n :: n in names ==> n in files
    ensures |r| == |names|
    ensures forall i :: 0 <= i < |r| ==> r[i] == Entry(names[i], files[names[i]])
    ensures forall e :: e in r <==> e.name in names && files[e.name] == e.content
  {
    if |names| == 0 then []
    else EntriesOf(names[..|names| - 1], files) + [Entry(names[|names| - 1], files[names[|names| - 1]])]
  }

  // ---------------------------------------------------------------- the combined text

  /** The banner, the text and a line break for one file. */
  function Section(e: Entry): string {
    "\n========== " + e.name + " ==========\n" + e.content + "\n"
  }

  /** Every section, one after the other. */
  function Combined(entries: seq<Entry>): string {
    if |entries| == 0 then "" else Combined(entries[..|entries| - 1]) + Section(entries[|entries| - 1])
  }

  /** `downloadZip`'s loop over `Object.entries(files)`, appending each section to `combinedContent`. */
  method CombinedText(zip: Zip) returns (text: string)
    requires zip.Valid()
    ensures text == Combined(zip.Entries())
  {
    var entries := zip.Entries();
    text := "";
    var i := 0;
    while i < |entries|
      invariant i <= |entries|
      invariant text == Combined(entries[..i])
    {
      var name, content := entries[i].name, entries[i].content;
      ghost var before := text;
      text := text + "\n========== " + name + " ==========\n";
      text := text + content;
      text := text + "\n";
      SectionAppended(before, entries[i], text);
      CombinedStep(entries, i);
      i := i + 1;
    }
    assert entries[..i] == entries;
  }

  /** Appending the banner, the text and the line break one by one appends the file's section. */
  lemma SectionAppended(before: string, e: Entry, text: string)
    requires text == before + "\n========== " + e.name + " ==========\n" + e.content + "\n"
    ensures text == before + Section(e)
  {
  }

  /** One more entry adds its section at the end of the combined text. */
  lemma CombinedStep(entries: seq<Entry>, i: nat)
    requires i < |entries|
    ensures Combined(entries[..i + 1]) == Combined(entries[..i]) + Section(entries[i])
  {
    assert entries[..i + 1][..i] == entries[..i];
  }

  /** Combining two runs of entries gives the two combined texts one after the other. */
  lemma {:induction false} CombinedAppend(a: seq<Entry>, b: seq<Entry>)
    ensures Combined(a + b) == Combined(a) + Combined(b)
  {
    if |b| == 0 {
      assert a + b == a;
    } else {
      var init, last := b[..|b| - 1], b[|b| - 1];
      CombinedAppend(a, init);
      assert (a + b)[..|a + b| - 1] == a + init;
      assert (a + b)[|a + b| - 1] == last;
      calc {
        Combined(a + b);
        Combined(a + init) + Section(last);
        Combined(a) + Combined(init) + Section(last);
        Combined(a) + (Combined(init) + Section(last));
      }
    }
  }

  /** Each file's section sits, whole and in place, after the sections of the files before it. */
  lemma CombinedSection(entries: seq<Entry>, i: nat)
    requires i < |entries|
    ensures var start := |Combined(entries[..i])|;
      var text := Combined(entries);
      start + |Section(entries[i])| <= |text| && text[start..start + |Section(entries[i])|] == Section(entries[i])
  {
    var before, after := entries[..i], entries[i + 1..];
    assert entries == before + [entries[i]] + after;
    CombinedAppend(before + [entries[i]], after);
    assert (before + [entries[i]])[..i] == before;
    var text := Combined(entries);
    assert text == Combined(before) + Section(entries[i]) + Combined(after);
  }
}
