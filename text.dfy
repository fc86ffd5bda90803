/**
 * The JavaScript string operations the label code relies on: `trim`, `split('\n')`,
 * `split(/\s+/)`, `join`, number-to-text conversion, the default string order of
 * `Array.prototype.sort`, and the `/\.[^/.]+$/` extension replacement.
 */
module Text {
  import opened Wrappers

  /** The characters `String.prototype.trim` removes and `\s` matches: white space and line terminators. */
  predicate IsSpace(c: char) {
    || c == ' ' || c == '\t' || c == '\n' || c == '\r' || c == '\U{000B}' || c == '\U{000C}'
    || c == '\U{00A0}' || c == '\U{1680}' || ('\U{2000}' <= c <= '\U{200A}')
    || c == '\U{2028}' || c == '\U{2029}' || c == '\U{202F}' || c == '\U{205F}'
    || c == '\U{3000}' || c == '\U{FEFF}'
  }

  predicate AllSpace(s: string) {
    forall k :: 0 <= k < |s| ==> IsSpace(s[k])
  }

  /** A token: what `split(/\s+/)` yields from text without surrounding blanks. */
  predicate IsToken(s: string) {
    |s| > 0 && forall k :: 0 <= k < |s| ==> !IsSpace(s[k])
  }

  // ---------------------------------------------------------------- trim

  function TrimStart(s: string): (r: string)
    ensures |r| <= |s|
  {
    if s != [] && IsSpace(s[0]) then TrimStart(s[1..]) else s
  }

  /** `TrimStart` drops exactly the leading blanks. */
  lemma {:induction false} TrimStartSpec(s: string)
    ensures var r := TrimStart(s);
      && r == s[|s| - |r|..]
      && (r == [] || !IsSpace(r[0]))
      && AllSpace(s[..|s| - |r|])
  {
    if s != [] && IsSpace(s[0]) {
      TrimStartSpec(s[1..]);
      var r := TrimStart(s[1..]);
      assert s[..|s| - |r|] == [s[0]] + s[1..][..|s[1..]| - |r|];
    }
  }

  function TrimEnd(s: string): (r: string)
    ensures |r| <= |s|
  {
    if s != [] && IsSpace(s[|s| - 1]) then TrimEnd(s[..|s| - 1]) else s
  }

  /** `TrimEnd` drops exactly the trailing blanks. */
  lemma {:induction false} TrimEndSpec(s: string)
    ensures var r := TrimEnd(s);
      && r == s[..|r|]
      && (r == [] || !IsSpace(r[|r| - 1]))
      && AllSpace(s[|r|..])
  {
    if s != [] && IsSpace(s[|s| - 1]) {
      TrimEndSpec(s[..|s| - 1]);
      var r := TrimEnd(s[..|s| - 1]);
      assert s[|r|..] == s[..|s| - 1][|r|..] + [s[|s| - 1]];
    }
  }

  /** `String.prototype.trim`: the text without leading and trailing blanks. */
  function Trim(s: string): (r: string)
    ensures |r| <= |s|
    ensures r == [] <==> AllSpace(s)
  {
    TrimStartSpec(s);
    TrimEndSpec(TrimStart(s));
    var t := TrimStart(s);
    assert t != [] ==> t[0] == s[|s| - |t|] && !IsSpace(t[0]);
    assert t == [] ==> s[..|s| - |t|] == s;
    assert t[0..] == t;
    TrimEnd(t)
  }

  lemma TrimNoBlanks(s: string)
    requires s != [] && !IsSpace(s[0]) && !IsSpace(s[|s| - 1])
    ensures Trim(s) == s
  {
    assert TrimStart(s) == s;
    assert TrimEnd(s) == s;
  }

  lemma TrimIdempotent(s: string)
    ensures Trim(Trim(s)) == Trim(s)
  {
    var r := Trim(s);
    if r != [] {
      var t := TrimStart(s);
      TrimStartSpec(s);
      TrimEndSpec(t);
      assert r == TrimEnd(t) && r == t[..|r|];
      assert r[0] == t[0];
      TrimNoBlanks(r);
    }
  }

  // ---------------------------------------------------------------- split on one character

  function FirstIndex(s: string, c: char): (i: nat)
    requires c in s
    ensures i < |s| && s[i] == c && c !in s[..i]
  {
    if s[0] == c then 0 else FirstIndex(s[1..], c) + 1
  }

  lemma {:induction false} FirstIndexAt(s: string, c: char, j: nat)
    requires j < |s| && s[j] == c && c !in s[..j]
    ensures FirstIndex(s, c) == j
  {
    if j > 0 {
      assert s[0] == s[..j][0];
      assert s[1..][..j - 1] == s[..j][1..];
      FirstIndexAt(s[1..], c, j - 1);
    }
  }

  /** `s.split(c)` for a one-character separator: the pieces between separators, at least one. */
  function Split(s: string, c: char): (r: seq<string>)
    ensures |r| >= 1
    ensures forall k :: 0 <= k < |r| ==> c !in r[k]
    decreases |s|
  {
    if c !in s then [s]
    else
      var i := FirstIndex(s, c);
      [s[..i]] + Split(s[i + 1..], c)
  }

  /** `parts.join(sep)`. */
  function Join(parts: seq<string>, sep: string): string
  {
    if |parts| == 0 then ""
    else if |parts| == 1 then parts[0]
    else parts[0] + sep + Join(parts[1..], sep)
  }

  /** Splitting a joined text on the separator gives back the parts, when no part holds the separator. */
  lemma {:induction false} SplitJoin(parts: seq<string>, c: char)
    requires |parts| >= 1
    requires forall k :: 0 <= k < |parts| ==> c !in parts[k]
    ensures Split(Join(parts, [c]), c) == parts
  {
    if |parts| > 1 {
      var rest := Join(parts[1..], [c]);
      var s := parts[0] + [c] + rest;
      assert s[|parts[0]|] == c;
      assert s[..|parts[0]|] == parts[0];
      FirstIndexAt(s, c, |parts[0]|);
      assert s[|parts[0]| + 1..] == rest;
      SplitJoin(parts[1..], c);
    }
  }

  lemma {:induction false} JoinEmpty(parts: seq<string>, sep: string)
    requires sep != ""
    ensures Join(parts, sep) == "" <==> (|parts| == 0 || (|parts| == 1 && parts[0] == ""))
    ensures |parts| >= 1 && parts[0] != "" ==> Join(parts, sep)[0] == parts[0][0]
    ensures |parts| >= 1 && parts[|parts| - 1] != "" ==>
              var j := Join(parts, sep); j != "" && j[|j| - 1] == parts[|parts| - 1][|parts[|parts| - 1]| - 1]
  {
    if |parts| > 1 {
      JoinEmpty(parts[1..], sep);
      var tail := parts[1..];
      assert tail[|tail| - 1] == parts[|parts| - 1];
      var a, b := parts[0] + sep, Join(tail, sep);
      assert Join(parts, sep) == a + b;
      assert b != "" ==> (a + b)[|a + b| - 1] == b[|b| - 1];
      assert parts[0] != "" ==> (a + b)[0] == parts[0][0];
    }
  }

  lemma {:induction false} JoinNoChar(parts: seq<string>, sep: string, c: char)
    requires c !in sep
    requires forall k :: 0 <= k < |parts| ==> c !in parts[k]
    ensures c !in Join(parts, sep)
  {
    if |parts| > 1 { JoinNoChar(parts[1..], sep, c); }
  }

  // ---------------------------------------------------------------- split on runs of white space

  /** Length of the leading run of non-blank characters. */
  function WordLength(s: string): (n: nat)
    ensures n <= |s|
  {
    if s == [] || IsSpace(s[0]) then 0 else WordLength(s[1..]) + 1
  }

  /** Length of the leading run of blank characters. */
  function BlankLength(s: string): (n: nat)
    ensures n <= |s|
  {
    if s == [] || !IsSpace(s[0]) then 0 else BlankLength(s[1..]) + 1
  }

  /**
   * `s.split(/\s+/)`: the pieces between maximal runs of blanks. A blank-free text is one
   * piece (so `""` gives `[""]`), and the result is never empty.
   */
  function SplitBlanks(s: string): (r: seq<string>)
    ensures |r| >= 1
    decreases |s|
  {
    var i := WordLength(s);
    if i == |s| then [s]
    else [s[..i]] + SplitBlanks(s[i + BlankLength(s[i..])..])
  }

  lemma WordLengthToken(t: string, rest: string)
    requires IsToken(t)
    requires rest == [] || IsSpace(rest[0])
    ensures WordLength(t + rest) == |t|
  {
    if |t| > 1 {
      assert (t + rest)[1..] == t[1..] + rest;
      WordLengthToken(t[1..], rest);
    }
  }

  lemma SplitBlanksCons(t: string, rest: string)
    requires IsToken(t)
    requires rest != [] && !IsSpace(rest[0])
    ensures SplitBlanks(t + " " + rest) == [t] + SplitBlanks(rest)
  {
    var s := t + " " + rest;
    assert s == t + (" " + rest);
    WordLengthToken(t, " " + rest);
    assert s[|t|..] == " " + rest;
    assert (" " + rest)[1..] == rest;
    assert BlankLength(" " + rest) == 1;
    assert s[|t| + 1..] == rest;
    assert s[..|t|] == t;
  }

  /** Tokens joined by single spaces split back into the same tokens. */
  lemma {:induction false} SplitBlanksJoin(tokens: seq<string>)
    requires |tokens| >= 1
    requires forall k :: 0 <= k < |tokens| ==> IsToken(tokens[k])
    ensures SplitBlanks(Join(tokens, " ")) == tokens
  {
    var t := tokens[0];
    if |tokens| == 1 {
      WordLengthToken(t, "");
      assert t + "" == t;
    } else {
      JoinEmpty(tokens[1..], " ");
      SplitBlanksCons(t, Join(tokens[1..], " "));
      SplitBlanksJoin(tokens[1..]);
    }
  }

  lemma {:induction false} JoinTokensTrimmed(tokens: seq<string>)
    requires |tokens| >= 1
    requires forall k :: 0 <= k < |tokens| ==> IsToken(tokens[k])
    ensures Trim(Join(tokens, " ")) == Join(tokens, " ")
  {
    JoinEmpty(tokens, " ");
    TrimNoBlanks(Join(tokens, " "));
  }

  lemma {:induction false} JoinTokensNoChar(tokens: seq<string>, c: char)
    requires IsSpace(c)
    requires forall k :: 0 <= k < |tokens| ==> IsToken(tokens[k])
    ensures c !in Join(tokens, " ") || c == ' '
  {
    if c != ' ' {
      forall k | 0 <= k < |tokens| ensures c !in tokens[k] {
        assert forall j :: 0 <= j < |tokens[k]| ==> tokens[k][j] != c;
      }
      JoinNoChar(tokens, " ", c);
    }
  }

  // ---------------------------------------------------------------- numbers as text

  function Digit(d: nat): char
    requires d < 10
  {
    "0123456789"[d]
  }

  /** The decimal text JavaScript gives a non-negative integer. */
  function NatToString(n: nat): string {
    if n < 10 then [Digit(n)] else NatToString(n / 10) + [Digit(n % 10)]
  }

  /** The decimal text JavaScript gives an integer (`${k}`). */
  function IntToString(k: int): string {
    if k < 0 then "-" + NatToString(-k) else NatToString(k)
  }

  lemma {:induction false} NatToStringDigits(n: nat)
    ensures |NatToString(n)| > 0
    ensures forall k :: 0 <= k < |NatToString(n)| ==> '0' <= NatToString(n)[k] <= '9'
  {
    if n >= 10 {
      NatToStringDigits(n / 10);
    }
  }

  /** An integer's text is one blank-free token: a sign or a digit, then digits. */
  lemma IntToStringToken(k: int)
    ensures IsToken(IntToString(k))
    ensures IntToString(k)[0] == '-' || '0' <= IntToString(k)[0] <= '9'
  {
    NatToStringDigits(if k < 0 then -k else k);
  }

  // ---------------------------------------------------------------- string order

  /** The order of the default `Array.prototype.sort`: code-unit lexicographic order. */
  predicate StrLe(a: string, b: string)
  {
    if a == [] then true
    else if b == [] then false
    else if a[0] != b[0] then a[0] < b[0]
    else StrLe(a[1..], b[1..])
  }

  lemma {:induction false} StrLeTotal(a: string, b: string)
    ensures StrLe(a, b) || StrLe(b, a)
  {
    if a != [] && b != [] && a[0] == b[0] { StrLeTotal(a[1..], b[1..]); }
  }

  lemma {:induction false} StrLeTrans(a: string, b: string, c: string)
    requires StrLe(a, b) && StrLe(b, c)
    ensures StrLe(a, c)
  {
    if a != [] && b != [] && c != [] && a[0] == b[0] && b[0] == c[0] {
      StrLeTrans(a[1..], b[1..], c[1..]);
    }
  }

  // ---------------------------------------------------------------- extension replacement

  /** `s` ends in an extension starting at `p`: a dot followed by one or more characters other than dot and slash. */
  ghost predicate ExtensionAt(s: string, p: int)
  {
    0 <= p && p + 1 < |s| && s[p] == '.'
    && forall k :: p < k < |s| ==> s[k] != '.' && s[k] != '/'
  }

  /** Where the final extension starts, scanning back from the end. */
  function ExtensionStart(s: string): (r: Option<nat>)
    ensures r.Some? ==> r.value < |s|
  {
    if |s| == 0 || s[|s| - 1] == '.' || s[|s| - 1] == '/' then None
    else ExtensionFrom(s, |s| - 1)
  }

  function ExtensionFrom(s: string, i: nat): (r: Option<nat>)
    requires i < |s|
    ensures r.Some? ==> r.value < i
  {
    if i == 0 then None
    else if s[i - 1] == '.' then Some(i - 1)
    else if s[i - 1] == '/' then None
    else ExtensionFrom(s, i - 1)
  }

  /** The scan finds the extension when there is one, and reports none otherwise. */
  lemma ExtensionStartSpec(s: string)
    ensures var r := ExtensionStart(s);
      && (r.Some? ==> ExtensionAt(s, r.value))
      && (r.None? ==> forall p :: !ExtensionAt(s, p))
  {
    if |s| > 0 && s[|s| - 1] != '.' && s[|s| - 1] != '/' {
      ExtensionFromSpec(s, |s| - 1);
    }
  }

  lemma {:induction false} ExtensionFromSpec(s: string, i: nat)
    requires i < |s|
    requires forall k :: i <= k < |s| ==> s[k] != '.' && s[k] != '/'
    ensures var r := ExtensionFrom(s, i);
      && (r.Some? ==> ExtensionAt(s, r.value))
      && (r.None? ==> forall p :: !ExtensionAt(s, p))
  {
    if i == 0 {
    } else if s[i - 1] == '.' {
    } else if s[i - 1] == '/' {
      assert forall p :: !ExtensionAt(s, p);
    } else {
      ExtensionFromSpec(s, i - 1);
    }
  }

  /** `name.replace(/\.[^/.]+$/, '.txt')`. */
  function ReplaceExtension(name: string): (r: string)
  {
    match ExtensionStart(name)
    case Some(p) => name[..p] + ".txt"
    case None => name
  }

  /** The replacement swaps a final extension for `.txt` and leaves every other name alone. */
  lemma ReplaceExtensionSpec(name: string)
    ensures forall p :: ExtensionAt(name, p) ==> ReplaceExtension(name) == name[..p] + ".txt"
    ensures (forall p :: !ExtensionAt(name, p)) ==> ReplaceExtension(name) == name
  {
    ExtensionStartSpec(name);
    match ExtensionStart(name)
    case Some(q) =>
      forall p | ExtensionAt(name, p) ensures p == q {
        assert name[q] == '.' && name[p] == '.';
      }
    case None =>
  }

  lemma ReplaceExtensionExamples()
    ensures ReplaceExtension("a.b.jpg") == "a.b.txt"
    ensures ReplaceExtension("img") == "img"
    ensures ReplaceExtension("img.") == "img."
    ensures ReplaceExtension("v1.0/img") == "v1.0/img"
  {
    assert ExtensionFrom("a.b.jpg", 6) == ExtensionFrom("a.b.jpg", 5) == ExtensionFrom("a.b.jpg", 4) == Some(3);
    assert ExtensionFrom("img", 2) == ExtensionFrom("img", 1) == ExtensionFrom("img", 0) == None;
    assert ExtensionFrom("v1.0/img", 7) == ExtensionFrom("v1.0/img", 6) == ExtensionFrom("v1.0/img", 5) == None;
  }
}
