/** The metadata block a managed request carries in its body. */
module Markers {
  import opened Basics
  import opened Scanning
  import Text

  const OPEN := "<!--"
  const CLOSE := "-->"

  datatype Marker = Marker(
    version: string, graph: string, kind: string, source: string, destination: string, sourceHead: string)

  const NO_MARKER := Marker("", "", "", "", "", "")

  // --------------------------------------------------------------------- writing

  predicate IsControl(c: char) {
    c as int < 0x20 || c as int == 0x7f
  }

  /** Safe to place in a marker line verbatim. */
  predicate ValidValue(v: string) {
    (forall i :: 0 <= i < |v| ==> !IsControl(v[i])) && !Within(v, CLOSE) && !Within(v, OPEN)
  }

  predicate Valid(m: Marker) {
    && ValidValue(m.version) && ValidValue(m.graph) && ValidValue(m.kind)
    && ValidValue(m.source) && ValidValue(m.destination) && ValidValue(m.sourceHead)
  }

  /** No value begins or ends with white space. */
  predicate Tight(m: Marker) {
    && Trimmed(m.version) && Trimmed(m.graph) && Trimmed(m.kind)
    && Trimmed(m.source) && Trimmed(m.destination) && Trimmed(m.sourceHead)
  }

  /** The same marker without the white space around its values. */
  function Tightened(m: Marker): Marker {
    Marker(Trim(m.version), Trim(m.graph), Trim(m.kind), Trim(m.source), Trim(m.destination), Trim(m.sourceHead))
  }

  function Replaced(s: string, token: string, put: string): string
    requires token != []
    decreases |s|
  {
    var cut := Cut(s, token);
    if cut.None? then s else cut.value.before + put + Replaced(cut.value.after, token, put)
  }

  function WithoutControls(s: string): string {
    seq(|s|, i requires 0 <= i < |s| => if IsControl(s[i]) then MARK else s[i])
  }

  /** Defangs whatever could forge a marker line or close the comment. */
  function Sanitize(v: string): string {
    Replaced(Replaced(WithoutControls(v), CLOSE, "--" + [MARK]), OPEN, [MARK] + "!--")
  }

  /** The replacement masks a character of the token that no two overlapping occurrences of it could both do without. */
  predicate Defangs(token: string, put: string) {
    && token != [] && |put| == |token| && Masks(put, token) && MARK !in token
    && forall j {:trigger token[j]} :: 0 <= j < |token| ==>
         token[j] != token[0] || exists k :: j <= k < |token| && put[k] == MARK
  }

  lemma {:induction false} ReplacedMasks(s: string, token: string, put: string)
    requires Defangs(token, put)
    ensures Masks(Replaced(s, token, put), s)
    decreases |s|
  {
    var cut := Cut(s, token);
    if cut.Some? {
      ReplacedMasks(cut.value.after, token, put);
      assert s == cut.value.before + token + cut.value.after;
    }
  }

  /** No occurrence is left: one in the text before, one in what follows, and none across. */
  lemma {:induction false} ReplacedHasNone(s: string, token: string, put: string)
    requires Defangs(token, put)
    ensures !Within(Replaced(s, token, put), token)
    decreases |s|
  {
    var cut := Cut(s, token);
    var r := Replaced(s, token, put);
    if cut.Some? {
      var before, after := cut.value.before, cut.value.after;
      var rest := Replaced(after, token, put);
      ReplacedMasks(s, token, put);
      ReplacedHasNone(after, token, put);
      CutGivesFirst(s, token);
      forall j | 0 <= j <= |r| ensures !At(r, j, token) {
        if |before| + |put| <= j {
          LaterIsInRest(before + put, rest, j, token);
        } else {
          ForeignHere(s, before, token, put, after, rest, j);
        }
      }
    }
  }

  lemma LaterIsInRest(front: string, rest: string, j: nat, token: string)
    requires |front| <= j && !Within(rest, token)
    ensures !At(front + rest, j, token)
  {
    assert !At(rest, j - |front|, token) || j - |front| > |rest|;
    if j + |token| <= |front + rest| {
      assert (front + rest)[j..j + |token|] == rest[j - |front|..j - |front| + |token|];
    }
  }

  /** An occurrence that starts in the text before or in the replacement would be one of the original. */
  lemma ForeignHere(s: string, before: string, token: string, put: string, after: string, rest: string, j: nat)
    requires Defangs(token, put) && s == before + token + after && FirstAt(before, token)
    requires Masks(before + put + rest, s) && j < |before| + |put|
    ensures !At(before + put + rest, j, token)
  {
    var r := before + put + rest;
    if At(r, j, token) { MaskHidesOnly(r, s, j, token); }
    if j < |before| {
      EarlierThanFirst(before, token, after, j);
    } else {
      var d := j - |before|;
      assert s[j] == token[d];
      if token[d] == token[0] {
        var k :| d <= k < |token| && put[k] == MARK;
        assert r[|before| + k] == put[k];
        Mismatch(r, j, token, k - d);
      } else {
        Mismatch(s, j, token, 0);
      }
    }
  }

  lemma EarlierThanFirst(before: string, token: string, after: string, j: nat)
    requires FirstAt(before, token) && j < |before|
    ensures !At(before + token + after, j, token)
  {
    AtIsLocal(before + token, after, j, token);
  }

  lemma CommentsAreDefanged()
    ensures Defangs(CLOSE, "--" + [MARK]) && Defangs(OPEN, [MARK] + "!--")
  {
    assert ("--" + [MARK])[2] == MARK && ([MARK] + "!--")[0] == MARK;
  }

  /** Sanitizing masks characters, and the result is always safe to place in a marker line. */
  lemma SanitizedIsValid(v: string)
    ensures ValidValue(Sanitize(v)) && Masks(Sanitize(v), v)
  {
    var plain := WithoutControls(v);
    var unclosed := Replaced(plain, CLOSE, "--" + [MARK]);
    CommentsAreDefanged();
    ReplacedMasks(plain, CLOSE, "--" + [MARK]);
    ReplacedHasNone(plain, CLOSE, "--" + [MARK]);
    ReplacedMasks(unclosed, OPEN, [MARK] + "!--");
    ReplacedHasNone(unclosed, OPEN, [MARK] + "!--");
    MaskAddsNothing(Sanitize(v), unclosed, CLOSE);
    MasksTwice(Sanitize(v), unclosed, plain);
    MasksTwice(Sanitize(v), plain, v);
    assert forall i :: 0 <= i < |v| ==> !IsControl(plain[i]);
  }

  /** Sanitizing leaves exactly the valid values alone. */
  lemma ValidIsUnchanged(v: string)
    ensures Sanitize(v) == v <==> ValidValue(v)
  {
    SanitizedIsValid(v);
    if ValidValue(v) { assert WithoutControls(v) == v; }
  }

  function Line(key: string, v: string): string {
    "  " + key + ": " + v
  }

  datatype Field = Field(key: string, value: string)

  function Fields(m: Marker): seq<Field> {
    [Field("version", m.version), Field("graph", m.graph), Field("type", m.kind),
     Field("source", m.source), Field("destination", m.destination), Field("sourceHead", m.sourceHead)]
  }

  function FieldText(fs: seq<Field>): string {
    if fs == [] then "" else Line(fs[0].key, fs[0].value) + "\n" + FieldText(fs[1..])
  }

  /** What the comment holds between its delimiters. */
  function Inner(m: Marker): string {
    "" + "\n" + ("oiax:" + "\n" + FieldText(Fields(m)))
  }

  function Sanitized(m: Marker): Marker {
    Marker(Sanitize(m.version), Sanitize(m.graph), Sanitize(m.kind), Sanitize(m.source), Sanitize(m.destination),
          Sanitize(m.sourceHead))
  }

  function Serialize(m: Marker): string {
    OPEN + Inner(Sanitized(m)) + CLOSE
  }

  // --------------------------------------------------------------------- reading

  /** Whether some line is exactly the marker's top-level key. */
  predicate HasKey(inner: string) {
    exists i :: 0 <= i < |Lines(inner)| && Trim(Lines(inner)[i]) == "oiax:"
  }

  datatype Block = Block(before: string, inner: string, after: string)

  /** A text with a comment in it. */
  function Around(before: string, inner: string, after: string): string {
    before + (OPEN + (inner + (CLOSE + after)))
  }

  /** The first comment that has the key, comment by comment; an unclosed comment ends the search. */
  function Bounds(body: string): Option<Block>
    decreases |body|
  {
    var open := Cut(body, OPEN);
    if open.None? then None
    else
      var close := Cut(open.value.after, CLOSE);
      if close.None? then None
      else if HasKey(close.value.before) then Some(Block(open.value.before, close.value.before, close.value.after))
      else
        var rest := Bounds(close.value.after);
        if rest.None? then None
        else Some(Block(Around(open.value.before, close.value.before, rest.value.before), rest.value.inner,
                        rest.value.after))
  }

  datatype Reading = Reading(marker: Marker, found: bool)

  /** One line of a block; known keys are recognised at any depth, and a later line wins. */
  function ReadLine(r: Reading, line: string): Reading {
    var cut := Cut(Trim(line), ":");
    if cut.None? then r
    else
      var key, v := Trim(cut.value.before), Trim(cut.value.after);
      if key == "oiax" then r.(found := true)
      else if key == "version" then r.(marker := r.marker.(version := v))
      else if key == "graph" then r.(marker := r.marker.(graph := v))
      else if key == "type" then r.(marker := r.marker.(kind := v))
      else if key == "source" then r.(marker := r.marker.(source := v))
      else if key == "destination" then r.(marker := r.marker.(destination := v))
      else if key == "sourceHead" then r.(marker := r.marker.(sourceHead := v))
      else r
  }

  function ReadLines(r: Reading, lines: seq<string>): Reading
    decreases |lines|
  {
    if lines == [] then r else ReadLines(ReadLine(r, lines[0]), lines[1..])
  }

  function ParseInner(inner: string): Reading {
    ReadLines(Reading(NO_MARKER, false), Lines(inner))
  }

  function Parse(body: string): Option<Marker> {
    var block := Bounds(body);
    if block.None? then None
    else
      var r := ParseInner(block.value.inner);
      if r.found then Some(r.marker) else None
  }

  function Replace(body: string, m: Marker): Option<string> {
    var block := Bounds(body);
    if block.None? then None else Some(block.value.before + Serialize(m) + block.value.after)
  }

  // ---------------------------------------------------------------- one line at a time

  predicate PlainKey(key: string) {
    key != [] && forall i :: 0 <= i < |key| ==> 'a' <= key[i] <= 'z' || 'A' <= key[i] <= 'Z'
  }

  lemma LineTrims(key: string, v: string)
    requires PlainKey(key)
    ensures Trim(Line(key, v)) == key + ":" + TrimRight(" " + v)
  {
    var line, rest := Line(key, v), key + ": " + v;
    assert line[1..] == " " + rest && line[1..][1..] == rest;
    assert rest[0] == key[0] && !IsSpace(rest[0]);
    assert TrimLeft(line[1..]) == TrimLeft(rest) == rest;
    assert rest == key + ":" + (" " + v);
    TrimRightJoins(key + ":", " " + v);
  }

  lemma LineReads(r: Reading, key: string, v: string)
    requires PlainKey(key)
    ensures Cut(Trim(Line(key, v)), ":") == Some(Parts(key, TrimRight(" " + v)))
    ensures Trim(key) == key && Trim(TrimRight(" " + v)) == Trim(v)
  {
    LineTrims(key, v);
    forall j: nat | j < |key| ensures !At(key + ":", j, ":") { Mismatch(key + ":", j, ":", 0); }
    CutIsFirst(key, ":", TrimRight(" " + v));
    TrimmedStays(key);
    TrimLeaves(v);
  }

  // ----------------------------------------------------------------- the whole block

  predicate CleanField(f: Field) {
    PlainKey(f.key) && ValidValue(f.value)
  }

  lemma LineIsClean(f: Field)
    requires CleanField(f)
    ensures '\n' !in Line(f.key, f.value) && !Within(Line(f.key, f.value), CLOSE)
  {
    ForeignWithout("  " + f.key + ": ", CLOSE);
    JoinedWithout("  " + f.key + ": ", f.value, CLOSE);
  }

  function FieldLines(fs: seq<Field>): seq<string> {
    if fs == [] then [""] else [Line(fs[0].key, fs[0].value)] + FieldLines(fs[1..])
  }

  lemma EmptyText()
    ensures Lines("") == [""] && !Within("", CLOSE) && '\n' !in ""
  {
    ForeignWithout("", CLOSE);
    ForeignWithout("", "\n");
  }

  lemma {:induction false} FieldTextIsClean(fs: seq<Field>)
    requires forall i :: 0 <= i < |fs| ==> CleanField(fs[i])
    ensures Lines(FieldText(fs)) == FieldLines(fs) && !Within(FieldText(fs), CLOSE)
    ensures fs != [] ==> EndsLine(FieldText(fs))
  {
    hide Lines, Within, Line, CleanField;
    if fs == [] {
      EmptyText();
    } else {
      var line, rest := Line(fs[0].key, fs[0].value), FieldText(fs[1..]);
      LineIsClean(fs[0]);
      FieldTextIsClean(fs[1..]);
      LineFirst(line, rest);
      LineJoins(line, rest);
    }
  }

  predicate EndsLine(s: string) {
    s != [] && s[|s| - 1] == '\n'
  }

  lemma LineJoins(line: string, rest: string)
    requires !Within(line, CLOSE) && !Within(rest, CLOSE) && (rest == [] || EndsLine(rest))
    ensures !Within(line + "\n" + rest, CLOSE) && EndsLine(line + "\n" + rest)
  {
    ForeignWithout("\n", CLOSE);
    JoinedWithout(line, "\n", CLOSE);
    JoinedWithout(line + "\n", rest, CLOSE);
  }

  lemma FieldsAreClean(m: Marker)
    requires Valid(m)
    ensures forall i :: 0 <= i < |Fields(m)| ==> CleanField(Fields(m)[i])
  {
    hide ValidValue;
  }

  /** The lines of a valid block are lines of their own, and none closes the comment. */
  lemma BlockIsClean(m: Marker)
    requires Valid(m)
    ensures Lines(Inner(m)) == ["", "oiax:"] + FieldLines(Fields(m))
    ensures FirstAt(Inner(m), CLOSE)
  {
    hide Lines, Within, FieldText, FieldLines;
    var text := FieldText(Fields(m));
    FieldsAreClean(m);
    FieldTextIsClean(Fields(m));
    LineFirst("oiax:", text);
    LineFirst("", "oiax:" + "\n" + text);
    ForeignWithout("oiax:", CLOSE);
    ForeignWithout("", CLOSE);
    LineJoins("oiax:", text);
    LineJoins("", "oiax:" + "\n" + text);
    FirstBehind(Inner(m), CLOSE);
  }

  // ------------------------------------------------------------------- reading it back

  function Assign(r: Reading, f: Field): Reading {
    var v := Trim(f.value);
    if f.key == "version" then r.(marker := r.marker.(version := v))
    else if f.key == "graph" then r.(marker := r.marker.(graph := v))
    else if f.key == "type" then r.(marker := r.marker.(kind := v))
    else if f.key == "source" then r.(marker := r.marker.(source := v))
    else if f.key == "destination" then r.(marker := r.marker.(destination := v))
    else if f.key == "sourceHead" then r.(marker := r.marker.(sourceHead := v))
    else r
  }

  function AssignAll(r: Reading, fs: seq<Field>): Reading
    decreases |fs|
  {
    if fs == [] then r else AssignAll(Assign(r, fs[0]), fs[1..])
  }

  predicate KnownField(f: Field) {
    PlainKey(f.key) && f.key != "oiax"
  }

  lemma LineAssigns(r: Reading, f: Field)
    requires KnownField(f)
    ensures ReadLine(r, Line(f.key, f.value)) == Assign(r, f)
  {
    hide Cut, Trim, Line;
    LineReads(r, f.key, f.value);
  }

  lemma EmptyLineReadsNothing(r: Reading)
    ensures ReadLine(r, "") == r
  {
    ForeignWithout("", ":");
  }

  lemma {:induction false} FieldsAssign(r: Reading, fs: seq<Field>)
    requires forall i :: 0 <= i < |fs| ==> KnownField(fs[i])
    ensures ReadLines(r, FieldLines(fs)) == AssignAll(r, fs)
    decreases |fs|
  {
    hide ReadLine, Line, Assign;
    if fs == [] {
      EmptyLineReadsNothing(r);
    } else {
      LineAssigns(r, fs[0]);
      FieldsAssign(Assign(r, fs[0]), fs[1..]);
    }
  }

  lemma KeyLine(r: Reading)
    ensures Trim("oiax:") == "oiax:" && ReadLine(r, "oiax:") == r.(found := true)
  {
    TrimmedStays("oiax:");
    TrimmedStays("oiax");
    forall j: nat | j < 4 ensures !At("oiax" + ":", j, ":") { Mismatch("oiax" + ":", j, ":", 0); }
    CutIsFirst("oiax", ":", "");
    assert "oiax" + ":" + "" == "oiax:";
  }

  lemma SixFields(m: Marker, r: Reading)
    ensures AssignAll(r, Fields(m)) == r.(marker := Tightened(m))
  {
    hide Trim;
    var fs := Fields(m);
    var r1 := Assign(r, fs[0]);
    var r2 := Assign(r1, fs[1]);
    var r3 := Assign(r2, fs[2]);
    var r4 := Assign(r3, fs[3]);
    var r5 := Assign(r4, fs[4]);
    assert AssignAll(r, fs) == AssignAll(r1, fs[1..]);
    assert AssignAll(r1, fs[1..]) == AssignAll(r2, fs[2..]) by { assert fs[1..][1..] == fs[2..]; }
    assert AssignAll(r2, fs[2..]) == AssignAll(r3, fs[3..]) by { assert fs[2..][1..] == fs[3..]; }
    assert AssignAll(r3, fs[3..]) == AssignAll(r4, fs[4..]) by { assert fs[3..][1..] == fs[4..]; }
    assert AssignAll(r4, fs[4..]) == AssignAll(r5, fs[5..]) by { assert fs[4..][1..] == fs[5..]; }
    assert AssignAll(r5, fs[5..]) == Assign(r5, fs[5]) by { assert fs[5..][1..] == []; }
  }

  /** Reading what was written gives the same marker, the white space around its values apart. */
  lemma InnerReadsBack(m: Marker)
    requires Valid(m)
    ensures ParseInner(Inner(m)) == Reading(Tightened(m), true) && HasKey(Inner(m))
  {
    hide ReadLine, Lines, Inner, FieldLines, AssignAll, Trim;
    BlockIsClean(m);
    var start := Reading(NO_MARKER, false);
    KeyLine(start);
    EmptyLineReadsNothing(start);
    var lines := Lines(Inner(m));
    assert lines[1] == "oiax:";
    assert lines[0] == "" && lines[1..][0] == "oiax:" && lines[1..][1..] == FieldLines(Fields(m));
    assert ReadLines(start, lines) == ReadLines(start, lines[1..])
        == ReadLines(start.(found := true), FieldLines(Fields(m)));
    FieldsAssign(start.(found := true), Fields(m));
    SixFields(m, start.(found := true));
  }

  /** What reading gives of a marker that was written, whatever its values hold. */
  function Written(m: Marker): Marker {
    Tightened(Sanitized(m))
  }

  lemma SanitizedMarkerIsValid(m: Marker)
    ensures Valid(Sanitized(m))
  {
    SanitizedIsValid(m.version); SanitizedIsValid(m.graph); SanitizedIsValid(m.kind);
    SanitizedIsValid(m.source); SanitizedIsValid(m.destination); SanitizedIsValid(m.sourceHead);
  }

  /** A value is read back as it was given exactly when it is valid and neither begins nor ends with white space. */
  lemma ValueIsKeptExactly(v: string)
    ensures Trim(Sanitize(v)) == v <==> ValidValue(v) && Trimmed(v)
  {
    hide Trim, Trimmed, Sanitize, IsControl;
    ValidIsUnchanged(v);
    SanitizedIsValid(v);
    TrimLeaves(Sanitize(v));
    if ValidValue(v) && Trimmed(v) { TrimmedStays(v); }
    if Trim(Sanitize(v)) == v { PartIsValid(v, Sanitize(v)); }
  }

  lemma PartIsValid(part: string, v: string)
    requires Within(v, part) && ValidValue(v)
    ensures ValidValue(part)
  {
    var i :| 0 <= i <= |v| && At(v, i, part);
    forall j | 0 <= j < |part| ensures !IsControl(part[j]) {
      assert part[j] == v[i..i + |part|][j] == v[i + j];
    }
    PartHasNone(part, v, i, CLOSE);
    PartHasNone(part, v, i, OPEN);
  }

  lemma PartHasNone(part: string, v: string, i: nat, token: string)
    requires At(v, i, part) && !Within(v, token)
    ensures !Within(part, token)
  {
    forall j | 0 <= j <= |part| ensures !At(part, j, token) {
      if At(part, j, token) { PartIsAt(part, v, i, j, token); }
    }
  }

  lemma PartIsAt(part: string, v: string, i: nat, j: nat, token: string)
    requires At(v, i, part) && At(part, j, token)
    ensures At(v, i + j, token)
  {
    forall k | 0 <= k < |token| ensures v[i + j + k] == token[k] {
      assert part[j..j + |token|][k] == part[j + k] && v[i..i + |part|][j + k] == v[i + j + k];
    }
    assert v[i + j..i + j + |token|] == token;
  }

  /** The marker read back is the one written exactly when its values are valid and tight. */
  lemma WrittenIsSameExactly(m: Marker)
    ensures Written(m) == m <==> Valid(m) && Tight(m)
  {
    hide Trim, Trimmed, Sanitize, ValidValue;
    ValueIsKeptExactly(m.version); ValueIsKeptExactly(m.graph); ValueIsKeptExactly(m.kind);
    ValueIsKeptExactly(m.source); ValueIsKeptExactly(m.destination); ValueIsKeptExactly(m.sourceHead);
  }

  // ---------------------------------------------------------------- comment by comment

  /** The first comment of a text, when it is closed. */
  lemma FirstComment(before: string, inner: string, after: string)
    requires FirstAt(before, OPEN) && FirstAt(inner, CLOSE)
    ensures Cut(Around(before, inner, after), OPEN) == Some(Parts(before, inner + (CLOSE + after)))
    ensures Cut(inner + (CLOSE + after), CLOSE) == Some(Parts(inner, after))
  {
    hide Cut, FirstAt, At;
    CutIsFirst(before, OPEN, inner + (CLOSE + after));
    RightAssociative(before, OPEN, inner + (CLOSE + after));
    CutIsFirst(inner, CLOSE, after);
    RightAssociative(inner, CLOSE, after);
  }

  /** A text as its first closed comment and what surrounds it. */
  lemma CommentParts(body: string)
    requires Cut(body, OPEN).Some? && Cut(Cut(body, OPEN).value.after, CLOSE).Some?
    ensures var open := Cut(body, OPEN).value;
            var close := Cut(open.after, CLOSE).value;
            && body == Around(open.before, close.before, close.after)
            && FirstAt(open.before, OPEN) && FirstAt(close.before, CLOSE)
  {
    hide Cut, FirstAt, At;
    CutGivesFirst(body, OPEN);
    CutGivesFirst(Cut(body, OPEN).value.after, CLOSE);
    var open := Cut(body, OPEN).value;
    var close := Cut(open.after, CLOSE).value;
    RightAssociative(open.before, OPEN, open.after);
    RightAssociative(close.before, CLOSE, close.after);
  }

  lemma RightAssociative(a: string, b: string, c: string)
    ensures a + b + c == a + (b + c)
  {
  }

  lemma AroundJoins(a: string, inner: string, before: string, other: string, after: string)
    ensures Around(a, inner, Around(before, other, after)) == Around(Around(a, inner, before), other, after)
  {
    assert a + (OPEN + (inner + (CLOSE + (before + (OPEN + (other + (CLOSE + after)))))))
           == (a + (OPEN + (inner + (CLOSE + before)))) + (OPEN + (other + (CLOSE + after)));
  }

  /** The text outside the block, and the block, make up the body. */
  lemma {:induction false} BoundsAreExact(body: string)
    requires Bounds(body).Some?
    ensures var b := Bounds(body).value;
            body == Around(b.before, b.inner, b.after) && HasKey(b.inner) && FirstAt(b.inner, CLOSE)
    decreases |body|
  {
    hide HasKey, Around;
    CommentParts(body);
    var open := Cut(body, OPEN).value;
    var close := Cut(open.after, CLOSE).value;
    if !HasKey(close.before) {
      var rest := Bounds(close.after).value;
      BoundsAreExact(close.after);
      AroundJoins(open.before, close.before, rest.before, rest.inner, rest.after);
    }
  }

  /** Putting another keyed comment in the block's place leaves it the first one. */
  lemma {:induction false} ReplacedBounds(body: string, inner: string)
    requires Bounds(body).Some? && HasKey(inner) && FirstAt(inner, CLOSE)
    ensures var b := Bounds(body).value;
            Bounds(Around(b.before, inner, b.after)) == Some(Block(b.before, inner, b.after))
    decreases |body|
  {
    hide HasKey, Around;
    CommentParts(body);
    var open := Cut(body, OPEN).value;
    var close := Cut(open.after, CLOSE).value;
    if HasKey(close.before) {
      FirstComment(open.before, inner, close.after);
      AroundIsLonger(open.before, inner, close.after);
    } else {
      var rest := Bounds(close.after).value;
      ReplacedBounds(close.after, inner);
      AroundJoins(open.before, close.before, rest.before, inner, rest.after);
      FirstComment(open.before, close.before, Around(rest.before, inner, rest.after));
    }
  }

  lemma AroundIsLonger(before: string, inner: string, after: string)
    ensures |Around(before, inner, after)| == |before| + |inner| + |after| + 7
  {
  }

  /** Whatever its values hold, a marker is written as one closed comment that has the key and is no origin. */
  lemma SerializedIsComment(m: Marker)
    ensures forall before, after :: before + Serialize(m) + after == Around(before, Inner(Sanitized(m)), after)
    ensures FirstAt(Inner(Sanitized(m)), CLOSE) && HasKey(Inner(Sanitized(m))) && !IsOrigin(Inner(Sanitized(m)))
    ensures ParseInner(Inner(Sanitized(m))) == Reading(Written(m), true)
  {
    hide HasKey, Inner, Sanitize, IsOrigin, ParseInner, FirstAt, Valid, Tightened;
    var inner := Inner(Sanitized(m));
    SanitizedMarkerIsValid(m);
    BlockIsClean(Sanitized(m));
    InnerReadsBack(Sanitized(m));
    MarkerIsNoOrigin(Sanitized(m));
    forall before, after ensures before + Serialize(m) + after == Around(before, inner, after) {
      assert before + (OPEN + inner + CLOSE) + after == before + (OPEN + (inner + (CLOSE + after)));
    }
  }

  /**
   * Rewriting the block of a body: the new marker is what is read back, and every
   * character outside the block stays where it was.
   */
  lemma ReplaceThenParse(body: string, m: Marker)
    requires Bounds(body).Some?
    ensures Replace(body, m).Some? && Parse(Replace(body, m).value) == Some(Written(m))
    ensures var b := Bounds(body).value;
            && body == Around(b.before, b.inner, b.after)
            && Replace(body, m).value == Around(b.before, Inner(Sanitized(m)), b.after)
  {
    hide Around, Bounds, HasKey, Serialize, Inner, Written, Sanitized, IsOrigin;
    BoundsAreExact(body);
    SerializedIsComment(m);
    ReplacedBounds(body, Inner(Sanitized(m)));
  }

  // --------------------------------------------------------------- appending the block

  /** A rendered body the block may be appended to: every comment is closed and none has the key. */
  predicate Safe(body: string)
    decreases |body|
  {
    var open := Cut(body, OPEN);
    open.None? ||
    (var close := Cut(open.value.after, CLOSE);
     close.Some? && !HasKey(close.value.before) && Safe(close.value.after))
  }

  const GAP := "\n\n"

  lemma GapIsForeign(s: string, token: string)
    requires (token == OPEN || token == CLOSE) && !Within(s, token)
    ensures FirstAt(s + GAP, token)
  {
    ForeignWithout(GAP, token);
    JoinedWithout(s, GAP, token);
    FirstBehind(s + GAP, token);
  }

  /** An unclosed comment swallows whatever is appended. */
  lemma UnclosedSwallows(x: string, more: string)
    requires !Within(x, CLOSE) && Cut(x + GAP + more, CLOSE).Some?
    ensures |Cut(x + GAP + more, CLOSE).value.before| >= |x|
  {
    var all := x + GAP + more;
    var p := |Cut(all, CLOSE).value.before|;
    GapIsForeign(x, CLOSE);
    assert At(all, p, CLOSE);
    if p + 3 <= |x + GAP| {
      AtIsLocal(x + GAP, more, p, CLOSE);
      AtIsLocal(x + GAP, CLOSE, p, CLOSE);
    }
  }

  /** Appending behind an unclosed comment: whatever block is found starts in the body. */
  lemma UnclosedHidesBlock(body: string, inner: string, tail: string)
    requires Cut(body, OPEN).Some? && Cut(Cut(body, OPEN).value.after, CLOSE).None?
    ensures var found := Bounds(Around(body + GAP, inner, tail));
            found.Some? ==> |found.value.before| != |body + GAP|
  {
    hide Cut, FirstAt, At, HasKey, Within;
    var open := Cut(body, OPEN).value;
    var more := OPEN + (inner + (CLOSE + tail));
    var rest := open.after + GAP + more;
    CutGivesFirst(body, OPEN);
    CutIsFirst(open.before, OPEN, rest);
    assert Around(body + GAP, inner, tail) == open.before + OPEN + rest;
    if Cut(rest, CLOSE).Some? { UnclosedSwallows(open.after, more); }
  }

  /** Appending behind a closed comment: it is the first one of the whole body too. */
  lemma ClosedComesFirst(body: string, inner: string, tail: string)
    requires Cut(body, OPEN).Some? && Cut(Cut(body, OPEN).value.after, CLOSE).Some?
    ensures var open := Cut(body, OPEN).value;
            var close := Cut(open.after, CLOSE).value;
            && body + GAP == Around(open.before, close.before, close.after + GAP)
            && Cut(Around(body + GAP, inner, tail), OPEN)
               == Some(Parts(open.before, close.before + (CLOSE + Around(close.after + GAP, inner, tail))))
            && Cut(close.before + (CLOSE + Around(close.after + GAP, inner, tail)), CLOSE)
               == Some(Parts(close.before, Around(close.after + GAP, inner, tail)))
  {
    hide Cut, FirstAt, At;
    CommentParts(body);
    var open := Cut(body, OPEN).value;
    var close := Cut(open.after, CLOSE).value;
    AroundEnds(open.before, close.before, close.after, GAP);
    AroundJoins(open.before, close.before, close.after + GAP, inner, tail);
    FirstComment(open.before, close.before, Around(close.after + GAP, inner, tail));
  }

  lemma AroundEnds(before: string, inner: string, after: string, more: string)
    ensures Around(before, inner, after) + more == Around(before, inner, after + more)
  {
  }

  /** An appended block is found, as a block of its own behind the whole body, exactly when the body is safe. */
  lemma {:induction false} AppendedCommentIsFound(body: string, inner: string, tail: string)
    requires FirstAt(inner, CLOSE) && HasKey(inner)
    ensures Bounds(Around(body + GAP, inner, tail)) == Some(Block(body + GAP, inner, tail)) <==> Safe(body)
    decreases |body|
  {
    hide HasKey, Cut, FirstAt, Within, Around;
    var open := Cut(body, OPEN);
    if open.None? {
      GapIsForeign(body, OPEN);
      FirstComment(body + GAP, inner, tail);
    } else if Cut(open.value.after, CLOSE).None? {
      UnclosedHidesBlock(body, inner, tail);
    } else {
      var close := Cut(open.value.after, CLOSE).value;
      ClosedComesFirst(body, inner, tail);
      AroundIsLonger(open.value.before, close.before, close.after + GAP);
      AppendedCommentIsFound(close.after, inner, tail);
      if Bounds(Around(close.after + GAP, inner, tail)).Some? {
        AroundIsInjective(open.value.before, close.before,
              Bounds(Around(close.after + GAP, inner, tail)).value.before, close.after + GAP);
      }
    }
  }

  lemma AppendedBlockIsFound(body: string, m: Marker, tail: string)
    ensures Bounds(body + GAP + Serialize(m) + tail) == Some(Block(body + GAP, Inner(Sanitized(m)), tail))
            <==> Safe(body)
  {
    hide HasKey, Inner, Serialize, Around, Bounds, FirstAt, ParseInner, Sanitized, Written, IsOrigin, Safe;
    SerializedIsComment(m);
    AppendedCommentIsFound(body, Inner(Sanitized(m)), tail);
  }

  lemma AroundIsInjective(before: string, inner: string, a: string, b: string)
    ensures Around(before, inner, a) == Around(before, inner, b) <==> a == b
  {
    var p := before + (OPEN + (inner + CLOSE));
    assert Around(before, inner, a) == p + a && Around(before, inner, b) == p + b;
    assert (p + a)[|p|..] == a && (p + b)[|p|..] == b;
  }

  /** A safe body with the block appended, and perhaps more behind it, gives back the marker. */
  lemma AppendThenParse(body: string, m: Marker, tail: string)
    requires Safe(body)
    ensures Parse(body + GAP + Serialize(m) + tail) == Some(Written(m))
  {
    hide Bounds, HasKey, Inner, Serialize, Around, Sanitized, Written, IsOrigin, Safe;
    SerializedIsComment(m);
    AppendedBlockIsFound(body, m, tail);
  }

  /** Placed before the body the block is found whatever the body holds. */
  lemma PrependThenParse(m: Marker, body: string)
    ensures Parse(Serialize(m) + body) == Some(Written(m))
  {
    hide HasKey, Inner, Serialize, Around, Bounds, FirstAt, ParseInner, Sanitized, Written, IsOrigin;
    SerializedIsComment(m);
    assert "" + Serialize(m) + body == Serialize(m) + body;
    Prepended(Inner(Sanitized(m)), body);
  }

  lemma Prepended(inner: string, after: string)
    requires HasKey(inner) && FirstAt(inner, CLOSE)
    ensures Bounds(Around("", inner, after)) == Some(Block("", inner, after))
  {
    FirstComment("", inner, after);
  }

  // ---------------------------------------------------------------- the second block

  const ORIGIN_KEY := "oiax-notification-origin"
  const MAX_ORIGIN_BYTES := 4096

  datatype OriginAnswer = OriginAnswer(block: string, count: nat, complete: bool)

  predicate IsOrigin(inner: string) {
    ORIGIN_KEY <= Trim(inner)
  }

  /** The reserved comment: a second copy, an unclosed one or an oversize one makes the answer incomplete. */
  function OriginBlock(body: string, block: string, count: nat): OriginAnswer
    decreases |body|
  {
    var open := Cut(body, OPEN);
    if open.None? then OriginAnswer(block, count, true)
    else
      var close := Cut(open.value.after, CLOSE);
      var inner := if close.Some? then close.value.before else open.value.after;
      if IsOrigin(inner) then
        if close.None? || count > 0 || Text.ByteLen(inner) + 7 > MAX_ORIGIN_BYTES
        then OriginAnswer("", count + 1, false)
        else OriginBlock(close.value.after, Trim(inner), count + 1)
      else if close.None? then OriginAnswer(block, count, false)
      else OriginBlock(close.value.after, block, count)
  }

  /** One closed comment of a text, as the origin scan sees it. */
  lemma OriginStep(before: string, inner: string, after: string, block: string, count: nat)
    requires FirstAt(before, OPEN) && FirstAt(inner, CLOSE)
    ensures OriginBlock(Around(before, inner, after), block, count)
            == if !IsOrigin(inner) then OriginBlock(after, block, count)
               else if count > 0 || Text.ByteLen(inner) + 7 > MAX_ORIGIN_BYTES then OriginAnswer("", count + 1, false)
               else OriginBlock(after, Trim(inner), count + 1)
  {
    hide Cut, FirstAt, At, Around, IsOrigin, Trim, Text.ByteLen;
    FirstComment(before, inner, after);
  }

  /** The scan of the rest, after what came before it. */
  function ScanOn(inner: string, after: string, block: string, count: nat): OriginAnswer {
    if !IsOrigin(inner) then OriginBlock(after, block, count)
    else if count > 0 || Text.ByteLen(inner) + 7 > MAX_ORIGIN_BYTES then OriginAnswer("", count + 1, false)
    else OriginBlock(after, Trim(inner), count + 1)
  }

  /** A comment in the marker block's place: the scan is that of the text before it, carried on if that is complete. */
  lemma {:induction false} ScansInTwo(body: string, inner: string, block: string, count: nat)
    requires Bounds(body).Some? && FirstAt(inner, CLOSE)
    ensures var b := Bounds(body).value;
            var before := OriginBlock(b.before, block, count);
            OriginBlock(Around(b.before, inner, b.after), block, count)
            == if before.complete then ScanOn(inner, b.after, before.block, before.count) else before
    decreases |body|
  {
    hide HasKey, Around, IsOrigin, Trim, Text.ByteLen, OriginBlock, Cut, FirstAt, At;
    CommentParts(body);
    var open := Cut(body, OPEN).value;
    var close := Cut(open.after, CLOSE).value;
    if HasKey(close.before) {
      OriginStep(open.before, inner, close.after, block, count);
      NothingBefore(open.before, block, count);
    } else {
      var rest := Bounds(close.after).value;
      AroundJoins(open.before, close.before, rest.before, inner, rest.after);
      OriginStep(open.before, close.before, Around(rest.before, inner, rest.after), block, count);
      OriginStep(open.before, close.before, rest.before, block, count);
      if IsOrigin(close.before) {
        ScansInTwo(close.after, inner, Trim(close.before), count + 1);
      } else {
        ScansInTwo(close.after, inner, block, count);
      }
    }
  }

  lemma NothingBefore(before: string, block: string, count: nat)
    requires FirstAt(before, OPEN)
    ensures OriginBlock(before, block, count) == OriginAnswer(block, count, true)
  {
    if Within(before, OPEN) {
      var j :| 0 <= j <= |before| && At(before, j, OPEN);
      AtIsLocal(before, OPEN, j, OPEN);
    }
  }

  /** What is scanned after one origin, against scanning it afresh. */
  lemma {:induction false} ScanAfterOne(body: string, block: string)
    ensures var afresh := OriginBlock(body, "", 0);
            && afresh.count <= 2 && (afresh.count == 2 ==> afresh == OriginAnswer("", 2, false))
            && OriginBlock(body, block, 1)
               == (if afresh.count == 0 then OriginAnswer(block, 1, afresh.complete) else OriginAnswer("", 2, false))
    decreases |body|
  {
    hide IsOrigin, Text.ByteLen, Trim;
    if Cut(body, OPEN).Some? && Cut(Cut(body, OPEN).value.after, CLOSE).Some? {
      var close := Cut(Cut(body, OPEN).value.after, CLOSE).value;
      ScanAfterOne(close.after, block);
      ScanAfterOne(close.after, Trim(close.before));
    }
  }

  /** The texts around the marker block give the scan the very answer it gives with the block as an origin. */
  predicate AnswersAlone(b: Block) {
    var before, after := OriginBlock(b.before, "", 0), OriginBlock(b.after, "", 0);
    if !before.complete then true
    else if before.count > 0 then after.count > 0
    else if Text.ByteLen(b.inner) + 7 > MAX_ORIGIN_BYTES then after == OriginAnswer("", 1, false)
    else after.count == 2
  }

  lemma MarkerIsNoOrigin(m: Marker)
    ensures !IsOrigin(Inner(m))
  {
    hide FieldText;
    var text := "oiax:" + "\n" + FieldText(Fields(m));
    assert Inner(m)[0] == '\n' && Inner(m)[1..] == text;
    assert text[4] == ':' && TrimLeft(text) == text;
    TrimRightKeeps(text, 4);
    assert Trim(Inner(m))[4] == ':' && ORIGIN_KEY[4] == '-';
  }

  /**
   * Rewriting the marker leaves the origin scan's answer as it was exactly when
   * the marker block was not itself an origin block, or the text around it gives
   * the same answer without it. For a body the scan reads to its end, only the
   * former.
   */
  lemma ReplaceKeepsOrigin(body: string, m: Marker)
    requires Bounds(body).Some?
    ensures var b := Bounds(body).value;
            OriginBlock(Replace(body, m).value, "", 0) == OriginBlock(body, "", 0)
            <==> !IsOrigin(b.inner) || AnswersAlone(b)
    ensures OriginBlock(body, "", 0).complete ==>
              !IsOrigin(Bounds(body).value.inner) || !AnswersAlone(Bounds(body).value)
  {
    hide Bounds, HasKey, Inner, Serialize, Around, OriginBlock, IsOrigin, Sanitized, Written, Trim, ParseInner;
    hide Text.ByteLen;
    var b := Bounds(body).value;
    BoundsAreExact(body);
    SerializedIsComment(m);
    ScansInTwo(body, b.inner, "", 0);
    ScansInTwo(body, Inner(Sanitized(m)), "", 0);
    ScanAfterOne(b.before, "");
    ScanAfterOne(b.after, OriginBlock(b.before, "", 0).block);
    ScanAfterOne(b.after, Trim(b.inner));
    if OriginBlock(b.before, "", 0).complete && OriginBlock(b.before, "", 0).count == 0 {
      ZeroMeansNone(b.before, "");
    }
  }

  /** A comment that is both at once, and what rewriting it does. */
  lemma OriginLostWithMarker(m: Marker)
    ensures var inner := ORIGIN_KEY + "\n" + "oiax:" + "\n";
            var body := Around("", inner, "");
            && Bounds(body) == Some(Block("", inner, "")) && IsOrigin(inner)
            && OriginBlock(body, "", 0).complete && OriginBlock(body, "", 0).count == 1
            && OriginBlock(Replace(body, m).value, "", 0) == OriginAnswer("", 0, true)
  {
    hide Cut, Lines, FirstAt, At, IsSpace, Inner, Serialize, IsControl, Text.BytesTo;
    var inner := ORIGIN_KEY + "\n" + "oiax:" + "\n";
    BothKeys();
    NoComment();
    FirstComment("", inner, "");
    OriginStep("", inner, "", "", 0);
    SerializedIsComment(m);
    OriginStep("", Inner(Sanitized(m)), "", "", 0);
    assert "" + Serialize(m) + "" == Around("", Inner(Sanitized(m)), "");
  }

  lemma NoComment()
    ensures FirstAt("", OPEN) && Cut("", OPEN) == None
  {
  }

  lemma BothKeys()
    ensures var inner := ORIGIN_KEY + "\n" + "oiax:" + "\n";
            HasKey(inner) && IsOrigin(inner) && FirstAt(inner, CLOSE) && Text.ByteLen(inner) + 7 <= MAX_ORIGIN_BYTES
  {
    hide Cut, Lines, FirstAt, At, Text.BytesTo, TrimRight;
    var rest := "oiax:" + "\n";
    var inner := ORIGIN_KEY + "\n" + "oiax:" + "\n";
    assert inner == ORIGIN_KEY + "\n" + rest && rest == "oiax:" + "\n" + "";
    LineFirst(ORIGIN_KEY, rest);
    LineFirst("oiax:", "");
    TrimmedStays("oiax:");
    assert Lines(inner)[1] == "oiax:";
    Text.BytesBound(inner, |inner|);
    assert inner[0] == 'o' && inner[23] == 'n' && TrimLeft(inner) == inner;
    TrimRightKeeps(inner, 23);
    EndsOutside(inner);
  }

  /** No closing token in a text without its last character, if the text ends in a foreign one. */
  lemma EndsOutside(inner: string)
    requires inner != [] && '>' !in inner && inner[|inner| - 1] !in CLOSE
    ensures FirstAt(inner, CLOSE)
  {
    forall j: nat | j < |inner| ensures !At(inner + CLOSE, j, CLOSE) {
      if j + 2 < |inner| {
        Mismatch(inner + CLOSE, j, CLOSE, 2);
      } else {
        Mismatch(inner + CLOSE, j, CLOSE, |inner| - 1 - j);
      }
    }
  }

  // ------------------------------------------------------------- appending an origin

  /** The origin block; its data is HTML-escaped, so no delimiter can occur in it. */
  function OriginInner(data: string): string {
    " " + ORIGIN_KEY + ":" + data + " "
  }

  predicate Escaped(data: string) {
    data != [] && !IsSpace(data[|data| - 1]) && '<' !in data && '>' !in data
  }

  /** Nothing when the body already holds, or could swallow, a reserved comment. */
  function AppendNotificationOrigin(body: string, origin: Option<string>): Result<string> {
    var answer := OriginBlock(body, "", 0);
    if answer.count != 0 || (origin.Some? && !answer.complete) then Err(InvalidState)
    else if origin.None? then Ok(body)
    else if Text.ByteLen(OriginInner(origin.value)) + 7 > MAX_ORIGIN_BYTES then Err(CapacityExhausted)
    else Ok(body + GAP + (OPEN + OriginInner(origin.value) + CLOSE))
  }

  lemma OriginInnerIsClosedOnce(data: string)
    requires Escaped(data)
    ensures FirstAt(OriginInner(data), CLOSE)
  {
    EndsOutside(OriginInner(data));
  }

  lemma OriginInnerIsClean(data: string)
    requires Escaped(data)
    ensures FirstAt(OriginInner(data), CLOSE) && Trim(OriginInner(data)) == ORIGIN_KEY + ":" + data
    ensures IsOrigin(OriginInner(data))
  {
    hide FirstAt, At;
    OriginInnerIsClosedOnce(data);
    var text := ORIGIN_KEY + ":" + data;
    assert text[|text| - 1] == data[|data| - 1] && text[0] == 'o' && ORIGIN_KEY <= text;
    SpacedTrims(text);
    assert OriginInner(data) == " " + text + " ";
  }

  lemma SpacedTrims(text: string)
    requires text != [] && Trimmed(text)
    ensures Trim(" " + text + " ") == text
  {
    var right := text + " ";
    assert (" " + text + " ")[1..] == right && TrimLeft(right) == right;
    assert right[..|text|] == text && TrimRight(right) == TrimRight(text);
  }

  /** The block appended to a body without one is the one the scan finds. */
  lemma {:induction false} AppendedOriginIsFound(body: string, data: string, block: string)
    requires OriginBlock(body, block, 0) == OriginAnswer(block, 0, true)
    requires Escaped(data) && Text.ByteLen(OriginInner(data)) + 7 <= MAX_ORIGIN_BYTES
    ensures OriginBlock(Around(body + GAP, OriginInner(data), ""), block, 0)
            == OriginAnswer(ORIGIN_KEY + ":" + data, 1, true)
    decreases |body|
  {
    hide Cut, FirstAt, At, Within, Around, IsOrigin, Trim, Text.ByteLen, OriginInner, Escaped;
    OriginInnerIsClean(data);
    if Cut(body, OPEN).None? {
      GapIsForeign(body, OPEN);
      OriginStep(body + GAP, OriginInner(data), "", block, 0);
      NoOrigins(ORIGIN_KEY + ":" + data);
    } else {
      CountsUp(body, block, 0);
      var open := Cut(body, OPEN).value;
      var close := Cut(open.after, CLOSE).value;
      ClosedComesFirst(body, OriginInner(data), "");
      CommentParts(body);
      AroundJoins(open.before, close.before, close.after + GAP, OriginInner(data), "");
      OriginStep(open.before, close.before, Around(close.after + GAP, OriginInner(data), ""), block, 0);
      AppendedOriginIsFound(close.after, data, block);
    }
  }

  lemma NoOrigins(block: string)
    ensures OriginBlock("", block, 1) == OriginAnswer(block, 1, true)
  {
    ForeignWithout("", OPEN);
  }

  /** The count never falls, so a scan that ends at zero met no origin comment. */
  lemma {:induction false} CountsUp(body: string, block: string, count: nat)
    ensures OriginBlock(body, block, count).count >= count
    ensures OriginBlock(body, block, count) == OriginAnswer(block, count, true) && Cut(body, OPEN).Some? ==>
              var close := Cut(Cut(body, OPEN).value.after, CLOSE);
              close.Some? && (!IsOrigin(close.value.before)
                    ==> OriginBlock(close.value.after, block, count) == OriginAnswer(block, count, true))
              && !IsOrigin(close.value.before)
    decreases |body|
  {
    hide IsOrigin, Trim, Text.ByteLen;
    if Cut(body, OPEN).Some? && Cut(Cut(body, OPEN).value.after, CLOSE).Some? {
      var close := Cut(Cut(body, OPEN).value.after, CLOSE).value;
      CountsUp(close.after, block, count);
      CountsUp(close.after, Trim(close.before), count + 1);
    }
  }

  /** An origin that was appended is there, once, and whatever the body had before stays in front of it. */
  lemma AppendThenScan(body: string, data: string)
    requires Escaped(data) && AppendNotificationOrigin(body, Some(data)).Ok?
    ensures OriginBlock(AppendNotificationOrigin(body, Some(data)).value, "", 0)
            == OriginAnswer(ORIGIN_KEY + ":" + data, 1, true)
    ensures body <= AppendNotificationOrigin(body, Some(data)).value
  {
    hide OriginBlock, OriginInner, Text.ByteLen, Escaped;
    ZeroMeansNone(body, "");
    AppendedOriginIsFound(body, data, "");
    assert body + GAP + (OPEN + OriginInner(data) + CLOSE) == Around(body + GAP, OriginInner(data), "");
  }

  lemma {:induction false} ZeroMeansNone(body: string, block: string)
    requires OriginBlock(body, block, 0).count == 0 && OriginBlock(body, block, 0).complete
    ensures OriginBlock(body, block, 0) == OriginAnswer(block, 0, true)
    decreases |body|
  {
    hide IsOrigin, Trim, Text.ByteLen;
    if Cut(body, OPEN).Some? && Cut(Cut(body, OPEN).value.after, CLOSE).Some? {
      var close := Cut(Cut(body, OPEN).value.after, CLOSE).value;
      if IsOrigin(close.before) {
        CountsUp(close.after, Trim(close.before), 1);
      } else {
        ZeroMeansNone(close.after, block);
      }
    }
  }

  // -------------------------------------------------------------------------- the loops

  /** Scans comment by comment for the first one with the key. */
  method BlockBounds(body: string) returns (block: Option<Block>)
    ensures block == Bounds(body)
  {
    hide Cut, HasKey, Around;
    var seen, rest := "", body;
    assert Bounds(body).Some? ==> "" + Bounds(body).value.before == Bounds(body).value.before;
    while true
      invariant Bounds(body) == if Bounds(rest).None? then None
                                else Some(Bounds(rest).value.(before := seen + Bounds(rest).value.before))
      decreases |rest|
    {
      var open := Cut(rest, OPEN);
      if open.None? { return None; }
      var close := Cut(open.value.after, CLOSE);
      if close.None? { return None; }
      var keyed := HasOiaxKey(close.value.before);
      if keyed { return Some(Block(seen + open.value.before, close.value.before, close.value.after)); }
      AroundExtends(seen, open.value.before, close.value.before);
      seen := seen + Around(open.value.before, close.value.before, "");
      rest := close.value.after;
    }
  }

  lemma AroundExtends(seen: string, before: string, inner: string)
    ensures forall x :: seen + Around(before, inner, x) == seen + Around(before, inner, "") + x
  {
    forall x ensures seen + Around(before, inner, x) == seen + Around(before, inner, "") + x {
      assert Around(before, inner, x) == Around(before, inner, "") + x;
    }
  }

  method HasOiaxKey(inner: string) returns (found: bool)
    ensures found <==> HasKey(inner)
  {
    var lines := Lines(inner);
    for i := 0 to |lines|
      invariant forall j :: 0 <= j < i ==> Trim(lines[j]) != "oiax:"
    {
      if Trim(lines[i]) == "oiax:" { return true; }
    }
    found := false;
  }

  method ReadInner(inner: string) returns (r: Reading)
    ensures r == ParseInner(inner)
  {
    hide ReadLine, Lines;
    r := Reading(NO_MARKER, false);
    var lines := Lines(inner);
    for i := 0 to |lines|
      invariant ReadLines(r, lines[i..]) == ParseInner(inner)
    {
      assert lines[i..][1..] == lines[i + 1..];
      r := ReadLine(r, lines[i]);
    }
  }

  lemma {:induction false} FoundStays(r: Reading, lines: seq<string>)
    ensures r.found ==> ReadLines(r, lines).found
    decreases |lines|
  {
    if lines != [] { FoundStays(ReadLine(r, lines[0]), lines[1..]); }
  }

  lemma {:induction false} KeyIsFound(r: Reading, lines: seq<string>, i: nat)
    requires i < |lines| && Trim(lines[i]) == "oiax:"
    ensures ReadLines(r, lines).found
    decreases |lines|
  {
    hide ReadLine, Trim;
    if i == 0 {
      KeyedLine(r, lines[0]);
      FoundStays(ReadLine(r, lines[0]), lines[1..]);
    } else {
      KeyIsFound(ReadLine(r, lines[0]), lines[1..], i - 1);
    }
  }

  lemma KeyedLine(r: Reading, line: string)
    requires Trim(line) == "oiax:"
    ensures ReadLine(r, line).found
  {
    hide Cut, Trim;
    KeyLine(r);
  }

  /** A block that is found is always read. */
  lemma ParseFindsEveryBlock(body: string)
    ensures Parse(body).Some? <==> Bounds(body).Some?
  {
    hide ReadLines, Lines, Trim, Around, Cut;
    if Bounds(body).Some? {
      BoundsAreExact(body);
      var lines := Lines(Bounds(body).value.inner);
      var i :| 0 <= i < |lines| && Trim(lines[i]) == "oiax:";
      KeyIsFound(Reading(NO_MARKER, false), lines, i);
    }
  }

  /** Every comment of a text is closed. */
  predicate Closed(body: string)
    decreases |body|
  {
    var open := Cut(body, OPEN);
    open.None? || (var close := Cut(open.value.after, CLOSE); close.Some? && Closed(close.value.after))
  }

  lemma {:induction false} SafetyIsBoth(body: string)
    ensures Safe(body) <==> Bounds(body).None? && Closed(body)
    decreases |body|
  {
    hide HasKey, Around;
    if Cut(body, OPEN).Some? && Cut(Cut(body, OPEN).value.after, CLOSE).Some? {
      SafetyIsBoth(Cut(Cut(body, OPEN).value.after, CLOSE).value.after);
    }
  }

  /** The check a rendered body must pass before the block is appended. */
  method CheckBodySafety(body: string) returns (ok: bool)
    ensures ok <==> Safe(body)
  {
    hide Cut, HasKey, Parse;
    SafetyIsBoth(body);
    ParseFindsEveryBlock(body);
    if Parse(body).Some? { return false; }
    var rest := body;
    while true
      invariant Closed(rest) <==> Closed(body)
      decreases |rest|
    {
      var open := Cut(rest, OPEN);
      if open.None? { return true; }
      var close := Cut(open.value.after, CLOSE);
      if close.None? { return false; }
      rest := close.value.after;
    }
  }

  /** Scans for the reserved comment, counting its copies. */
  method ScanOrigin(body: string) returns (answer: OriginAnswer)
    ensures answer == OriginBlock(body, "", 0)
  {
    hide Cut, Trim, Text.ByteLen, IsOrigin;
    var rest, block, count := body, "", 0;
    while true
      invariant OriginBlock(rest, block, count) == OriginBlock(body, "", 0)
      decreases |rest|
    {
      var open := Cut(rest, OPEN);
      if open.None? { return OriginAnswer(block, count, true); }
      var close := Cut(open.value.after, CLOSE);
      var inner := if close.Some? then close.value.before else open.value.after;
      if IsOrigin(inner) {
        count := count + 1;
        if close.None? || count > 1 || Text.ByteLen(inner) + 7 > MAX_ORIGIN_BYTES {
          return OriginAnswer("", count, false);
        }
        block := Trim(inner);
      }
      if close.None? { return OriginAnswer(block, count, false); }
      rest := close.value.after;
    }
  }
}
