/**
 * AddJsonComments: the pass SaveConfig runs over the indented JSON of the
 * configuration before writing it. It puts a section header in place of the
 * opening brace and a comment block above each line that starts with a known
 * key, and keeps the closing brace.
 *
 * The output is modelled as lines. Every inserted line is a `Line`: blank, or
 * the indented "//" followed by its text, so that it is a comment or blank by
 * construction.
 */
module ConfigComments {
  import opened Text

  /** A line AddJsonComments inserts: an empty line, or "  //" followed by the text. */
  datatype Line = Blank | Remark(text: string)

  const CommentMarker := "  //"

  /** A line that Strip takes out: empty, or starting with the indented "//". */
  predicate IsCommentOrBlank(line: string) {
    line == "" || StartsWith(line, CommentMarker)
  }

  /** An inserted line as written. */
  function Render(l: Line): (r: string)
    ensures IsCommentOrBlank(r)
  {
    match l
    case Blank => ""
    case Remark(t) =>
      assert (CommentMarker + t)[..|CommentMarker|] == CommentMarker;
      CommentMarker + t
  }

  /** Several inserted lines as written. */
  function RenderAll(ls: seq<Line>): (r: seq<string>)
    ensures |r| == |ls|
    ensures forall k :: 0 <= k < |r| ==> r[k] == Render(ls[k])
  {
    if ls == [] then [] else RenderAll(ls[..|ls| - 1]) + [Render(ls[|ls| - 1])]
  }

  /** One row of the comment table: a JSON key and the lines written above the line that carries it. */
  datatype Annotation = Annotation(key: string, comment: seq<Line>)

  const OpeningBrace := "{"
  const ClosingBrace := "}"

  /** The section header written after the opening brace, before the first key. */
  const CameraSettingsHeader: seq<Line> := [
    Remark(" ========== Camera Settings =========="),
    Remark(" These control camera movement and behavior"),
    Blank
  ]

  /** The keys AddJsonComments recognises, in the order it tests them, with their comments. */
  const Annotations: seq<Annotation> := [
    Annotation("playerPositionSmoothing",
      [Remark(" Player position smoothing factor (default: 0.3, range: 0.0-100.0)")]),
    Annotation("pushBackSpeed",
      [Remark(" Speed for pushing camera back when too close (default: 0.01, range: 0.0-100.0)")]),
    Annotation("freeLookOrbitalLerpSpeed",
      [Remark(" Free look orbital movement smoothing (default: 0.05, range: 0.0-100.0)")]),
    Annotation("freeLookExitPositionLerpSpeed",
      [Remark(" Position lerp speed when exiting free look (default: 0.1, range: 0.0-100.0)")]),
    Annotation("freeLookExitRotationLerpSpeed",
      [Remark(" Rotation lerp speed when exiting free look (default: 0.15, range: 0.0-100.0)")]),
    Annotation("minCameraDistance",
      [Remark(" Minimum distance camera can be from player (default: 2.0, range: 0.0-100.0)")]),
    Annotation("freeLookTransitionDuration",
      [Remark(" Time to transition into free look mode (default: 0.5, range: 0.0-100.0)")]),
    Annotation("firstPersonRotationLerpSpeed",
      [Remark(" First person rotation smoothing (default: 0.1, range: 0.0-100.0)")]),
    Annotation("cameraOffsetHeight",
      [Remark(" Height offset for third person camera (default: 0.5, range: -100.0-100.0)")]),
    Annotation("initialCameraDistance",
      [Remark(" Initial camera distance when replay starts (default: 3.0, range: 0.0-100.0)")]),
    Annotation("firstPersonPitchLimit",
      [Remark(" Maximum pitch angle in first person (default: 90, range: 0-90)")]),
    Annotation("freeLookPitchMin",
      [Remark(" Minimum pitch angle in free look (default: -20, range: -90-90)")]),
    Annotation("freeLookPitchMax",
      [Remark(" Maximum pitch angle in free look (default: 80, range: -90-90)")]),
    Annotation("zoomMinDistance",
      [Remark(" Minimum zoom distance (default: 0.2, range: 0.0-100.0)")]),
    Annotation("zoomMaxDistance",
      [Remark(" Maximum zoom distance (default: 16.0, range: 0.0-1000.0)")]),
    Annotation("zoomDefaultDistance",
      [Remark(" Default zoom distance (default: 1.0, range: 0.0-100.0)")]),
    Annotation("lerpSpeedAtMinZoom",
      [Remark(" Camera lerp speed when zoomed in closest (default: 0.1, range: 0.0-100.0)")]),
    Annotation("lerpSpeedAtMaxZoom",
      [Remark(" Camera lerp speed when zoomed out farthest (default: 0.01, range: 0.0-100.0)")]),
    Annotation("lerpSpeedAtDefaultZoom",
      [Remark(" Camera lerp speed at default zoom (default: 0.02, range: 0.0-100.0)")]),
    Annotation("goalToPlayerRotationLerpSpeed",
      [Remark(" Camera rotation lerp speed for goal-to-player transition (default: 0.05, range: 0.0-100.0)")]),
    Annotation("toggleCameraKey", [
      Blank,
      Remark(" ========== Keybind Settings =========="),
      Remark(" Key bindings for camera controls"),
      Remark(" Valid keys: a, b, c, d, e, f, g, h, i, j, k, l, m, n, o, p, q, r, s, t, u, v, w, x, y, z,"),
      Remark("             digit0, digit1, digit2, digit3, digit4, digit5, digit6, digit7, digit8, digit9,"),
      Remark("             f1, f2, f3, f4, f5, f6, f7, f8, f9, f10, f11, f12,"),
      Remark("             space, tab, enter, escape, backspace, delete, insert, home, end, pageUp, pageDown,"),
      Remark("             upArrow, downArrow, leftArrow, rightArrow, leftShift, rightShift, leftCtrl, rightCtrl,"),
      Remark("             leftAlt, rightAlt, leftMeta, rightMeta, capsLock, numLock, scrollLock, printScreen,"),
      Remark("             pause, numpad0, numpad1, numpad2, numpad3, numpad4, numpad5, numpad6, numpad7,"),
      Remark("             numpad8, numpad9, numpadDivide, numpadMultiply, numpadMinus, numpadPlus,"),
      Remark("             numpadEnter, numpadPeriod, semicolon, comma, period, slash, backslash,"),
      Remark("             leftBracket, rightBracket, quote, backquote, minus, equals"),
      Remark(" Valid mouse buttons: leftButton, rightButton, middleButton, forwardButton, backButton"),
      Blank,
      Remark(" Key or mouse button to toggle between first/third person (default: \"c\")")
    ]),
    Annotation("freeLookKey",
      [Remark(" Key or mouse button for free look (default: \"rightButton\")")]),
    Annotation("freeLookMode", [
      Blank,
      Remark(" ========== Misc Settings =========="),
      Remark(" General behavior settings"),
      Blank,
      Remark(" Free look input mode (default: \"hold\", options: \"hold\", \"toggle\")")
    ]),
    Annotation("rememberCameraState",
      [Remark(" Remember camera mode and zoom between replays (default: false)")])
  ]

  /** A key as it appears in the JSON, between double quotes. */
  function Quoted(key: string): string {
    "\"" + key + "\""
  }

  /** Whether row `i` of a comment table recognises a trimmed line. */
  predicate Recognises(table: seq<Annotation>, i: nat, trimmed: string)
    requires i < |table|
  {
    StartsWith(trimmed, Quoted(table[i].key))
  }

  /**
   * The else-if chain: the first row, from `from` on, that recognises the
   * trimmed line, or |table| when no row does.
   */
  function FirstMatch(table: seq<Annotation>, trimmed: string, from: nat): (i: nat)
    requires from <= |table|
    ensures from <= i <= |table|
    ensures i < |table| ==> Recognises(table, i, trimmed)
    ensures forall j :: from <= j < i ==> !Recognises(table, j, trimmed)
    decreases |table| - from
  {
    if from == |table| then from
    else if Recognises(table, from, trimmed) then from
    else FirstMatch(table, trimmed, from + 1)
  }

  /** The comment written above a JSON line: that of the first row that recognises the line once trimmed, or none. */
  function CommentFor(table: seq<Annotation>, line: string): seq<Line> {
    var i := FirstMatch(table, Trim(line), 0);
    if i < |table| then table[i].comment else []
  }

  /** Each JSON line, preceded by its comment. */
  function AnnotatedLines(table: seq<Annotation>, lines: seq<string>): seq<string> {
    if lines == [] then []
    else
      var last := lines[|lines| - 1];
      AnnotatedLines(table, lines[..|lines| - 1]) + RenderAll(CommentFor(table, last)) + [last]
  }

  /** The lines strictly between the first and the last; none when there are fewer than two. */
  function Interior(lines: seq<string>): seq<string> {
    if |lines| < 2 then [] else lines[1..|lines| - 1]
  }

  /** The opening brace and the section header. */
  function HeaderLines(): seq<string> {
    [OpeningBrace] + RenderAll(CameraSettingsHeader)
  }

  /** The lines AddJsonComments writes for `json` with a given table. */
  function OutputLines(table: seq<Annotation>, json: string): seq<string> {
    HeaderLines() + AnnotatedLines(table, Interior(Split(json, '\n'))) + [ClosingBrace]
  }

  /** The text AddJsonComments returns for `json`: its output lines joined by line feeds. */
  function Commented(json: string): string {
    Join(OutputLines(Annotations, json), '\n')
  }

  /** Lines written as text, each followed by a line feed. */
  function Unlines(lines: seq<string>): string {
    if lines == [] then "" else Unlines(lines[..|lines| - 1]) + lines[|lines| - 1] + "\n"
  }

  /** AddJsonComments, with the table of the keys it recognises and their comments. */
  method AddJsonComments(json: string) returns (result: string)
    ensures result == Commented(json)
  {
    result := AddComments(Annotations, json);
  }

  /**
   * The body of AddJsonComments: the header, then every line of the JSON
   * between the first and the last, each preceded by the comment of the first
   * row that recognises it, then the closing brace. The first and the last
   * line of the JSON are not copied.
   */
  method AddComments(table: seq<Annotation>, json: string) returns (result: string)
    ensures result == Join(OutputLines(table, json), '\n')
  {
    var lines := Split(json, '\n');
    result := OpeningBrace + "\n";
    result := result + Unlines(RenderAll(CameraSettingsHeader));
    UnlinesFirst(OpeningBrace, RenderAll(CameraSettingsHeader));
    var inner := Interior(lines);
    var i := 1;
    assert inner[..0] == [];
    AppendEmpty(HeaderLines());
    while i < |lines| - 1
      invariant 1 <= i <= |inner| + 1
      invariant result == Unlines(HeaderLines() + AnnotatedLines(table, inner[..i - 1]))
    {
      var line := lines[i];
      var comment := CommentFor(table, line);
      AnnotateStep(table, HeaderLines(), inner, i - 1);
      result := result + Unlines(RenderAll(comment)) + line + "\n";
      i := i + 1;
    }
    assert inner[..i - 1] == inner;
    result := result + ClosingBrace;
    JoinClosing(HeaderLines() + AnnotatedLines(table, inner), ClosingBrace);
  }

  /** Writing a first line, then some more. */
  lemma UnlinesFirst(first: string, rest: seq<string>)
    ensures Unlines([first] + rest) == first + "\n" + Unlines(rest)
  {
    UnlinesAppend([first], rest);
    UnlinesSnoc([], first);
    AppendEmpty([first]);
    assert [] + [first] == [first];
    assert "" + first == first;
  }

  /** Writing one more line after some lines. */
  lemma UnlinesSnoc(lines: seq<string>, line: string)
    ensures Unlines(lines + [line]) == Unlines(lines) + line + "\n"
  {
    assert (lines + [line])[..|lines|] == lines;
  }

  /** Lines written with a line feed after each, then a last line, are those lines joined by line feeds. */
  lemma {:induction false} JoinClosing(lines: seq<string>, last: string)
    ensures Join(lines + [last], '\n') == Unlines(lines) + last
    decreases |lines|
  {
    if lines == [] {
      assert [] + [last] == [last];
      assert "" + last == last;
    } else {
      var rest := lines[1..];
      assert (lines + [last])[1..] == rest + [last];
      assert lines == [lines[0]] + rest;
      JoinClosing(rest, last);
      UnlinesFirst(lines[0], rest);
      ConcatAssoc(lines[0] + "\n", Unlines(rest), last);
    }
  }

  /** One more line of the loop: its comment lines, then the line itself, are written after what came before. */
  lemma AnnotateStep(table: seq<Annotation>, header: seq<string>, lines: seq<string>, n: nat)
    requires n < |lines|
    ensures Unlines(header + AnnotatedLines(table, lines[..n + 1]))
      == Unlines(header + AnnotatedLines(table, lines[..n])) + Unlines(RenderAll(CommentFor(table, lines[n]))) + lines[n] + "\n"
  {
    assert lines[..n + 1] == lines[..n] + [lines[n]];
    AnnotatedSnoc(table, lines[..n], lines[n]);
    UnlinesAfter(header, AnnotatedLines(table, lines[..n]), RenderAll(CommentFor(table, lines[n])), lines[n]);
  }

  /** Annotating one more line appends its comment and the line. */
  lemma AnnotatedSnoc(table: seq<Annotation>, lines: seq<string>, line: string)
    ensures AnnotatedLines(table, lines + [line]) == AnnotatedLines(table, lines) + RenderAll(CommentFor(table, line)) + [line]
  {
    assert (lines + [line])[..|lines|] == lines;
  }

  lemma UnlinesAfter(header: seq<string>, done: seq<string>, comment: seq<string>, line: string)
    ensures Unlines(header + (done + comment + [line])) == Unlines(header + done) + Unlines(comment) + line + "\n"
  {
    var before := header + done;
    ConcatAssoc(header, done + comment, [line]);
    ConcatAssoc(header, done, comment);
    UnlinesSnoc(before + comment, line);
    UnlinesAppend(before, comment);
  }

  /** Writing two blocks of lines is writing the first, then the second. */
  lemma {:induction false} UnlinesAppend(a: seq<string>, b: seq<string>)
    ensures Unlines(a + b) == Unlines(a) + Unlines(b)
    decreases |b|
  {
    if b == [] {
      AppendEmpty(a);
      assert Unlines(a) + "" == Unlines(a);
    } else {
      var init, last := b[..|b| - 1], b[|b| - 1];
      InitLast(b);
      ConcatAssoc(a, init, [last]);
      UnlinesSnoc(a + init, last);
      UnlinesSnoc(init, last);
      UnlinesAppend(a, init);
      ConcatAssoc(Unlines(a), Unlines(init), last);
      ConcatAssoc(Unlines(a), Unlines(init) + last, "\n");
    }
  }

  lemma AppendEmpty<T>(s: seq<T>)
    ensures s + [] == s
  {
  }

  lemma InitLast<T>(s: seq<T>)
    requires s != []
    ensures s[..|s| - 1] + [s[|s| - 1]] == s
  {
  }

  lemma FirstInteriorLast<T>(s: seq<T>)
    requires |s| >= 2
    ensures [s[0]] + s[1..|s| - 1] + [s[|s| - 1]] == s
  {
  }

  lemma ConcatAssoc<T>(a: seq<T>, b: seq<T>, c: seq<T>)
    ensures a + (b + c) == (a + b) + c
  {
  }

  // ---------------------------------------------------------------- the comments can be taken out again

  /** The lines without the comment and blank ones. */
  function Strip(lines: seq<string>): seq<string> {
    if lines == [] then []
    else if IsCommentOrBlank(lines[0]) then Strip(lines[1..])
    else [lines[0]] + Strip(lines[1..])
  }

  lemma {:induction false} StripAppend(a: seq<string>, b: seq<string>)
    ensures Strip(a + b) == Strip(a) + Strip(b)
  {
    if a == [] {
      assert a + b == b;
    } else {
      assert (a + b)[0] == a[0];
      assert (a + b)[1..] == a[1..] + b;
      StripAppend(a[1..], b);
      if !IsCommentOrBlank(a[0]) {
        ConcatAssoc([a[0]], Strip(a[1..]), Strip(b));
      }
    }
  }

  /** Nothing that AddJsonComments inserts survives Strip. */
  lemma {:induction false} StripRendered(ls: seq<Line>)
    ensures Strip(RenderAll(ls)) == []
  {
    if ls != [] {
      var init := ls[..|ls| - 1];
      StripRendered(init);
      StripAppend(RenderAll(init), [Render(ls[|ls| - 1])]);
      assert [Render(ls[|ls| - 1])][1..] == [];
    }
  }

  /** A line that is not a comment survives Strip. */
  lemma StripKept(line: string)
    requires !IsCommentOrBlank(line)
    ensures Strip([line]) == [line]
  {
    assert [line][1..] == [];
    AppendEmpty([line]);
  }

  /** Taking the comments out of the annotated lines gives back the JSON lines, when none of those looks like a comment. */
  lemma {:induction false} StripAnnotated(table: seq<Annotation>, lines: seq<string>)
    requires forall k :: 0 <= k < |lines| ==> !IsCommentOrBlank(lines[k])
    ensures Strip(AnnotatedLines(table, lines)) == lines
  {
    if lines != [] {
      var init, last := lines[..|lines| - 1], lines[|lines| - 1];
      StripAnnotated(table, init);
      StripRendered(CommentFor(table, last));
      StripStep(AnnotatedLines(table, init), RenderAll(CommentFor(table, last)), last, init);
      InitLast(lines);
    }
  }

  lemma StripStep(before: seq<string>, comment: seq<string>, line: string, kept: seq<string>)
    requires Strip(before) == kept && Strip(comment) == [] && !IsCommentOrBlank(line)
    ensures Strip(before + comment + [line]) == kept + [line]
  {
    StripAppend(before + comment, [line]);
    StripAppend(before, comment);
    StripKept(line);
    AppendEmpty(kept);
  }

  /**
   * For any table: taking the comment and blank lines out of the output
   * lines gives back the lines of the JSON, whenever its first line is the
   * opening brace, its last line the closing brace, and none of the lines
   * between is blank or starts with the indented "//".
   */
  lemma StrippedOutputIsInput(table: seq<Annotation>, json: string)
    requires var lines := Split(json, '\n');
      && |lines| >= 2 && lines[0] == OpeningBrace && lines[|lines| - 1] == ClosingBrace
      && forall k :: 0 < k < |lines| - 1 ==> !IsCommentOrBlank(lines[k])
    ensures Strip(OutputLines(table, json)) == Split(json, '\n')
  {
    var lines := Split(json, '\n');
    var inner := Interior(lines);
    forall k | 0 <= k < |inner|
      ensures !IsCommentOrBlank(inner[k])
    {
      assert inner[k] == lines[k + 1];
    }
    var body := AnnotatedLines(table, inner);
    StripAppend(HeaderLines() + body, [ClosingBrace]);
    StripAppend(HeaderLines(), body);
    StripAppend([OpeningBrace], RenderAll(CameraSettingsHeader));
    StripRendered(CameraSettingsHeader);
    StripKept(OpeningBrace);
    StripKept(ClosingBrace);
    StripAnnotated(table, inner);
    AppendEmpty([OpeningBrace]);
    FirstInteriorLast(lines);
  }

  /** For the table AddJsonComments uses: joining what is left after taking out the comment and blank lines gives back the JSON text. */
  lemma CommentsCanBeStripped(json: string)
    requires var lines := Split(json, '\n');
      && |lines| >= 2 && lines[0] == OpeningBrace && lines[|lines| - 1] == ClosingBrace
      && forall k :: 0 < k < |lines| - 1 ==> !IsCommentOrBlank(lines[k])
    ensures Join(Strip(OutputLines(Annotations, json)), '\n') == json
  {
    StrippedOutputIsInput(Annotations, json);
    JoinSplit(json, '\n');
  }

  /** A line whose trimmed text starts with the quoted key of row `i`, and with none before it, gets that row's comment. */
  lemma CommentForKeyLine(table: seq<Annotation>, line: string, i: nat)
    requires i < |table| && Recognises(table, i, Trim(line))
    requires forall j :: 0 <= j < i ==> !Recognises(table, j, Trim(line))
    ensures CommentFor(table, line) == table[i].comment
  {
    FirstMatchIs(table, Trim(line), 0, i);
  }

  lemma {:induction false} FirstMatchIs(table: seq<Annotation>, trimmed: string, from: nat, i: nat)
    requires from <= i < |table| && Recognises(table, i, trimmed)
    requires forall j :: from <= j < i ==> !Recognises(table, j, trimmed)
    ensures FirstMatch(table, trimmed, from) == i
    decreases i - from
  {
    if from < i {
      FirstMatchIs(table, trimmed, from + 1, i);
    }
  }

  /** Lines that no row recognises are copied with no comment above them. */
  lemma UnrecognisedLineGetsNoComment(table: seq<Annotation>, line: string)
    requires forall i :: 0 <= i < |table| ==> !Recognises(table, i, Trim(line))
    ensures CommentFor(table, line) == []
  {
  }
}
