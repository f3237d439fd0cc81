/**
 * The "Lab: Import Spec" command (`importSpecCommand`): it takes the spec
 * typed into an input box (the built-in sample when the box is left blank
 * or dismissed), validates it, renders its controls, generates the base
 * document with the spec's options (each defaulting to `true`), replaces
 * the document's controls section by the rendered controls, and writes the
 * result to a file named after the title.
 *
 * The input box, `JSON.parse`, `JSON.stringify`, the base-document
 * generator and the save dialog are inputs; writing and opening the file
 * and the notifications are the command's `Outcome`.
 */
module ImportSpec {
  import opened Wrappers
  import opened Strings
  import opened Json
  import opened SpecGenerator
  import opened BaseApp

  // ---------------------------------------------------------------------
  // The spec text
  // ---------------------------------------------------------------------

  /** The input box's answer: dismissed (`undefined`) or the text entered. */
  datatype InputBox = Dismissed | Entered(text: string)

  /** The text is empty or white space only. */
  predicate Blank(s: string) {
    forall k | 0 <= k < |s| :: IsJsWhitespace(s[k])
  }

  /** `input?.trim() || SAMPLE_SPEC`, for the built-in sample `sample`. */
  function SpecText(input: InputBox, sample: string): string {
    if input.Entered? && Trim(input.text) != "" then Trim(input.text) else sample
  }

  /** A text is blank exactly when trimming leaves nothing. */
  lemma TrimEmptyIffBlank(s: string)
    ensures Trim(s) == "" <==> Blank(s)
  {
    TrimIsInnerSlice(s);
    if Blank(s) {
      BlankTrimsAway(s);
    }
  }

  lemma {:induction false} BlankTrimsAway(s: string)
    requires Blank(s)
    ensures TrimStart(s) == ""
  {
    if |s| > 0 {
      BlankTrimsAway(s[1..]);
    }
  }

  /**
   * A dismissed or blank input gives the sample spec; any other input gives
   * its own text without surrounding white space, which is never blank.
   */
  lemma SpecTextFallback(input: InputBox, sample: string)
    ensures input.Dismissed? || Blank(input.text) ==> SpecText(input, sample) == sample
    ensures input.Entered? && !Blank(input.text) ==>
      var s := SpecText(input, sample);
      && (exists i, j :: 0 <= i <= j <= |input.text| && s == input.text[i..j])
      && |s| > 0 && !IsJsWhitespace(s[0]) && !IsJsWhitespace(s[|s| - 1])
  {
    if input.Entered? {
      TrimEmptyIffBlank(input.text);
      TrimIsInnerSlice(input.text);
    }
  }

  const SampleSpec: string :=
      "{\n"
    + "  \"title\": \"My Experiment\",\n"
    + "  \"description\": \"A quick prototype\",\n"
    + "  \"darkTheme\": true,\n"
    + "  \"includePresetManager\": true,\n"
    + "  \"includeExportButtons\": true,\n"
    + "  \"controls\": [\n"
    + "    { \"id\": \"speed\", \"type\": \"range\","
    + " \"label\": \"Speed\", \"default\": 50,"
    + " \"min\": 0, \"max\": 100 },\n"
    + "    { \"id\": \"color\", \"type\": \"color\","
    + " \"label\": \"Primary Color\", \"default\":"
    + " \"#58a6ff\" },\n"
    + "    { \"id\": \"mode\", \"type\": \"select\","
    + " \"label\": \"Mode\", \"options\": [\n"
    + "      { \"label\": \"Normal\", \"value\":"
    + " \"normal\" },\n"
    + "      { \"label\": \"Turbo\", \"value\":"
    + " \"turbo\" }\n"
    + "    ]},\n"
    + "    { \"id\": \"enabled\", \"type\":"
    + " \"checkbox\", \"label\": \"Enable"
    + " Feature\", \"default\": true }\n"
    + "  ]\n"
    + "}"

  /**
   * What `JSON.parse(SAMPLE_SPEC)` produces: four controls (a range, a
   * colour, a select with two options and a checkbox) and all three flags
   * set.
   */
  const SampleSpecValue: Json := JObj(map[
    "title" := JStr("My Experiment"),
    "description" := JStr("A quick prototype"),
    "darkTheme" := JBool(true),
    "includePresetManager" := JBool(true),
    "includeExportButtons" := JBool(true),
    "controls" := JArr([
      JObj(map["id" := JStr("speed"), "type" := JStr("range"), "label" := JStr("Speed"),
               "default" := JNum(50.0), "min" := JNum(0.0), "max" := JNum(100.0)]),
      JObj(map["id" := JStr("color"), "type" := JStr("color"), "label" := JStr("Primary Color"),
               "default" := JStr("#58a6ff")]),
      JObj(map["id" := JStr("mode"), "type" := JStr("select"), "label" := JStr("Mode"),
               "options" := JArr([
                 JObj(map["label" := JStr("Normal"), "value" := JStr("normal")]),
                 JObj(map["label" := JStr("Turbo"), "value" := JStr("turbo")])])]),
      JObj(map["id" := JStr("enabled"), "type" := JStr("checkbox"), "label" := JStr("Enable Feature"),
               "default" := JBool(true)])])])

  /** The sample spec passes validation, with four controls. */
  lemma SampleSpecIsValid()
    ensures ValidateSpec(Parsed(SampleSpecValue)) == Valid(SampleSpecValue)
    ensures |Get(SampleSpecValue, "controls").value.items| == 4
  {
    var items := Get(SampleSpecValue, "controls").value.items;
    forall i | 0 <= i < |items| ensures ControlCheck(items[i]).None? {
    }
  }

  // ---------------------------------------------------------------------
  // Options
  // ---------------------------------------------------------------------

  /**
   * The options handed to the base-document generator: the title, and each
   * flag read through `?? true`, so only a present, non-null, falsy value
   * turns a flag off.
   */
  function OptionsFor(spec: LabSpec): (o: AppOptions)
    ensures o.title == spec.title
    ensures o.includePresetManager <==> spec.includePresetManager != Some(false)
    ensures o.includeExportButtons <==> spec.includeExportButtons != Some(false)
    ensures o.darkTheme <==> spec.darkTheme != Some(false)
  {
    AppOptions(spec.title, spec.includePresetManager.GetOr(true), spec.includeExportButtons.GetOr(true),
               spec.darkTheme.GetOr(true))
  }

  /** A flag missing from the JSON (or `null`) is on; a present one is its truthiness. */
  lemma FlagDefaultsToTrue(spec: Json, key: string)
    requires !spec.JNull?
    ensures Get(spec, key).None? || Get(spec, key) == Some(JNull) ==> AsFlag(Get(spec, key)).GetOr(true)
    ensures Get(spec, key).Some? && !Get(spec, key).value.JNull? ==>
      AsFlag(Get(spec, key)).GetOr(true) == Truthy(Get(spec, key).value)
  {
  }

  // ---------------------------------------------------------------------
  // The file name
  // ---------------------------------------------------------------------

  /** The characters `[a-z0-9]` kept by the slug. */
  predicate IsSlugChar(c: char) {
    'a' <= c <= 'z' || '0' <= c <= '9'
  }

  /**
   * `s.replace(/[^a-z0-9]+/g, '-')`: every maximal run of other characters
   * becomes one `-`. `afterRun` says that the character before `s` was
   * already part of a run.
   */
  function Collapse(s: string, afterRun: bool): string
    decreases |s|
  {
    if |s| == 0 then ""
    else if IsSlugChar(s[0]) then [s[0]] + Collapse(s[1..], false)
    else if afterRun then Collapse(s[1..], true)
    else "-" + Collapse(s[1..], true)
  }

  function Slug(s: string): string {
    Collapse(s, false)
  }

  /** `spec.title.toLowerCase().replace(/[^a-z0-9]+/g, '-') + '.html'`. */
  function FileName(title: string): string {
    Slug(ToLower(title)) + ".html"
  }

  /** Only letters, digits and `-`. */
  predicate SlugText(r: string) {
    forall k | 0 <= k < |r| :: IsSlugChar(r[k]) || r[k] == '-'
  }

  /** No two adjacent `-`. */
  predicate NoDoubleHyphen(r: string) {
    forall k | 0 <= k < |r| - 1 :: !(r[k] == '-' && r[k + 1] == '-')
  }

  /** The letters and digits of a text, in order. */
  function Kept(s: string): (r: string)
    ensures |r| <= |s|
  {
    if |s| == 0 then "" else (if IsSlugChar(s[0]) then [s[0]] else "") + Kept(s[1..])
  }

  /** The slug has only `[a-z0-9-]`, no `--`, and after a run it does not start with `-`. */
  lemma {:induction false} CollapseShape(s: string, afterRun: bool)
    ensures SlugText(Collapse(s, afterRun)) && NoDoubleHyphen(Collapse(s, afterRun))
    ensures afterRun && |Collapse(s, afterRun)| > 0 ==> Collapse(s, afterRun)[0] != '-'
    decreases |s|
  {
    if |s| > 0 {
      if IsSlugChar(s[0]) {
        CollapseShape(s[1..], false);
      } else {
        CollapseShape(s[1..], true);
      }
    }
  }

  /** The slug keeps every letter and digit of its input, in order. */
  lemma {:induction false} CollapseKeeps(s: string, afterRun: bool)
    ensures Kept(Collapse(s, afterRun)) == Kept(s)
    decreases |s|
  {
    if |s| > 0 {
      var r := Collapse(s, afterRun);
      if IsSlugChar(s[0]) {
        CollapseKeeps(s[1..], false);
        assert r[1..] == Collapse(s[1..], false);
      } else if afterRun {
        CollapseKeeps(s[1..], true);
      } else {
        CollapseKeeps(s[1..], true);
        assert r[1..] == Collapse(s[1..], true);
      }
    }
  }

  /** A text already in slug form is its own slug. */
  lemma {:induction false} CollapseFixes(r: string, afterRun: bool)
    requires SlugText(r) && NoDoubleHyphen(r)
    requires afterRun && |r| > 0 ==> r[0] != '-'
    ensures Collapse(r, afterRun) == r
    decreases |r|
  {
    if |r| > 0 {
      if IsSlugChar(r[0]) {
        CollapseFixes(r[1..], false);
      } else {
        assert |r| > 1 ==> r[1] != '-';
        CollapseFixes(r[1..], true);
      }
      assert r == [r[0]] + r[1..];
    }
  }

  /**
   * The file name is a slug followed by `.html`: only `[a-z0-9-]`, never two
   * adjacent hyphens, every lower-cased letter and digit of the title in
   * order, and slugging it again changes nothing.
   */
  lemma FileNameIsSlug(title: string)
    ensures var slug := Slug(ToLower(title));
      && FileName(title) == slug + ".html"
      && SlugText(slug) && NoDoubleHyphen(slug)
      && Kept(slug) == Kept(ToLower(title))
      && Slug(slug) == slug
  {
    var slug := Slug(ToLower(title));
    CollapseShape(ToLower(title), false);
    CollapseKeeps(ToLower(title), false);
    CollapseFixes(slug, false);
  }

  // ---------------------------------------------------------------------
  // The controls splice
  // ---------------------------------------------------------------------

  const ControlsStart: string := "<!-- LAB_INJECT_CONTROLS_START -->"
  const ControlsEnd: string := "<!-- LAB_INJECT_CONTROLS_END -->"

  /** Where the regular expression's match starts, and where its closing marker starts. */
  datatype MarkerSpan = MarkerSpan(start: nat, end: nat)

  /**
   * The match of `/<open>[\s\S]*<close>/` for marker texts `open` and `close`:
   * the first `open` and, `[\s\S]*` being greedy, the last `close` after it;
   * no match when no `close` follows an `open`.
   */
  function FindMarkers(html: string, open: string, close: string): (r: Option<MarkerSpan>)
    ensures r.Some? ==>
      && OccursAt(html, open, r.value.start) && OccursAt(html, close, r.value.end)
      && r.value.start + |open| <= r.value.end
      && (forall i | 0 <= i < r.value.start :: !OccursAt(html, open, i))
      && (forall j | r.value.end < j :: !OccursAt(html, close, j))
    ensures r.None? ==>
      forall i, j | OccursAt(html, open, i) && OccursAt(html, close, j) :: j < i + |open|
  {
    match IndexOf(html, open)
    case None => None
    case Some(i) =>
      match LastIndexOf(html, close)
      case None => None
      case Some(j) => if i + |open| <= j then Some(MarkerSpan(i, j)) else None
  }

  /** The replacement text: both markers around the new controls. */
  function Section(open: string, close: string, controls: string): string {
    open + "\n" + controls + "\n        " + close
  }

  /** The splice with the new controls inserted verbatim. */
  function Splice(html: string, open: string, close: string, controls: string): string {
    match FindMarkers(html, open, close)
    case None => html
    case Some(m) => html[..m.start] + Section(open, close, controls) + html[m.end + |close|..]
  }

  /** The splice as written: `replace` with a regular expression expands `$`-patterns of the controls. */
  function SpliceAsWritten(html: string, open: string, close: string, controls: string): string {
    match FindMarkers(html, open, close)
    case None => html
    case Some(m) => ReplaceSpan(html, m.start, m.end + |close|, Section(open, close, controls))
  }

  /** `baseHtml.replace(/<!-- LAB_INJECT_CONTROLS_START -->[\s\S]*<!-- LAB_INJECT_CONTROLS_END -->/, …)`, verbatim. */
  function SpliceControls(html: string, controls: string): string {
    Splice(html, ControlsStart, ControlsEnd, controls)
  }

  /** The same, with the `$`-patterns of the controls expanded as `replace` does. */
  function SpliceControlsAsWritten(html: string, controls: string): string {
    SpliceAsWritten(html, ControlsStart, ControlsEnd, controls)
  }

  /** Marker texts whose first character occurs nowhere else in them, and without `$`. */
  predicate GoodMarker(m: string) {
    |m| > 0 && NotAfterFirst(m, m[0]) && '$' !in m
  }

  /** The controls markers are good markers. */
  lemma ControlsMarkersGood()
    ensures GoodMarker(ControlsStart) && GoodMarker(ControlsEnd)
  {
  }

  /**
   * The first occurrence of a good marker stays first when only what
   * follows it changes.
   */
  lemma FirstOccurrenceKept(html: string, r: string, m: string, i: nat)
    requires GoodMarker(m)
    requires OccursAt(html, m, i) && forall i' | 0 <= i' < i :: !OccursAt(html, m, i')
    requires OccursAt(r, m, i) && r[..i] == html[..i]
    ensures forall i' | 0 <= i' < i :: !OccursAt(r, m, i')
  {
    forall i' | 0 <= i' < i ensures !OccursAt(r, m, i') {
      if i' + |m| <= i {
        SliceOfSlice(r, 0, i, i', i' + |m|);
        SliceOfSlice(html, 0, i, i', i' + |m|);
        assert r[i'..i' + |m|] == html[i'..i' + |m|];
        assert !OccursAt(html, m, i');
        assert !OccursAt(r, m, i');
      } else if i' + |m| <= |r| {
        assert r[i'..i' + |m|][i - i'] == r[i] == r[i..i + |m|][0] == m[0];
        assert m[i - i'] != m[0];
        assert !OccursAt(r, m, i');
      }
    }
  }

  /**
   * The last occurrence of a good marker stays last when only what
   * precedes it changes.
   */
  lemma LastOccurrenceKept(html: string, r: string, m: string, j: nat, q: nat)
    requires GoodMarker(m)
    requires j + |m| <= |html| && forall j' | j < j' :: !OccursAt(html, m, j')
    requires OccursAt(r, m, q) && r[q + |m|..] == html[j + |m|..]
    ensures forall j' | q < j' :: !OccursAt(r, m, j')
  {
    forall j' | q < j' ensures !OccursAt(r, m, j') {
      if j' < q + |m| {
        if j' + |m| <= |r| {
          assert r[j'..j' + |m|][0] == r[j'] == r[q..q + |m|][j' - q] == m[j' - q];
          assert m[j' - q] != m[0];
        }
      } else if j' + |m| <= |r| {
        var d := j' - q - |m|;
        var e := j + |m| + d;
        ShiftedSlice(r, html, q + |m|, j + |m|, d, |m|);
        assert !OccursAt(html, m, e);
      }
    }
  }

  /** Equal tails have equal slices at the same offset. */
  lemma ShiftedSlice(r: string, html: string, a: nat, b: nat, d: nat, len: nat)
    requires a <= |r| && b <= |html| && r[a..] == html[b..] && a + d + len <= |r|
    ensures b + d + len <= |html| && r[a + d..a + d + len] == html[b + d..b + d + len]
  {
    assert |r| - a == |html| - b;
    var x, y := r[a + d..a + d + len], html[b + d..b + d + len];
    forall k | 0 <= k < len
      ensures x[k] == y[k]
    {
      assert x[k] == r[a..][d + k] == html[b..][d + k] == y[k];
    }
  }

  /** Without an `open` followed by a `close` the document is unchanged. */
  lemma SpliceWithoutMarkers(html: string, open: string, close: string, controls: string)
    requires forall i, j | OccursAt(html, open, i) && OccursAt(html, close, j) :: j < i + |open|
    ensures Splice(html, open, close, controls) == html && SpliceAsWritten(html, open, close, controls) == html
  {
  }

  /**
   * With the markers, the document is kept up to its first `open` and after
   * its last `close`, and everything in between becomes the new controls
   * between the two markers.
   */
  lemma SpliceShape(html: string, open: string, close: string, controls: string)
    requires FindMarkers(html, open, close).Some?
    ensures var m := FindMarkers(html, open, close).value;
      Splice(html, open, close, controls) == html[..m.start] + Section(open, close, controls) + html[m.end + |close|..]
    ensures var m := FindMarkers(html, open, close).value;
      |Splice(html, open, close, controls)| == |html| - (m.end + |close| - m.start) + |Section(open, close, controls)|
  {
  }

  /**
   * The markers survive the splice: splicing a second time replaces exactly
   * the controls the first splice put in, whatever those controls contain.
   */
  lemma SpliceAgain(html: string, open: string, close: string, first: string, second: string)
    requires GoodMarker(open) && GoodMarker(close)
    ensures Splice(Splice(html, open, close, first), open, close, second) == Splice(html, open, close, second)
  {
    match FindMarkers(html, open, close)
    case None =>
    case Some(m) =>
      var prefix, suffix := html[..m.start], html[m.end + |close|..];
      var r := prefix + Section(open, close, first) + suffix;
      assert r == Splice(html, open, close, first);
      var q := |prefix| + |open| + |first| + 10;
      MarkersAfterSplice(html, open, close, first, m);
      assert r[..m.start] == prefix;
      assert r[q + |close|..] == suffix;
  }

  /** After the splice, the markers are found around the controls it put in. */
  lemma MarkersAfterSplice(html: string, open: string, close: string, controls: string, m: MarkerSpan)
    requires GoodMarker(open) && GoodMarker(close) && FindMarkers(html, open, close) == Some(m)
    ensures var r := html[..m.start] + Section(open, close, controls) + html[m.end + |close|..];
      FindMarkers(r, open, close) == Some(MarkerSpan(m.start, m.start + |open| + |controls| + 10))
  {
    var prefix, suffix := html[..m.start], html[m.end + |close|..];
    FindMarkersEnds(html, open, close, m);
    SectionPieces(prefix, open, controls, close, suffix);
    SplicedMarkers(html, prefix + Section(open, close, controls) + suffix, open, close, m, m.start + |open| + |controls| + 10);
  }

  /** A match starts at the first `open` and ends at the last `close`. */
  lemma FindMarkersEnds(html: string, open: string, close: string, m: MarkerSpan)
    requires FindMarkers(html, open, close) == Some(m)
    ensures IndexOf(html, open) == Some(m.start) && LastIndexOf(html, close) == Some(m.end)
  {
    IndexOfIs(html, open, m.start);
    LastIndexOfIs(html, close, m.end);
  }

  /** Where the markers and the kept text lie around a section. */
  lemma SectionPieces(prefix: string, open: string, controls: string, close: string, suffix: string)
    ensures var s := prefix + Section(open, close, controls) + suffix;
      var q := |prefix| + |open| + |controls| + 10;
      && s[..|prefix|] == prefix && OccursAt(s, open, |prefix|)
      && OccursAt(s, close, q) && s[q + |close|..] == suffix
  {
    var middle := "\n" + controls + "\n        ";
    assert prefix + Section(open, close, controls) + suffix == prefix + open + middle + close + suffix;
    FivePieces(prefix, open, middle, close, suffix);
  }

  /** Markers found first and last in `html` are found first and last in `r` when the text around them is kept. */
  lemma SplicedMarkers(html: string, r: string, open: string, close: string, m: MarkerSpan, q: nat)
    requires GoodMarker(open) && GoodMarker(close)
    requires IndexOf(html, open) == Some(m.start) && LastIndexOf(html, close) == Some(m.end)
    requires OccursAt(r, open, m.start) && r[..m.start] == html[..m.start]
    requires OccursAt(r, close, q) && r[q + |close|..] == html[m.end + |close|..]
    requires m.start + |open| <= q
    ensures FindMarkers(r, open, close) == Some(MarkerSpan(m.start, q))
  {
    FirstStaysFirst(html, r, open, m.start);
    LastStaysLast(html, r, close, m.end, q);
    FindMarkersIs(r, open, close, m.start, q);
  }

  /** `FindMarkers` from the first `open` and the last `close`. */
  lemma FindMarkersIs(html: string, open: string, close: string, i: nat, j: nat)
    requires IndexOf(html, open) == Some(i) && LastIndexOf(html, close) == Some(j) && i + |open| <= j
    ensures FindMarkers(html, open, close) == Some(MarkerSpan(i, j))
  {
  }

  /** Where the pieces of a five-part concatenation lie. */
  lemma FivePieces(a: string, b: string, c: string, d: string, e: string)
    ensures var s := a + b + c + d + e;
      && s[..|a|] == a && OccursAt(s, b, |a|)
      && OccursAt(s, d, |a| + |b| + |c|) && s[|a| + |b| + |c| + |d|..] == e
  {
    var s := a + b + c + d + e;
    assert s[|a|..|a| + |b|] == b;
    assert s[|a| + |b| + |c|..|a| + |b| + |c| + |d|] == d;
  }

  /** `indexOf` of a good marker is unchanged by changes after it. */
  lemma FirstStaysFirst(html: string, r: string, m: string, i: nat)
    requires GoodMarker(m) && IndexOf(html, m) == Some(i)
    requires OccursAt(r, m, i) && r[..i] == html[..i]
    ensures IndexOf(r, m) == Some(i)
  {
    FirstOccurrenceKept(html, r, m, i);
    IndexOfIs(r, m, i);
  }

  /** `lastIndexOf` of a good marker moves with the text after it. */
  lemma LastStaysLast(html: string, r: string, m: string, j: nat, q: nat)
    requires GoodMarker(m) && LastIndexOf(html, m) == Some(j)
    requires OccursAt(r, m, q) && r[q + |m|..] == html[j + |m|..]
    ensures LastIndexOf(r, m) == Some(q)
  {
    LastOccurrenceKept(html, r, m, j, q);
    LastIndexOfIs(r, m, q);
  }

  /** Controls without `$` are inserted as they are by the splice as written. */
  lemma SpliceAsWrittenWithoutDollar(html: string, open: string, close: string, controls: string)
    requires '$' !in open && '$' !in close && '$' !in controls
    ensures SpliceAsWritten(html, open, close, controls) == Splice(html, open, close, controls)
  {
    match FindMarkers(html, open, close)
    case None =>
    case Some(m) =>
      assert '$' !in Section(open, close, controls);
      SubstituteWithoutDollar(Section(open, close, controls), html[m.start..m.end + |close|],
                              html[..m.start], html[m.end + |close|..]);
  }

  /**
   * The splice as written puts the whole matched section (the old controls
   * with both markers) in place of a `$&` in the new controls, so the
   * result is longer than the verbatim splice by the section's length less 2.
   */
  lemma SpliceAsWrittenExpandsMatch(html: string, open: string, close: string, before: string, after: string)
    requires FindMarkers(html, open, close).Some?
    requires '$' !in open && '$' !in close && '$' !in before && '$' !in after
    ensures var m := FindMarkers(html, open, close).value;
      var controls := before + "$&" + after;
      |SpliceAsWritten(html, open, close, controls)|
        == |Splice(html, open, close, controls)| + (m.end + |close| - m.start) - 2
  {
    var m := FindMarkers(html, open, close).value;
    var matched := html[m.start..m.end + |close|];
    var x, z := open + "\n" + before, after + "\n        " + close;
    assert Section(open, close, before + "$&" + after) == x + ("$&" + z);
    SubstituteDollarFreePrefix(x, "$&" + z, matched, html[..m.start], html[m.end + |close|..]);
    SubstituteMatchPattern(z, matched, html[..m.start], html[m.end + |close|..]);
    SubstituteWithoutDollar(z, matched, html[..m.start], html[m.end + |close|..]);
  }

  /** Re-importing into a document already spliced replaces the controls spliced in before. */
  lemma SpliceControlsAgain(html: string, first: string, second: string)
    ensures SpliceControls(SpliceControls(html, first), second) == SpliceControls(html, second)
  {
    ControlsMarkersGood();
    SpliceAgain(html, ControlsStart, ControlsEnd, first, second);
  }

  /**
   * A `$&` in the controls (from an id, or a label whose `&` the escaper
   * turns into `$&amp;`) is replaced by the whole old controls section.
   */
  lemma ControlsDollarPatternExpands(html: string, before: string, after: string)
    requires FindMarkers(html, ControlsStart, ControlsEnd).Some? && '$' !in before && '$' !in after
    ensures |SpliceControlsAsWritten(html, before + "$&" + after)|
         > |SpliceControls(html, before + "$&" + after)|
  {
    ControlsMarkersGood();
    SpliceAsWrittenExpandsMatch(html, ControlsStart, ControlsEnd, before, after);
  }

  /** Controls without `$` reach the document as they are. */
  lemma ControlsWithoutDollarVerbatim(html: string, controls: string)
    requires '$' !in controls
    ensures SpliceControlsAsWritten(html, controls) == SpliceControls(html, controls)
  {
    ControlsMarkersGood();
    SpliceAsWrittenWithoutDollar(html, ControlsStart, ControlsEnd, controls);
  }

  // ---------------------------------------------------------------------
  // The command
  // ---------------------------------------------------------------------

  /** Where the file goes: the first workspace folder, or the save dialog's answer. */
  datatype Destination = WorkspaceFolder | SaveDialog(picked: Option<string>)

  /** What the command does. */
  datatype Outcome =
    | Rejected(message: string)
    | SaveCancelled
      /** The file written (its name in the workspace folder, or the path picked), its text, and the message shown. */
    | Written(path: string, html: string, message: string)

  /** The error notification for an invalid spec. */
  function RejectionMessage(error: SpecError, stringify: Json -> string): string {
    "Invalid lab spec: " + ErrorText(error, stringify)
  }

  /** The success notification. */
  function SuccessMessage(title: string, count: nat): string {
    "\U{2728} Lab app \"" + title + "\" generated from spec with " + NatToString(count) + " controls!"
  }

  /** The spec the command works on, when the text validates. */
  function ValidatedSpec(parsed: ParseOutcome, numberText: real -> string): Option<LabSpec> {
    if ValidateSpec(parsed).Valid? then AsLabSpec(parsed.value, numberText) else None
  }

  /**
   * `importSpecCommand()`, with `parse` for `JSON.parse`, `stringify` for
   * `JSON.stringify`, `numberText` for `String(n)` of a number that is not
   * an integer of magnitude at most 2^53, and `generate` for the base-document generator. An
   * invalid spec is reported and nothing is written; a dismissed save
   * dialog writes nothing either.
   */
  function ImportSpecCommand(input: InputBox, parse: string -> ParseOutcome, stringify: Json -> string,
                             numberText: real -> string, generate: AppOptions -> string, destination: Destination): (r: Outcome)
    requires ValidateSpec(parse(SpecText(input, SampleSpec))).Valid? ==> AsLabSpec(parse(SpecText(input, SampleSpec)).value, numberText).Some?
    ensures var parsed := parse(SpecText(input, SampleSpec));
      ValidateSpec(parsed).Invalid? ==> r == Rejected(RejectionMessage(ValidateSpec(parsed).error, stringify))
    ensures r.Written? || r.SaveCancelled? <==> ValidateSpec(parse(SpecText(input, SampleSpec))).Valid?
    ensures r.SaveCancelled? <==> ValidateSpec(parse(SpecText(input, SampleSpec))).Valid? && destination == SaveDialog(None)
    ensures r.Written? ==>
      var parsed := parse(SpecText(input, SampleSpec));
      var spec := AsLabSpec(parsed.value, numberText).value;
      && r.html == SpliceControls(generate(OptionsFor(spec)), ControlsHtml(spec.controls))
      && r.path == (if destination.WorkspaceFolder? then FileName(spec.title) else destination.picked.value)
      && r.message == SuccessMessage(spec.title, |Get(parsed.value, "controls").value.items|)
    ensures r.Written? ==>
      var spec := AsLabSpec(parse(SpecText(input, SampleSpec)).value, numberText).value;
      '$' !in ControlsHtml(spec.controls) ==>
        r.html == SpliceControlsAsWritten(generate(OptionsFor(spec)), ControlsHtml(spec.controls))
  {
    var parsed := parse(SpecText(input, SampleSpec));
    var result := ValidateSpec(parsed);
    if result.Invalid? then Rejected(RejectionMessage(result.error, stringify))
    else
      var spec := AsLabSpec(parsed.value, numberText).value;
      ValidatedSpecFields(parsed, numberText, spec);
      var controls := ControlsHtml(spec.controls);
      var html := SpliceControls(generate(OptionsFor(spec)), controls);
      assert '$' !in controls ==> html == SpliceControlsAsWritten(generate(OptionsFor(spec)), controls) by {
        if '$' !in controls {
          ControlsWithoutDollarVerbatim(generate(OptionsFor(spec)), controls);
        }
      }
      match destination
      case WorkspaceFolder => Written(FileName(spec.title), html, SuccessMessage(spec.title, |spec.controls|))
      case SaveDialog(None) => SaveCancelled
      case SaveDialog(Some(path)) => Written(path, html, SuccessMessage(spec.title, |spec.controls|))
  }
}
