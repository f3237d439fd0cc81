/**
 * The sidebar view (`LabViewProvider`): it shows the template gallery and
 * the recent lab files, turns the buttons' messages into commands, and
 * composes a new lab file from a gallery template: the base document for
 * the template's name, its script tags before `</head>`, its output markup
 * after the output marker (dropping the placeholder paragraph) and its
 * script after the script marker, saved as `lab-<id>.html`.
 *
 * The VS Code API is abstracted: the workspace search, the outcome of
 * opening a document, the base-document generator and the file's
 * destination are inputs (`Host`); the commands run, documents opened,
 * notifications, files written and messages posted to the webview are
 * recorded, in order, as `Effect`s.
 */
module LabView {
  import opened Wrappers
  import opened Strings
  import opened BaseApp
  import opened GalleryTemplates
  import ImportSpec
  import PublishReady

  // ---------------------------------------------------------------------
  // Markers of the base document
  // ---------------------------------------------------------------------

  /** The comment after which the output markup goes. */
  const OutputStart: string := "<!-- LAB_INJECT_OUTPUT_START -->"
  /** The paragraph the output markup replaces. */
  const Placeholder: string := "<p class=\"placeholder\">" + "Your output will appear here.</p>"
  /** The comment after which the template's script goes. */
  const JsStart: string := "/* LAB_INJECT_JS_START */"

  /** The markers have no `$`, so text put next to them is never expanded. */
  lemma MarkersDollarFree()
    ensures '$' !in OutputStart && '$' !in JsStart
  {
  }

  // ---------------------------------------------------------------------
  // Script tags
  // ---------------------------------------------------------------------

  /** `<script src="${s}"></script>`. */
  function ScriptTag(url: string): string {
    "<script src=\"" + url + "\"></script>"
  }

  /** `scripts.map(s => <tag of s>)`. */
  function Tags(urls: seq<string>): (r: seq<string>)
    ensures |r| == |urls|
    ensures forall i | 0 <= i < |urls| :: r[i] == ScriptTag(urls[i])
  {
    if |urls| == 0 then [] else Tags(urls[..|urls| - 1]) + [ScriptTag(urls[|urls| - 1])]
  }

  /** The tags joined by a newline and two spaces (`scriptsHtml`). */
  function ScriptTags(urls: seq<string>): string {
    Join(Tags(urls), "\n  ")
  }

  /** One tag per URL, in order: a single URL gives its tag, one more URL adds its tag last. */
  lemma ScriptTagsSnoc(urls: seq<string>, url: string)
    ensures ScriptTags([url]) == ScriptTag(url)
    ensures |urls| > 0 ==> ScriptTags(urls + [url]) == ScriptTags(urls) + "\n  " + ScriptTag(url)
  {
    assert Tags([url]) == [ScriptTag(url)];
    if |urls| > 0 {
      assert Tags(urls + [url]) == Tags(urls) + [ScriptTag(url)];
      JoinSnoc(Tags(urls), ScriptTag(url), "\n  ");
    }
  }

  /** The tags of URLs without `$` have no `$`. */
  lemma {:induction false} ScriptTagsDollarFree(urls: seq<string>)
    requires forall i | 0 <= i < |urls| :: '$' !in urls[i]
    ensures '$' !in ScriptTags(urls)
  {
    if |urls| == 1 {
      ScriptTagsSnoc([], urls[0]);
      assert urls == [urls[0]];
    } else if |urls| > 1 {
      var init := urls[..|urls| - 1];
      ScriptTagsDollarFree(init);
      ScriptTagsSnoc(init, urls[|urls| - 1]);
      assert init + [urls[|urls| - 1]] == urls;
    }
  }

  /** The script-injection step: only a non-empty `scripts` list changes the document. */
  function InjectScripts(html: string, scripts: Option<seq<string>>): string {
    if scripts.Some? && |scripts.value| > 0 then
      Replace(html, PublishReady.HeadClose, "  " + ScriptTags(scripts.value) + "\n" + PublishReady.HeadClose)
    else html
  }

  /**
   * Without scripts nothing changes; with URLs free of `$`, their tags go,
   * indented and followed by a newline, right before the first `</head>`,
   * and a document without `</head>` is left as it is.
   */
  lemma ScriptsBeforeHead(html: string, scripts: Option<seq<string>>)
    requires scripts.Some? ==> forall i | 0 <= i < |scripts.value| :: '$' !in scripts.value[i]
    ensures scripts.None? || |scripts.value| == 0 ==> InjectScripts(html, scripts) == html
    ensures !Contains(html, PublishReady.HeadClose) ==> InjectScripts(html, scripts) == html
    ensures scripts.Some? && |scripts.value| > 0 && Contains(html, PublishReady.HeadClose) ==>
      var i := IndexOf(html, PublishReady.HeadClose).value;
      InjectScripts(html, scripts) == html[..i] + "  " + ScriptTags(scripts.value) + "\n" + html[i..]
  {
    if scripts.Some? && |scripts.value| > 0 {
      var rep := "  " + ScriptTags(scripts.value) + "\n" + PublishReady.HeadClose;
      ScriptTagsDollarFree(scripts.value);
      assert '$' !in rep;
      ReplaceIsLiteralWithoutDollar(html, PublishReady.HeadClose, rep);
      if Contains(html, PublishReady.HeadClose) {
        var i := IndexOf(html, PublishReady.HeadClose).value;
        assert html[i..] == PublishReady.HeadClose + html[i + |PublishReady.HeadClose|..];
      }
    }
  }

  // ---------------------------------------------------------------------
  // Output markup
  // ---------------------------------------------------------------------

  /** The step for an `#outputCanvas` entry: markup after the output marker, then the placeholder removed. */
  function OutputStep(html: string, content: string): string {
    Replace(Replace(html, OutputStart, OutputStart + "\n" + content), Placeholder, "")
  }

  /** One iteration of the `injectHtml` loop. */
  function EntryStep(html: string, entry: (string, string)): string {
    if entry.0 == OutputCanvas then OutputStep(html, entry.1) else html
  }

  /** The `injectHtml` loop over `Object.entries`, entry by entry. */
  function InjectEntries(html: string, entries: seq<(string, string)>): string
    decreases |entries|
  {
    if |entries| == 0 then html
    else EntryStep(InjectEntries(html, entries[..|entries| - 1]), entries[|entries| - 1])
  }

  /** The HTML-injection step: nothing without `injectHtml`. */
  function InjectHtml(html: string, injectHtml: Option<seq<(string, string)>>): string {
    if injectHtml.Some? then InjectEntries(html, injectHtml.value) else html
  }

  /** Object keys are distinct. */
  predicate DistinctKeys(entries: seq<(string, string)>) {
    forall i, j | 0 <= i < j < |entries| :: entries[i].0 != entries[j].0
  }

  /** The markup under the `#outputCanvas` key, if there is one. */
  function OutputContent(entries: seq<(string, string)>): (r: Option<string>)
    decreases |entries|
    ensures r.None? <==> forall i | 0 <= i < |entries| :: entries[i].0 != OutputCanvas
    ensures r.Some? ==> (OutputCanvas, r.value) in entries
  {
    if |entries| == 0 then None
    else if entries[|entries| - 1].0 == OutputCanvas then Some(entries[|entries| - 1].1)
    else OutputContent(entries[..|entries| - 1])
  }

  /**
   * Only the `#outputCanvas` key has any effect: the loop amounts to one
   * output step with its markup, or to nothing when the key is absent.
   */
  lemma {:induction false} OnlyOutputCanvasCounts(html: string, entries: seq<(string, string)>)
    requires DistinctKeys(entries)
    ensures OutputContent(entries).None? ==> InjectEntries(html, entries) == html
    ensures OutputContent(entries).Some? ==> InjectEntries(html, entries) == OutputStep(html, OutputContent(entries).value)
  {
    if |entries| > 0 {
      var n := |entries|;
      var init := entries[..n - 1];
      assert DistinctKeys(init) by {
        forall i, j | 0 <= i < j < |init|
          ensures init[i].0 != init[j].0
        {
          assert init[i] == entries[i] && init[j] == entries[j];
        }
      }
      OnlyOutputCanvasCounts(html, init);
      if entries[n - 1].0 == OutputCanvas {
        forall i | 0 <= i < |init|
          ensures init[i].0 != OutputCanvas
        {
          assert init[i] == entries[i];
        }
      }
    }
  }

  /**
   * With markup free of `$`, the output step inserts the markup verbatim
   * on the line after the first output marker, keeping the marker, and
   * then removes the first placeholder paragraph, if any, verbatim.
   */
  lemma OutputStepInserts(html: string, content: string)
    requires '$' !in content
    ensures var mid := ReplaceLiteral(html, OutputStart, OutputStart + "\n" + content);
      && OutputStep(html, content) == ReplaceLiteral(mid, Placeholder, "")
      && (!Contains(html, OutputStart) ==> mid == html)
      && (Contains(html, OutputStart) ==>
            var i := IndexOf(html, OutputStart).value;
            mid == html[..i] + OutputStart + "\n" + content + html[i + |OutputStart|..])
      && (!Contains(mid, Placeholder) ==> OutputStep(html, content) == mid)
      && (Contains(mid, Placeholder) ==>
            var j := IndexOf(mid, Placeholder).value;
            OutputStep(html, content) == mid[..j] + mid[j + |Placeholder|..])
  {
    var rep := OutputStart + "\n" + content;
    MarkersDollarFree();
    assert '$' !in rep;
    ReplaceIsLiteralWithoutDollar(html, OutputStart, rep);
    var mid := ReplaceLiteral(html, OutputStart, rep);
    ReplaceIsLiteralWithoutDollar(mid, Placeholder, "");
  }

  // ---------------------------------------------------------------------
  // Script section
  // ---------------------------------------------------------------------

  /** The JS-injection step: only a truthy `injectJs` changes the document. */
  function InjectJs(html: string, injectJs: Option<string>): string {
    if injectJs.Some? && |injectJs.value| > 0 then Replace(html, JsStart, JsStart + "\n" + injectJs.value) else html
  }

  /**
   * A script free of `$` goes verbatim on the line after the first script
   * marker, which is kept; without the marker nothing changes.
   */
  lemma ScriptAfterMarker(html: string, js: string)
    requires '$' !in js
    ensures !Contains(html, JsStart) ==> InjectJs(html, Some(js)) == html
    ensures |js| > 0 && Contains(html, JsStart) ==>
      var i := IndexOf(html, JsStart).value;
      InjectJs(html, Some(js)) == html[..i] + JsStart + "\n" + js + html[i + |JsStart|..]
  {
    var rep := JsStart + "\n" + js;
    MarkersDollarFree();
    assert '$' !in rep;
    ReplaceIsLiteralWithoutDollar(html, JsStart, rep);
  }

  // ---------------------------------------------------------------------
  // The composed document
  // ---------------------------------------------------------------------

  /** `baseOptions`: the template's name as title, every section included, dark theme. */
  function BaseOptions(t: LabTemplate): (o: AppOptions)
    ensures o.title == t.name
    ensures o.includePresetManager && o.includeExportButtons && o.darkTheme
  {
    AppOptions(t.name, true, true, true)
  }

  /** The document `_createFromTemplate` writes, from the base document `base`. */
  function TemplateDocument(base: string, t: LabTemplate): string {
    InjectJs(InjectHtml(InjectScripts(base, t.scripts), t.injectHtml), t.injectJs)
  }

  /** The statements of `_createFromTemplate` that build `html` from the base document. */
  method ComposeDocument(base: string, t: LabTemplate) returns (html: string)
    ensures html == TemplateDocument(base, t)
  {
    html := base;
    if t.scripts.Some? && |t.scripts.value| > 0 {
      var scriptsHtml := ScriptTags(t.scripts.value);
      html := Replace(html, PublishReady.HeadClose, "  " + scriptsHtml + "\n" + PublishReady.HeadClose);
    }
    if t.injectHtml.Some? {
      var entries := t.injectHtml.value;
      ghost var start := html;
      for i := 0 to |entries|
        invariant html == InjectEntries(start, entries[..i])
      {
        var (selector, content) := entries[i];
        assert entries[..i + 1][..i] == entries[..i];
        if selector == OutputCanvas {
          html := Replace(Replace(html, OutputStart, OutputStart + "\n" + content), Placeholder, "");
        }
      }
      assert entries[..|entries|] == entries;
    }
    if t.injectJs.Some? && |t.injectJs.value| > 0 {
      html := Replace(html, JsStart, JsStart + "\n" + t.injectJs.value);
    }
  }

  /** The Chart.js URL has no `$`, so the visualizer's tag is inserted verbatim. */
  lemma ChartJsUrlDollarFree()
    ensures '$' !in ChartJsUrl
  {
  }

  /**
   * For every entry of the table: the document is the base document with
   * the script tags, then the entry's output markup, then its script, each
   * applied once; only the visualizer adds script tags.
   */
  lemma TableDocument(x: TableText, key: string, base: string)
    requires key in Table(x)
    ensures var t := Table(x)[key];
      TemplateDocument(base, t) ==
        InjectJs(OutputStep(InjectScripts(base, t.scripts), t.injectHtml.value[0].1), t.injectJs)
    ensures key != "visualizer" ==> InjectScripts(base, Table(x)[key].scripts) == base
  {
    var t := Table(x)[key];
    OutputCanvasOnly(x);
    OnlyVisualizerHasScripts(x);
    var entries := t.injectHtml.value;
    assert DistinctKeys(entries);
    OnlyOutputCanvasCounts(InjectScripts(base, t.scripts), entries);
    assert OutputContent(entries) == Some(entries[0].1);
  }

  // ---------------------------------------------------------------------
  // File name and notifications
  // ---------------------------------------------------------------------

  /** `lab-${templateId}.html`. */
  function TemplateFileName(templateId: string): (r: string)
    ensures StartsWith(r, "lab-") && EndsWith(r, ".html")
  {
    "lab-" + templateId + ".html"
  }

  /** The file name gives back the template id, so distinct ids never share a file. */
  lemma TemplateFileNameInverse(a: string, b: string)
    ensures var f := TemplateFileName(a); |f| == |a| + 9 && f[4..|f| - 5] == a
    ensures TemplateFileName(a) == TemplateFileName(b) ==> a == b
  {
    var f := TemplateFileName(a);
    assert f[4..|f| - 5] == a;
    if TemplateFileName(a) == TemplateFileName(b) {
      var g := TemplateFileName(b);
      assert g[4..|g| - 5] == b;
    }
  }

  /** `Creating ${template.name}...`. */
  function CreatingMessage(name: string): string {
    "Creating " + name + "..."
  }

  /**
   * The notification after a file is created, with the prefix as the
   * source spells it: the four characters U+00F0 U+0178 U+0161 U+20AC.
   */
  function CreatedMessage(name: string): string {
    "\U{F0}\U{178}\U{161}\U{20AC} " + name + " created!"
  }

  const OpenErrorPrefix: string := "Could not open file: "

  // ---------------------------------------------------------------------
  // Recent files
  // ---------------------------------------------------------------------

  /** The `maxResults` of the workspace search. */
  const MaxRecent: nat := 10

  /** An entry of the recent-files list: the file's base name and path. */
  datatype RecentFile = RecentFile(name: string, path: string)

  /** `p` without its trailing `/` characters. */
  function StripTrailingSlashes(p: string): (r: string)
    decreases |p|
    ensures |r| <= |p| && r == p[..|r|]
    ensures |r| == 0 || r[|r| - 1] != '/'
    ensures forall k | |r| <= k < |p| :: p[k] == '/'
  {
    if |p| > 0 && p[|p| - 1] == '/' then StripTrailingSlashes(p[..|p| - 1]) else p
  }

  /**
   * `path.basename(p)` with `/` as the separator: what follows the last `/`
   * once trailing separators are dropped.
   */
  function Basename(p: string): (r: string)
    ensures '/' !in r
    ensures EndsWith(StripTrailingSlashes(p), r)
    ensures var q := StripTrailingSlashes(p); r == q || q[|q| - |r| - 1] == '/'
  {
    var q := StripTrailingSlashes(p);
    match LastIndexOf(q, "/")
    case None =>
      NoSlashAfter(q, -1);
      q
    case Some(j) =>
      assert q[j..j + 1] == "/";
      NoSlashAfter(q, j);
      SuffixIsSlice(q, j + 1);
      q[j + 1..]
  }

  /** Where `/` does not occur, there is no `/` character. */
  lemma NoSlashAfter(q: string, j: int)
    requires -1 <= j
    requires forall k | j < k :: !OccursAt(q, "/", k)
    ensures forall k | j < k < |q| :: q[k] != '/'
    ensures j < 0 ==> '/' !in q
  {
    forall k | j < k < |q|
      ensures q[k] != '/'
    {
      assert !OccursAt(q, "/", k);
      assert q[k..k + 1] == [q[k]];
    }
  }

  /** A suffix is what the string ends with. */
  lemma SuffixIsSlice(q: string, i: nat)
    requires i <= |q|
    ensures EndsWith(q, q[i..])
  {
  }

  /** A name without `/` and without trailing separator is its own base name. */
  lemma BasenameOfName(name: string)
    requires '/' !in name
    ensures Basename(name) == name
  {
    assert StripTrailingSlashes(name) == name by {
      if |name| > 0 {
        assert name[|name| - 1] in name;
      }
    }
    assert !Contains(name, "/") by {
      MissingCharExcludes(name, "/", '/');
    }
  }

  /** The paths `findFiles` returns: at most `MaxRecent` of the matching files. */
  function FoundFiles(matches: seq<string>): (r: seq<string>)
    ensures |r| <= MaxRecent && |r| <= |matches| && r == matches[..|r|]
    ensures |matches| <= MaxRecent ==> r == matches
  {
    if |matches| <= MaxRecent then matches else matches[..MaxRecent]
  }

  /** `_getRecentFiles()`: one entry per file found, named by its base name. */
  function RecentFiles(matches: seq<string>): (r: seq<RecentFile>)
    ensures |r| <= MaxRecent && |r| == |FoundFiles(matches)|
    ensures forall i | 0 <= i < |r| :: r[i].path == matches[i] && r[i].name == Basename(matches[i])
  {
    var found := FoundFiles(matches);
    seq(|found|, i requires 0 <= i < |found| => RecentFile(Basename(found[i]), found[i]))
  }

  // ---------------------------------------------------------------------
  // Gallery cards
  // ---------------------------------------------------------------------

  /** The click handler of a card. */
  function CardCall(id: string): string {
    "createFromTemplate('" + id + "')"
  }

  /** The start of a card, up to its click handler. */
  const CardOpen: string := "\n    <div class=\"template-card\" onclick=\""

  /** The rest of a card: the name and the description. */
  function CardBody(t: LabTemplate): string {
    "\">\n      <div class=\"template-name\">"
    + t.name
    + "</div>\n      <div class=\"template-desc\">"
    + t.description
    + "</div>\n    </div>"
  }

  /** One gallery card. */
  function Card(t: LabTemplate): string {
    CardOpen + CardCall(t.id) + CardBody(t)
  }

  /** A card holds its click handler. */
  lemma CardHasCall(t: LabTemplate)
    ensures Contains(Card(t), CardCall(t.id))
  {
    ContainsMiddle(CardOpen, CardCall(t.id), CardBody(t));
  }

  /** `templates.map(card)`. */
  function Cards(ts: seq<LabTemplate>): (r: seq<string>)
    ensures |r| == |ts| && forall i | 0 <= i < |ts| :: r[i] == Card(ts[i])
  {
    seq(|ts|, i requires 0 <= i < |ts| => Card(ts[i]))
  }

  /** `templates.map(card).join('')`. */
  function GalleryCards(ts: seq<LabTemplate>): string {
    Join(Cards(ts), "")
  }

  /** Each template's card is in the gallery. */
  lemma GalleryHasEveryCard(ts: seq<LabTemplate>, i: nat)
    requires i < |ts|
    ensures Contains(GalleryCards(ts), Card(ts[i]))
  {
    JoinHasPart(Cards(ts), "", i);
  }

  /** Each template's click handler is in the gallery. */
  lemma GalleryCallsEveryTemplate(ts: seq<LabTemplate>, i: nat)
    requires i < |ts|
    ensures Contains(GalleryCards(ts), CardCall(ts[i].id))
  {
    GalleryHasEveryCard(ts, i);
    CardHasCall(ts[i]);
    ContainsTransitive(GalleryCards(ts), Card(ts[i]), CardCall(ts[i].id));
  }

  /**
   * Every card of the gallery calls `createFromTemplate` with the id of a
   * table entry, and that id looks the same entry up again.
   */
  lemma GalleryCardsResolve(x: TableText)
    ensures forall i | 0 <= i < |TableValues(x)| ::
      && Contains(GalleryCards(TableValues(x)), CardCall(TableValues(x)[i].id))
      && Lookup(Table(x), TableValues(x)[i].id) == Some(TableValues(x)[i])
  {
    IdsMatchKeys(x);
    forall i | 0 <= i < |TableValues(x)|
      ensures Contains(GalleryCards(TableValues(x)), CardCall(TableValues(x)[i].id))
    {
      GalleryCallsEveryTemplate(TableValues(x), i);
    }
  }

  // ---------------------------------------------------------------------
  // The provider
  // ---------------------------------------------------------------------

  /** A message posted by the sidebar's page: its `type`, and its `path` and `templateId` fields. */
  datatype WebviewMessage = WebviewMessage(kind: string, path: Option<string>, templateId: Option<string>)

  /** What VS Code answers: the workspace search, opening a document, the base document, and the save target. */
  datatype Host = Host(
    matches: seq<string>,
      /** `None` when the document opens, else the error's message. */
    openError: Option<string>,
    generate: AppOptions -> string,
    destination: ImportSpec.Destination)

  /** The calls the provider makes into VS Code, in order. */
  datatype Effect =
    | ExecuteCommand(command: string)
      /** Open a text document and show it in an editor. */
    | OpenDocument(path: string)
    | ShowError(message: string)
    | ShowInfo(message: string)
    | WriteFile(path: string, text: string)
      /** `postMessage({ type: 'updateRecent', files })`. */
    | PostRecent(files: seq<RecentFile>)

  /** A `path` field is truthy. */
  predicate TruthyPath(path: Option<string>) {
    path.Some? && |path.value| > 0
  }

  /** The property key `TEMPLATES[templateId]` reads: an absent id reads the key `"undefined"`. */
  function TemplateKey(templateId: Option<string>): string {
    if templateId.Some? then templateId.value else "undefined"
  }

  /** An absent template id names no template. */
  lemma AbsentIdNamesNoTemplate(x: TableText)
    ensures TemplateKey(None) !in Table(x)
  {
    TableKeys(x);
  }

  /** The `openFile` case for a truthy path. */
  function OpenEffects(path: string, openError: Option<string>): (r: seq<Effect>)
    ensures |r| == 1
    ensures openError.None? <==> r[0].OpenDocument?
    ensures openError.Some? ==> r[0] == ShowError(OpenErrorPrefix + openError.value)
  {
    match openError
    case None => [OpenDocument(path)]
    case Some(message) => [ShowError(OpenErrorPrefix + message)]
  }

  /** `updateRecentFiles()`: nothing before the view is resolved. */
  function RecentEffects(viewResolved: bool, matches: seq<string>): (r: seq<Effect>)
    ensures |r| <= 1
    ensures r != [] <==> viewResolved
  {
    if viewResolved then [PostRecent(RecentFiles(matches))] else []
  }

  /** The file the template goes to: `lab-<id>.html` in the workspace folder, or the path picked in the save dialog. */
  function SavePath(key: string, destination: ImportSpec.Destination): (r: Option<string>)
    ensures destination.WorkspaceFolder? ==> r == Some(TemplateFileName(key))
    ensures destination.SaveDialog? ==> r == destination.picked
  {
    match destination
    case WorkspaceFolder => Some(TemplateFileName(key))
    case SaveDialog(picked) => picked
  }

  /** What `_createFromTemplate(key)` does, given the table it reads. */
  function CreationEffects(table: map<string, LabTemplate>, key: string, host: Host, viewResolved: bool): seq<Effect> {
    match Lookup(table, key)
    case None => []
    case Some(t) => [ShowInfo(CreatingMessage(t.name))] + FileEffects(key, t, host, viewResolved)
  }

  /** What follows the first notification: write, open and announce the file, then refresh the recent files. */
  function FileEffects(key: string, t: LabTemplate, host: Host, viewResolved: bool): seq<Effect> {
    match SavePath(key, host.destination)
    case None => []
    case Some(path) =>
      [WriteFile(path, TemplateDocument(host.generate(BaseOptions(t)), t)), OpenDocument(path), ShowInfo(CreatedMessage(t.name))]
      + RecentEffects(viewResolved, host.matches)
  }

  /**
   * An unknown key does nothing. A known one announces the template first;
   * a file is written exactly when there is somewhere to save it, then it is
   * opened, the success is announced and the recent files are refreshed.
   */
  lemma CreationEffectsShape(table: map<string, LabTemplate>, key: string, host: Host, viewResolved: bool)
    ensures key !in table ==> CreationEffects(table, key, host, viewResolved) == []
    ensures key in table ==>
      var r := CreationEffects(table, key, host, viewResolved);
      && |r| > 0 && r[0] == ShowInfo(CreatingMessage(table[key].name))
      && (|r| > 1 <==> SavePath(key, host.destination).Some?)
      && (|r| > 1 ==>
            var path := SavePath(key, host.destination).value;
            var t := table[key];
            && r[1] == WriteFile(path, TemplateDocument(host.generate(BaseOptions(t)), t))
            && r[2] == OpenDocument(path)
            && r[3] == ShowInfo(CreatedMessage(t.name))
            && r[4..] == RecentEffects(viewResolved, host.matches))
    ensures forall e | e in CreationEffects(table, key, host, viewResolved) && e.WriteFile? ::
      key in table && host.destination.WorkspaceFolder? ==> e.path == TemplateFileName(key)
  {
  }

  /** The provider's state: whether `_view` is set, the gallery it shows, and the calls made so far. */
  class LabViewProvider {
    /** The texts of the `TEMPLATES` table the provider reads (`Table(texts)` is the table). */
    const texts: TableText
    var viewResolved: bool
    /** The gallery part of the view's HTML. */
    var galleryHtml: string
    var effects: seq<Effect>

    constructor ()
      ensures texts == TemplateTexts
      ensures !viewResolved && galleryHtml == "" && effects == []
    {
      texts := TemplateTexts;
      viewResolved := false;
      galleryHtml := "";
      effects := [];
    }

    /**
     * `resolveWebviewView`: keep the view, show the gallery of `TEMPLATES`
     * in insertion order, and post the recent files.
     */
    method ResolveWebviewView(matches: seq<string>)
      modifies this
      ensures viewResolved
      ensures galleryHtml == GalleryCards(TableValues(texts))
      ensures effects == old(effects) + [PostRecent(RecentFiles(matches))]
    {
      viewResolved := true;
      galleryHtml := GalleryCards(TableValues(texts));
      UpdateRecentFiles(matches);
    }

    /** `updateRecentFiles()`: post the files found, once the view is resolved. */
    method UpdateRecentFiles(matches: seq<string>)
      modifies this`effects
      ensures effects == old(effects) + RecentEffects(viewResolved, matches)
    {
      if !viewResolved {
        return;
      }
      var recent := RecentFiles(matches);
      effects := effects + [PostRecent(recent)];
    }

    /** `_createFromTemplate(key)`. */
    method CreateFromTemplate(key: string, host: Host)
      modifies this`effects
      ensures effects == old(effects) + CreationEffects(Table(texts), key, host, viewResolved)
    {
      var template := Lookup(Table(texts), key);
      if template.None? {
        return;
      }
      CreateFrom(key, template.value, host);
    }

    /** The part of `_createFromTemplate` after the template `t` is found. */
    method CreateFrom(key: string, t: LabTemplate, host: Host)
      modifies this`effects
      ensures effects == old(effects) + [ShowInfo(CreatingMessage(t.name))] + FileEffects(key, t, host, viewResolved)
    {
      effects := effects + [ShowInfo(CreatingMessage(t.name))];
      ghost var announced := effects;
      var html := ComposeDocument(host.generate(BaseOptions(t)), t);
      var filename := TemplateFileName(key);
      var uri := if host.destination.WorkspaceFolder? then Some(filename) else host.destination.picked;
      if uri.Some? {
        var created := [WriteFile(uri.value, html), OpenDocument(uri.value), ShowInfo(CreatedMessage(t.name))];
        effects := effects + created;
        UpdateRecentFiles(host.matches);
        assert effects == announced + (created + RecentEffects(viewResolved, host.matches));
      }
    }

    /**
     * The view's message listener: `newApp` and `importSpec` run their
     * commands, `openFile` opens a truthy path, `createFromTemplate`
     * creates from the message's template id, and any other type does
     * nothing.
     */
    method OnDidReceiveMessage(data: WebviewMessage, host: Host)
      modifies this`effects
      ensures data.kind == "newApp" ==> effects == old(effects) + [ExecuteCommand("lab.newApp")]
      ensures data.kind == "importSpec" ==> effects == old(effects) + [ExecuteCommand("lab.importSpec")]
      ensures data.kind == "openFile" && TruthyPath(data.path) ==> effects == old(effects) + OpenEffects(data.path.value, host.openError)
      ensures data.kind == "openFile" && !TruthyPath(data.path) ==> effects == old(effects)
      ensures data.kind == "createFromTemplate" ==>
        effects == old(effects) + CreationEffects(Table(texts), TemplateKey(data.templateId), host, viewResolved)
      ensures data.kind !in {"newApp", "importSpec", "openFile", "createFromTemplate"} ==> effects == old(effects)
    {
      match data.kind {
        case "newApp" =>
          effects := effects + [ExecuteCommand("lab.newApp")];
        case "importSpec" =>
          effects := effects + [ExecuteCommand("lab.importSpec")];
        case "openFile" =>
          if TruthyPath(data.path) {
            effects := effects + OpenEffects(data.path.value, host.openError);
          }
        case "createFromTemplate" =>
          CreateFromTemplate(TemplateKey(data.templateId), host);
        case _ =>
      }
    }
  }
}
