/**
 * The "Lab: Publish Ready" command (`publishReadyCommand`): it reads the
 * title of the open HTML document, then inserts a favicon link and SEO meta
 * tags before the first `</head>` and an offline service-worker script
 * before the first `</body>`, each only when the document does not already
 * carry the marker that block itself contains.
 *
 * The editor, the quick pick and the notifications are inputs and outputs:
 * the open document is an `Editor` value, the quick pick's answer a
 * `Selection`, and the command's effect an `Outcome`.
 */
module PublishReady {
  import opened Wrappers
  import opened Strings

  /** The active text editor, if any: its file name and its text. */
  datatype Editor = NoEditor | OpenDocument(fileName: string, text: string)

  /** The quick pick's answer: dismissed, or the labels of the picked items. */
  datatype Selection = Dismissed | Items(labels: seq<string>)

  /** Which blocks the picked items ask for. */
  datatype Choice = Choice(favicon: bool, seo: bool, serviceWorker: bool)

  /** What the command does: warn, stop silently, or replace the document's text and report. */
  datatype Outcome =
    | Warned(message: string)
    | NothingSelected
    | Published(content: string, report: string)

  /** Where `<title>` and the `</title>` closing it start in the document. */
  datatype Span = Span(open: nat, close: nat)

  const OpenHtmlWarning: string := "Open an HTML file first to make it publish-ready."
  const OpenTitle: string := "<title>"
  const CloseTitle: string := "</title>"
  const DefaultTitle: string := "Lab App"
  const HeadClose: string := "</head>"
  const BodyClose: string := "</body>"

  // The guard markers; each block below contains its own.
  const RelIconDouble: string := "rel=\"icon\""
  const RelIconSingle: string := "rel='icon'"
  const DescriptionMarker: string := "name=\"description\""
  const OgMarker: string := "property=\"og:title\""
  const ThemeMarker: string := "name=\"theme-color\""
  const ServiceWorkerMarker: string := "serviceWorker"

  /** Whether an editor shows a file whose name ends in `.html`. */
  predicate IsHtmlEditor(editor: Editor) {
    editor.OpenDocument? && EndsWith(editor.fileName, ".html")
  }

  /** Whether at least one item was picked. */
  predicate HasItems(selection: Selection) {
    selection.Items? && |selection.labels| > 0
  }

  /** `items.some(i => i.label.includes(word))`. */
  predicate Picks(labels: seq<string>, word: string) {
    exists i | 0 <= i < |labels| :: Contains(labels[i], word)
  }

  /** The blocks asked for by the picked labels. */
  function ChoiceOf(labels: seq<string>): Choice {
    Choice(Picks(labels, "Favicon"), Picks(labels, "SEO"), Picks(labels, "Service"))
  }

  /** The characters the regular-expression `.` does not match. */
  predicate IsLineTerminator(c: char) {
    c == '\n' || c == '\r' || c == '\U{2028}' || c == '\U{2029}'
  }

  /** `s[a..b]` lies on one line. */
  predicate OnOneLine(s: string, a: int, b: int) {
    forall m | a <= m < b && 0 <= m < |s| :: !IsLineTerminator(s[m])
  }

  /**
   * `/<title>(.*?)<\/title>/` matches with `<title>` at `i` and `</title>` at
   * `j` (the lazy group then being `s[i + 7..j]`, and the first such `j`).
   */
  predicate TitleMatchAt(s: string, i: int, j: int) {
    OccursAt(s, OpenTitle, i) && i + |OpenTitle| <= j && OccursAt(s, CloseTitle, j) && OnOneLine(s, i + |OpenTitle|, j)
  }

  /**
   * The first match of `/<title>(.*?)<\/title>/` starting at or after `k`:
   * the leftmost `<title>` that can match, closed by the first `</title>`
   * after it, with no line break in between.
   */
  function FirstTitleMatch(s: string, k: nat): (r: Option<Span>)
    decreases |s| - k
    ensures r.Some? ==> k <= r.value.open && TitleMatchAt(s, r.value.open, r.value.close)
    ensures r.Some? ==> forall j | r.value.open + |OpenTitle| <= j < r.value.close :: !OccursAt(s, CloseTitle, j)
    ensures r.Some? ==> forall i, j | k <= i < r.value.open :: !TitleMatchAt(s, i, j)
    ensures r.None? ==> forall i, j | k <= i :: !TitleMatchAt(s, i, j)
  {
    match IndexFrom(s, OpenTitle, k)
    case None => None
    case Some(i) =>
      match IndexFrom(s, CloseTitle, i + |OpenTitle|)
      case None => None
      case Some(j) =>
        if OnOneLine(s, i + |OpenTitle|, j) then Some(Span(i, j))
        else FirstTitleMatch(s, i + 1)
  }

  /** `titleMatch ? titleMatch[1] : 'Lab App'`. */
  function ExtractTitle(s: string): string {
    match FirstTitleMatch(s, 0)
    case None => DefaultTitle
    case Some(m) => s[m.open + |OpenTitle|..m.close]
  }

  /**
   * The title is the text of the leftmost one-line `<title>…</title>`, up to
   * the first `</title>`; without such an element it is `Lab App`.
   */
  lemma ExtractTitleIsFirstMatch(s: string)
    ensures (exists i, j ::
              && TitleMatchAt(s, i, j)
              && ExtractTitle(s) == s[i + |OpenTitle|..j]
              && (forall i', j' | 0 <= i' < i :: !TitleMatchAt(s, i', j'))
              && (forall j' | i + |OpenTitle| <= j' < j :: !OccursAt(s, CloseTitle, j')))
         || ((forall i, j | 0 <= i :: !TitleMatchAt(s, i, j)) && ExtractTitle(s) == DefaultTitle)
    ensures ExtractTitle(s) != DefaultTitle ==> forall c | c in ExtractTitle(s) :: !IsLineTerminator(c)
  {
    var r := FirstTitleMatch(s, 0);
    if r.Some? {
      var i, j := r.value.open, r.value.close;
      assert TitleMatchAt(s, i, j) && ExtractTitle(s) == s[i + |OpenTitle|..j];
    }
  }

  /**
   * The fixed texts the command inserts, around the places where the title
   * goes. The command and the properties below are stated for any `Texts`;
   * `Fixed` holds the command's own.
   */
  datatype Texts = Texts(
    faviconLink: string,
    descriptionOpen: string,
    descriptionClose: string,
    ogOpen: string,
    ogClose: string,
    themeMeta: string,
    serviceWorkerBlock: string)

  /** The description meta tag for a title. */
  function DescriptionMeta(t: Texts, title: string): string {
    t.descriptionOpen + title + t.descriptionClose
  }

  /** The three Open Graph meta tags for a title, added together. */
  function OgMetas(t: Texts, title: string): string {
    t.ogOpen + title + t.ogClose
  }

  /** Whether the favicon guard lets the link in. */
  predicate NeedsFavicon(content: string) {
    !Contains(content, RelIconDouble) && !Contains(content, RelIconSingle)
  }

  /** The text `headInjections` holds after the favicon and SEO steps, for `content` and its title. */
  function HeadInjections(content: string, title: string, choice: Choice, t: Texts): string {
    var afterFavicon := if choice.favicon && NeedsFavicon(content) then t.faviconLink else "";
    var afterDescription :=
      if choice.seo && !Contains(content, DescriptionMarker) then afterFavicon + DescriptionMeta(t, title) else afterFavicon;
    var afterOg := if choice.seo && !Contains(content, OgMarker) then afterDescription + OgMetas(t, title) else afterDescription;
    if choice.seo && !Contains(content, ThemeMarker) then afterOg + t.themeMeta else afterOg
  }

  /**
   * The head step, the injections spliced verbatim before the first
   * `</head>`; nothing happens without injections or without `</head>`.
   */
  function InsertHead(content: string, injections: string): (r: string)
    ensures injections == "" || !Contains(content, HeadClose) ==> r == content
    ensures injections != "" && Contains(content, HeadClose) ==>
      var i := IndexOf(content, HeadClose).value;
      r == content[..i] + injections + content[i..]
  {
    if injections == "" then content
    else
      ReplaceLiteralSplice(content, HeadClose, injections + HeadClose);
      ReplaceLiteral(content, HeadClose, injections + HeadClose)
  }

  /** The head step as written: `content.replace('</head>', headInjections + '</head>')`. */
  function InsertHeadAsWritten(content: string, injections: string): string {
    if injections == "" then content else Replace(content, HeadClose, injections + HeadClose)
  }

  /** The service-worker step: `content.replace('</body>', …)` unless the marker is already there. */
  function InsertServiceWorker(content: string, wanted: bool, t: Texts): string {
    if wanted && !Contains(content, ServiceWorkerMarker) then Replace(content, BodyClose, t.serviceWorkerBlock) else content
  }

  /** The new text of the document for the chosen blocks. */
  function Transform(content: string, choice: Choice, t: Texts): string {
    var injections := HeadInjections(content, ExtractTitle(content), choice, t);
    InsertServiceWorker(InsertHead(content, injections), choice.serviceWorker, t)
  }

  /** The transform as written, whose head step expands `$`-patterns of the title. */
  function TransformAsWritten(content: string, choice: Choice, t: Texts): string {
    var injections := HeadInjections(content, ExtractTitle(content), choice, t);
    InsertServiceWorker(InsertHeadAsWritten(content, injections), choice.serviceWorker, t)
  }

  /** The names of the chosen blocks, in the order the report lists them. */
  function ReportParts(choice: Choice): seq<string> {
    (if choice.favicon then ["favicon"] else [])
    + (if choice.seo then ["SEO meta"] else [])
    + (if choice.serviceWorker then ["service worker"] else [])
  }

  const ReportPrefix: string := "\U{1F680} Publish-ready! Injected: "

  /** The information message. */
  function Report(choice: Choice): string {
    ReportPrefix + Join(ReportParts(choice), ", ")
  }

  /** The report names a block exactly when it is chosen. */
  lemma ReportNamesChoices(choice: Choice)
    ensures Contains(Report(choice), "favicon") <==> choice.favicon
    ensures Contains(Report(choice), "SEO meta") <==> choice.seo
    ensures Contains(Report(choice), "service worker") <==> choice.serviceWorker
  {
    ReportNamesFavicon(choice);
    ReportNamesSeo(choice);
    ReportNamesServiceWorker(choice);
  }

  lemma ReportNamesFavicon(choice: Choice)
    ensures Contains(Report(choice), "favicon") <==> choice.favicon
  {
    ReportPrefixAvoids();
    assert 'f' !in "SEO meta" && 'f' !in "service worker";
    ReportHasPart(choice, "favicon", 'f');
  }

  lemma ReportNamesSeo(choice: Choice)
    ensures Contains(Report(choice), "SEO meta") <==> choice.seo
  {
    ReportPrefixAvoids();
    assert 'S' !in "favicon" && 'S' !in "service worker";
    ReportHasPart(choice, "SEO meta", 'S');
  }

  lemma ReportNamesServiceWorker(choice: Choice)
    ensures Contains(Report(choice), "service worker") <==> choice.serviceWorker
  {
    ReportPrefixAvoids();
    assert 'w' !in "favicon" && 'w' !in "SEO meta";
    ReportHasPart(choice, "service worker", 'w');
  }

  lemma ReportPrefixAvoids()
    ensures 'f' !in ReportPrefix && 'S' !in ReportPrefix && 'w' !in ReportPrefix
  {
  }

  /**
   * A name is in the report exactly when it is one of the parts, provided a
   * character of it occurs in no other part, in the separator or in the prefix.
   */
  lemma ReportHasPart(choice: Choice, name: string, c: char)
    requires c in name && c !in ReportPrefix && c !in ", "
    requires forall i | 0 <= i < |ReportParts(choice)| :: ReportParts(choice)[i] == name || c !in ReportParts(choice)[i]
    ensures Contains(Report(choice), name) <==> name in ReportParts(choice)
  {
    var parts := ReportParts(choice);
    if name in parts {
      var i :| 0 <= i < |parts| && parts[i] == name;
      JoinHasPart(parts, ", ", i);
      ContainsInConcat(ReportPrefix, Join(parts, ", "), name);
    } else {
      JoinAvoids(parts, ", ", c);
      MissingCharExcludes(Report(choice), name, c);
    }
  }

  /**
   * `publishReadyCommand()`, inserting the texts `t` (`Fixed` in the
   * extension): warn without an HTML editor, stop when nothing is picked,
   * otherwise accumulate the head injections, splice them and the
   * service-worker script in, and replace the document's text.
   */
  method PublishReadyCommand(editor: Editor, selection: Selection, t: Texts) returns (outcome: Outcome)
    ensures !IsHtmlEditor(editor) ==> outcome == Warned(OpenHtmlWarning)
    ensures IsHtmlEditor(editor) && !HasItems(selection) ==> outcome == NothingSelected
    ensures IsHtmlEditor(editor) && HasItems(selection) ==>
      var choice := ChoiceOf(selection.labels);
      outcome == Published(Transform(editor.text, choice, t), Report(choice))
    ensures IsHtmlEditor(editor) && HasItems(selection)
            && HeadTextsDollarFree(t) && '$' !in t.faviconLink && '$' !in ExtractTitle(editor.text) ==>
      outcome.content == TransformAsWritten(editor.text, ChoiceOf(selection.labels), t)
  {
    if editor.NoEditor? || !EndsWith(editor.fileName, ".html") {
      return Warned(OpenHtmlWarning);
    }
    if selection.Dismissed? || |selection.labels| == 0 {
      return NothingSelected;
    }
    var injectFavicon := Picks(selection.labels, "Favicon");
    var injectSeo := Picks(selection.labels, "SEO");
    var injectSw := Picks(selection.labels, "Service");
    var content := editor.text;
    var title := ExtractTitle(content);
    var headInjections := "";
    if injectFavicon {
      if !Contains(content, RelIconDouble) && !Contains(content, RelIconSingle) {
        headInjections := t.faviconLink;
      }
    }
    if injectSeo {
      if !Contains(content, DescriptionMarker) {
        headInjections := headInjections + DescriptionMeta(t, title);
      }
      if !Contains(content, OgMarker) {
        headInjections := headInjections + OgMetas(t, title);
      }
      if !Contains(content, ThemeMarker) {
        headInjections := headInjections + t.themeMeta;
      }
    }
    ghost var choice := Choice(injectFavicon, injectSeo, injectSw);
    assert headInjections == HeadInjections(content, title, choice, t);
    if headInjections != "" {
      content := ReplaceLiteral(content, HeadClose, headInjections + HeadClose);
    }
    assert content == InsertHead(editor.text, headInjections);
    if injectSw && !Contains(content, ServiceWorkerMarker) {
      content := Replace(content, BodyClose, t.serviceWorkerBlock);
    }
    assert content == Transform(editor.text, choice, t);
    var parts: seq<string> := [];
    if injectFavicon {
      parts := parts + ["favicon"];
    }
    if injectSeo {
      parts := parts + ["SEO meta"];
    }
    if injectSw {
      parts := parts + ["service worker"];
    }
    assert parts == ReportParts(choice);
    outcome := Published(content, "\U{1F680} Publish-ready! Injected: " + Join(parts, ", "));
    if HeadTextsDollarFree(t) && '$' !in t.faviconLink && '$' !in title {
      TransformWithoutDollar(editor.text, choice, t);
    }
  }

  /** Without `$` in the injections the head step as written is the verbatim splice. */
  lemma HeadStepAsWrittenWithoutDollar(content: string, injections: string)
    requires '$' !in injections
    ensures InsertHeadAsWritten(content, injections) == InsertHead(content, injections)
  {
    assert '$' !in injections + HeadClose;
    ReplaceIsLiteralWithoutDollar(content, HeadClose, injections + HeadClose);
  }

  /** Injections made of `$`-free texts and a `$`-free title have no `$`. */
  lemma InjectionsDollarFree(content: string, title: string, choice: Choice, t: Texts)
    requires HeadTextsDollarFree(t) && '$' !in t.faviconLink && '$' !in title
    ensures '$' !in HeadInjections(content, title, choice, t)
  {
  }

  /**
   * Where the title and the inserted texts have no `$`, the transform with
   * the verbatim head splice is the transform as written.
   */
  lemma TransformWithoutDollar(content: string, choice: Choice, t: Texts)
    requires HeadTextsDollarFree(t) && '$' !in t.faviconLink && '$' !in ExtractTitle(content)
    ensures TransformAsWritten(content, choice, t) == Transform(content, choice, t)
  {
    var injections := HeadInjections(content, ExtractTitle(content), choice, t);
    InjectionsDollarFree(content, ExtractTitle(content), choice, t);
    HeadStepAsWrittenWithoutDollar(content, injections);
  }

  /** The head texts around the title have no `$`. */
  predicate HeadTextsDollarFree(t: Texts) {
    && '$' !in t.descriptionOpen && '$' !in t.descriptionClose
    && '$' !in t.ogOpen && '$' !in t.ogClose && '$' !in t.themeMeta
  }

  /** A document whose title is the replacement pattern `$&`. */
  const DollarTitleDocument: string := "<title>$&</title></head>"

  /** Its title is `$&`. */
  lemma DollarTitleDocumentTitle()
    ensures ExtractTitle(DollarTitleDocument) == "$&"
  {
    var content := DollarTitleDocument;
    assert IndexFrom(content, OpenTitle, 0) == Some(0) by {
      assert content[..7] == OpenTitle;
    }
    assert IndexFrom(content, CloseTitle, 7) == Some(9) by {
      assert content[7..15][0] == content[7] != '<';
      assert content[8..16][0] == content[8] != '<';
      assert content[9..17] == CloseTitle;
    }
    assert OnOneLine(content, 7, 9) by {
      assert content[7] == '$' && content[8] == '&';
    }
    assert content[7..9] == "$&";
  }

  /** It has none of the SEO markers. */
  lemma DollarTitleDocumentUnmarked()
    ensures !Contains(DollarTitleDocument, DescriptionMarker) && !Contains(DollarTitleDocument, OgMarker)
    ensures !Contains(DollarTitleDocument, ThemeMarker)
  {
    MissingCharExcludes(DollarTitleDocument, DescriptionMarker, 'n');
    MissingCharExcludes(DollarTitleDocument, OgMarker, 'p');
    MissingCharExcludes(DollarTitleDocument, ThemeMarker, 'n');
  }

  /** Its `</head>` starts at 17. */
  lemma DollarTitleDocumentHead()
    ensures IndexOf(DollarTitleDocument, HeadClose) == Some(17)
  {
    var content := DollarTitleDocument;
    assert OccursAt(content, HeadClose, 17);
    forall i | 0 <= i < 17 ensures !OccursAt(content, HeadClose, i) {
      assert content[i..i + 7][2] == content[i + 2] != 'h';
    }
  }

  /** The lengths of the two head steps, for a document with `</head>` at `i`. */
  lemma HeadStepLengths(content: string, injections: string, i: nat)
    requires injections != "" && IndexOf(content, HeadClose) == Some(i)
    ensures |InsertHead(content, injections)| == |content| + |injections|
    ensures |InsertHeadAsWritten(content, injections)|
         == |content| - |HeadClose| + |Substitute(injections + HeadClose, HeadClose, content[..i], content[i + |HeadClose|..])|
  {
    assert content[i..i + |HeadClose|] == HeadClose;
  }

  /**
   * The head step as written expands a `$&` in the title into `</head>`:
   * for `<title>$&</title></head>` and only SEO picked, the two copies of
   * the title each come out five characters longer than the splice.
   */
  lemma TitlePatternExpandsAsWritten(t: Texts)
    requires HeadTextsDollarFree(t)
    ensures var choice := Choice(false, true, false);
      |TransformAsWritten(DollarTitleDocument, choice, t)| == |Transform(DollarTitleDocument, choice, t)| + 10
  {
    DollarTitleDocumentTitle();
    DollarTitleDocumentUnmarked();
    DollarTitleDocumentHead();
    DollarTitleExpands(DollarTitleDocument, 17, t);
  }

  /** The same for any document titled `$&`, without SEO markers, with a `</head>`. */
  lemma DollarTitleExpands(content: string, i: nat, t: Texts)
    requires HeadTextsDollarFree(t) && ExtractTitle(content) == "$&" && IndexOf(content, HeadClose) == Some(i)
    requires !Contains(content, DescriptionMarker) && !Contains(content, OgMarker) && !Contains(content, ThemeMarker)
    ensures var choice := Choice(false, true, false);
      |TransformAsWritten(content, choice, t)| == |Transform(content, choice, t)| + 10
  {
    var choice := Choice(false, true, false);
    var injections := HeadInjections(content, "$&", choice, t);
    SeoOnlyInjections(content, "$&", t);
    SeoPatternsExpand(t, content[..i], content[i + |HeadClose|..]);
    HeadStepLengths(content, injections, i);
    ServiceWorkerUntouched(InsertHead(content, injections), t);
    ServiceWorkerUntouched(InsertHeadAsWritten(content, injections), t);
  }

  /** Expanding the SEO groups for the title `$&` before `</head>` puts `</head>` in place of both `$&`. */
  lemma SeoPatternsExpand(t: Texts, before: string, after: string)
    requires HeadTextsDollarFree(t)
    ensures var injections := t.descriptionOpen + "$&" + t.descriptionClose + t.ogOpen + "$&" + t.ogClose + t.themeMeta;
      |Substitute(injections + HeadClose, HeadClose, before, after)| == |injections| + |HeadClose| + 10
  {
    var x, y, z := t.descriptionOpen, t.descriptionClose + t.ogOpen, t.ogClose + t.themeMeta + HeadClose;
    assert t.descriptionOpen + "$&" + t.descriptionClose + t.ogOpen + "$&" + t.ogClose + t.themeMeta + HeadClose
        == x + "$&" + y + "$&" + z;
    SubstituteTwoMatches(x, y, z, HeadClose, before, after);
  }

  /** With only SEO picked on a document without its markers, the injections are the three SEO groups. */
  lemma SeoOnlyInjections(content: string, title: string, t: Texts)
    requires !Contains(content, DescriptionMarker) && !Contains(content, OgMarker) && !Contains(content, ThemeMarker)
    ensures HeadInjections(content, title, Choice(false, true, false), t)
         == t.descriptionOpen + title + t.descriptionClose + t.ogOpen + title + t.ogClose + t.themeMeta
  {
  }

  /** The service-worker step does nothing when it is not chosen. */
  lemma ServiceWorkerUntouched(content: string, t: Texts)
    ensures InsertServiceWorker(content, false, t) == content
  {
  }

  /**
   * With the verbatim splice, the description meta tag carrying the title
   * exactly as the document has it lands before `</head>` whenever SEO is
   * picked and the document has no description yet.
   */
  lemma TitleInsertedVerbatim(content: string, choice: Choice, t: Texts)
    requires choice.seo && !Contains(content, DescriptionMarker) && Contains(content, HeadClose)
    ensures var title := ExtractTitle(content);
      Contains(InsertHead(content, HeadInjections(content, title, choice, t)), DescriptionMeta(t, title))
  {
    var title := ExtractTitle(content);
    InjectionsHoldDescription(content, title, choice, t);
    HeadStepInserts(content, HeadInjections(content, title, choice, t), DescriptionMeta(t, title));
  }

  /** With SEO picked and no description yet, the injections hold the description for the title. */
  lemma InjectionsHoldDescription(content: string, title: string, choice: Choice, t: Texts)
    requires choice.seo && !Contains(content, DescriptionMarker)
    ensures Contains(HeadInjections(content, title, choice, t), DescriptionMeta(t, title))
  {
    var afterFavicon := if choice.favicon && NeedsFavicon(content) then t.faviconLink else "";
    var description := DescriptionMeta(t, title);
    var og := OgMetas(t, title);
    var afterOg := if !Contains(content, OgMarker) then afterFavicon + description + og else afterFavicon + description;
    assert HeadInjections(content, title, choice, t) == if !Contains(content, ThemeMarker) then afterOg + t.themeMeta else afterOg;
    ContainsMiddle(afterFavicon, description, "");
    assert afterFavicon + description + "" == afterFavicon + description;
    ContainsInConcat(afterFavicon + description, og, description);
    ContainsInConcat(afterOg, t.themeMeta, description);
  }

  /** Whatever the injections hold is in the document after the head step, when it has `</head>`. */
  lemma HeadStepInserts(content: string, injections: string, m: string)
    requires Contains(content, HeadClose) && Contains(injections, m)
    ensures Contains(InsertHead(content, injections), m)
  {
    if injections != "" {
      var i := IndexOf(content, HeadClose).value;
      ContainsMiddle(content[..i], injections, content[i..]);
      ContainsTransitive(InsertHead(content, injections), injections, m);
    } else {
      assert OccursAt(content, m, 0);
    }
  }

  /**
   * Texts that carry their own guard markers, and a service-worker block
   * that ends with `</body>` and has no `$` (which `replace` would expand).
   */
  predicate Marked(t: Texts) {
    && Contains(t.faviconLink, RelIconDouble)
    && Contains(t.descriptionOpen, DescriptionMarker)
    && Contains(t.ogOpen, OgMarker)
    && Contains(t.themeMeta, ThemeMarker)
    && Contains(t.serviceWorkerBlock, ServiceWorkerMarker)
    && EndsWith(t.serviceWorkerBlock, BodyClose)
    && '$' !in t.serviceWorkerBlock
  }

  /**
   * The service-worker step: when wanted and not yet present, the block
   * replaces the first `</body>` verbatim; otherwise nothing changes.
   */
  lemma ServiceWorkerSplice(content: string, wanted: bool, t: Texts)
    requires '$' !in t.serviceWorkerBlock
    ensures !wanted || Contains(content, ServiceWorkerMarker) || !Contains(content, BodyClose) ==>
      InsertServiceWorker(content, wanted, t) == content
    ensures wanted && !Contains(content, ServiceWorkerMarker) && Contains(content, BodyClose) ==>
      var i := IndexOf(content, BodyClose).value;
      InsertServiceWorker(content, wanted, t) == content[..i] + t.serviceWorkerBlock + content[i + |BodyClose|..]
  {
    ReplaceIsLiteralWithoutDollar(content, BodyClose, t.serviceWorkerBlock);
    ReplaceLiteralSplice(content, BodyClose, t.serviceWorkerBlock);
  }

  /** No guard marker has a `<`, and the closing tags have one only first. */
  lemma FaviconMarkersOpenOnce()
    ensures NotAfterFirst(RelIconDouble, '<') && NotAfterFirst(RelIconSingle, '<')
  {
  }

  lemma SeoMarkersOpenOnce()
    ensures NotAfterFirst(DescriptionMarker, '<') && NotAfterFirst(OgMarker, '<') && NotAfterFirst(ThemeMarker, '<')
  {
  }

  lemma ClosingTagsOpenOnce()
    ensures NotAfterFirst(ServiceWorkerMarker, '<') && NotAfterFirst(BodyClose, '<') && HeadClose[0] == '<' && BodyClose[0] == '<'
  {
  }

  lemma MarkersOpenOnce()
    ensures NotAfterFirst(RelIconDouble, '<') && NotAfterFirst(RelIconSingle, '<') && NotAfterFirst(DescriptionMarker, '<')
    ensures NotAfterFirst(OgMarker, '<') && NotAfterFirst(ThemeMarker, '<') && NotAfterFirst(ServiceWorkerMarker, '<')
    ensures NotAfterFirst(BodyClose, '<') && HeadClose[0] == '<' && BodyClose[0] == '<'
  {
    FaviconMarkersOpenOnce();
    SeoMarkersOpenOnce();
    ClosingTagsOpenOnce();
  }

  /** Every head block that the guards let in brings its own marker. */
  lemma InjectionsCarryMarkers(content: string, title: string, choice: Choice, t: Texts)
    requires Marked(t)
    ensures var injections := HeadInjections(content, title, choice, t);
      && (choice.favicon && NeedsFavicon(content) ==> Contains(injections, RelIconDouble))
      && (choice.seo && !Contains(content, DescriptionMarker) ==> Contains(injections, DescriptionMarker))
      && (choice.seo && !Contains(content, OgMarker) ==> Contains(injections, OgMarker))
      && (choice.seo && !Contains(content, ThemeMarker) ==> Contains(injections, ThemeMarker))
  {
    var afterFavicon := if choice.favicon && NeedsFavicon(content) then t.faviconLink else "";
    var description := DescriptionMeta(t, title);
    var afterDescription := if choice.seo && !Contains(content, DescriptionMarker) then afterFavicon + description else afterFavicon;
    var og := OgMetas(t, title);
    var afterOg := if choice.seo && !Contains(content, OgMarker) then afterDescription + og else afterDescription;
    var injections := if choice.seo && !Contains(content, ThemeMarker) then afterOg + t.themeMeta else afterOg;
    assert injections == HeadInjections(content, title, choice, t);
    ContainsInConcat(t.descriptionOpen, title, DescriptionMarker);
    ContainsInConcat(t.descriptionOpen + title, t.descriptionClose, DescriptionMarker);
    ContainsInConcat(t.ogOpen, title, OgMarker);
    ContainsInConcat(t.ogOpen + title, t.ogClose, OgMarker);
    forall m | m in [RelIconDouble, DescriptionMarker, OgMarker, ThemeMarker]
      ensures Contains(afterFavicon, m) ==> Contains(injections, m)
      ensures Contains(afterDescription, m) ==> Contains(injections, m)
      ensures Contains(afterOg, m) ==> Contains(injections, m)
    {
      ContainsInConcat(afterFavicon, description, m);
      ContainsInConcat(afterDescription, og, m);
      ContainsInConcat(afterOg, t.themeMeta, m);
    }
    ContainsInConcat(afterFavicon, description, DescriptionMarker);
    ContainsInConcat(afterDescription, og, OgMarker);
    ContainsInConcat(afterOg, t.themeMeta, ThemeMarker);
  }

  /**
   * A text that occurs in the document or in the injections, and has a `<`
   * at most as its first character, occurs after the head step.
   */
  lemma HeadStepKeeps(content: string, injections: string, m: string)
    requires Contains(content, HeadClose) && |m| > 0 && NotAfterFirst(m, '<')
    requires Contains(content, m) || Contains(injections, m)
    ensures Contains(InsertHead(content, injections), m)
  {
    if injections != "" {
      var i := IndexOf(content, HeadClose).value;
      assert content[i] == HeadClose[0] == '<' by {
        assert content[i..i + |HeadClose|] == HeadClose;
      }
      if Contains(content, m) {
        InsertKeepsContains(content, i, injections, m);
      } else {
        ContainsInConcat(content[..i], injections, m);
        ContainsInConcat(content[..i] + injections, content[i..], m);
      }
    }
  }

  /**
   * After the head step on a document with `</head>`, the guard of every
   * chosen head block is closed, and `</body>` and the service-worker marker
   * are still there if they were.
   */
  lemma HeadStepCloses(content: string, title: string, choice: Choice, t: Texts)
    requires Marked(t) && Contains(content, HeadClose)
    ensures var after := InsertHead(content, HeadInjections(content, title, choice, t));
      && (choice.favicon ==> !NeedsFavicon(after))
      && (choice.seo ==> Contains(after, DescriptionMarker) && Contains(after, OgMarker) && Contains(after, ThemeMarker))
      && (Contains(content, BodyClose) ==> Contains(after, BodyClose))
      && (Contains(content, ServiceWorkerMarker) ==> Contains(after, ServiceWorkerMarker))
  {
    var injections := HeadInjections(content, title, choice, t);
    InjectionsCarryMarkers(content, title, choice, t);
    MarkersOpenOnce();
    if choice.favicon {
      if Contains(content, RelIconSingle) {
        HeadStepKeeps(content, injections, RelIconSingle);
      } else {
        HeadStepKeeps(content, injections, RelIconDouble);
      }
    }
    if choice.seo {
      HeadStepKeeps(content, injections, DescriptionMarker);
      HeadStepKeeps(content, injections, OgMarker);
      HeadStepKeeps(content, injections, ThemeMarker);
    }
    if Contains(content, BodyClose) {
      HeadStepKeeps(content, injections, BodyClose);
    }
    if Contains(content, ServiceWorkerMarker) {
      HeadStepKeeps(content, injections, ServiceWorkerMarker);
    }
  }

  /**
   * The service-worker step keeps every text of the document that has a `<`
   * at most as its first character.
   */
  lemma ServiceWorkerStepKeeps(content: string, wanted: bool, t: Texts, m: string)
    requires Marked(t) && |m| > 0 && NotAfterFirst(m, '<') && Contains(content, m)
    ensures Contains(InsertServiceWorker(content, wanted, t), m)
  {
    ServiceWorkerSplice(content, wanted, t);
    if wanted && !Contains(content, ServiceWorkerMarker) && Contains(content, BodyClose) {
      var i := IndexOf(content, BodyClose).value;
      var block := t.serviceWorkerBlock;
      var script := block[..|block| - |BodyClose|];
      assert block == script + BodyClose;
      SpliceBeforeKeeps(content, i, BodyClose, script, m);
    }
  }

  /**
   * Putting text right before an occurrence of `close` keeps every text
   * that has `close`'s first character at most as its own first character.
   */
  lemma SpliceBeforeKeeps(content: string, i: nat, close: string, script: string, m: string)
    requires OccursAt(content, close, i) && |close| > 0
    requires |m| > 0 && NotAfterFirst(m, close[0]) && Contains(content, m)
    ensures Contains(content[..i] + (script + close) + content[i + |close|..], m)
  {
    assert content[..i] + (script + close) + content[i + |close|..] == content[..i] + script + content[i..] by {
      assert content[i..] == close + content[i + |close|..];
    }
    assert content[i] == content[i..i + |close|][0] == close[0];
    InsertKeepsContains(content, i, script, m);
  }

  /** When wanted, the service-worker marker is there after the step if it or `</body>` was there before. */
  lemma ServiceWorkerStepMarks(content: string, t: Texts)
    requires Marked(t) && (Contains(content, ServiceWorkerMarker) || Contains(content, BodyClose))
    ensures Contains(InsertServiceWorker(content, true, t), ServiceWorkerMarker)
  {
    ServiceWorkerSplice(content, true, t);
    if !Contains(content, ServiceWorkerMarker) {
      var i := IndexOf(content, BodyClose).value;
      ContainsMiddle(content[..i], t.serviceWorkerBlock, content[i + |BodyClose|..]);
      ContainsTransitive(InsertServiceWorker(content, true, t), t.serviceWorkerBlock, ServiceWorkerMarker);
    }
  }

  /**
   * A second run with the same choices changes nothing, on a document with
   * `</head>` (and with `</body>` when the service worker is chosen): every
   * block the first run inserted, or found already there, closes its guard.
   */
  lemma PublishIdempotent(content: string, choice: Choice, t: Texts)
    requires Marked(t) && Contains(content, HeadClose)
    requires choice.serviceWorker ==> Contains(content, BodyClose)
    ensures Transform(Transform(content, choice, t), choice, t) == Transform(content, choice, t)
  {
    var afterHead := InsertHead(content, HeadInjections(content, ExtractTitle(content), choice, t));
    var once := InsertServiceWorker(afterHead, choice.serviceWorker, t);
    assert once == Transform(content, choice, t);
    HeadStepCloses(content, ExtractTitle(content), choice, t);
    MarkersOpenOnce();
    if choice.favicon {
      if Contains(afterHead, RelIconSingle) {
        ServiceWorkerStepKeeps(afterHead, choice.serviceWorker, t, RelIconSingle);
      } else {
        ServiceWorkerStepKeeps(afterHead, choice.serviceWorker, t, RelIconDouble);
      }
    }
    if choice.seo {
      ServiceWorkerStepKeeps(afterHead, choice.serviceWorker, t, DescriptionMarker);
      ServiceWorkerStepKeeps(afterHead, choice.serviceWorker, t, OgMarker);
      ServiceWorkerStepKeeps(afterHead, choice.serviceWorker, t, ThemeMarker);
    }
    assert HeadInjections(once, ExtractTitle(once), choice, t) == "";
    if choice.serviceWorker {
      ServiceWorkerStepMarks(afterHead, t);
    }
  }

  /** `FAVICON_DATA_URI`: an SVG whose only text is the test-tube emoji. */
  const FaviconDataUri: string := FaviconSvgOpen + FaviconSvgText

  const FaviconSvgOpen: string :=
    "data:image/svg+xml,<svg xmlns='http://" + "www.w3.org/2000/svg' "
  const FaviconSvgText: string :=
    "viewBox='0 0 100 100'><text y='.9em' " + "font-size='90'>\U{1F9EA}</text></svg>"

  /** The inline script up to its guard marker. */
  const ServiceWorkerHead: string :=
      "\n"
    + "    // \U{2500}\U{2500}\U{2500} Offline Service Worker" + " \U{2500}\U{2500}\U{2500}\U{2500}\U{2500}\U{2500}\U{2500}\U{2500}\U{2500}\U{2500}\U{2500}\U{2500}\U{2500}\U{2500}\U{2500}\U{2500}\U{2500}\U{2500}\U{2500}\U{2500}\U{2500}\U{2500}\U{2500}\U{2500}\U{2500}\U{2500}\U{2500}\U{2500}\n"
    + "    if ('"

  /**
   * The inline script after its guard marker: the `load` listener, the
   * worker's own source (a cache-filling `install` handler and a cache-first
   * `fetch` handler), and the registration of that source from a blob.
   */
  const ServiceWorkerTail: string :=
    ServiceWorkerListener + WorkerInstallHandler + WorkerFetchHandler + ServiceWorkerBlob + ServiceWorkerRegistration

  const ServiceWorkerListener: string := SwGuardCloseLine + SwLoadLine + SwSourceOpenLine
  const SwGuardCloseLine: string := "' in navigator) {\n"
  const SwLoadLine: string := "      window.addEventListener('load'," + " () => {\n"
  const SwSourceOpenLine: string := "        const sw = `\n"

  const WorkerInstallHandler: string := WorkerCacheLine + WorkerInstallLine + WorkerAddAllLine + WorkerCloseLine
  const WorkerCacheLine: string := "          const CACHE = 'lab-v1';\n"
  const WorkerInstallLine: string := "          self.addEventListener('install" + "', e => e.waitUntil(\n"
  const WorkerAddAllLine: string := "            caches.open(CACHE).then(c" + " => c.addAll(['/']))\n"
  const WorkerCloseLine: string := "          ));\n"

  const WorkerFetchHandler: string := WorkerFetchLine + WorkerMatchLine + WorkerCloseLine
  const WorkerFetchLine: string := "          self.addEventListener('fetch'," + " e => e.respondWith(\n"
  const WorkerMatchLine: string := "            caches.match(e.request).then" + "(r => r || fetch(e.request))\n"

  const ServiceWorkerBlob: string := SwSourceCloseLine + SwBlobLine
  const SwSourceCloseLine: string := "        `;\n"
  const SwBlobLine: string := "        const blob = new Blob([sw], {" + " type: 'application/javascript' });\n"

  const ServiceWorkerRegistration: string := SwRegisterLine + SwCloseLines
  const SwRegisterLine: string := "        navigator.serviceWorker.register" + "(URL.createObjectURL(blob));\n"
  const SwCloseLines: string := "      });\n" + "    }"

  /** `SERVICE_WORKER_SCRIPT`. */
  const ServiceWorkerScript: string := ServiceWorkerHead + ServiceWorkerMarker + ServiceWorkerTail

  /** The command's own texts. */
  const Fixed: Texts := Texts(
    "  <link " + RelIconDouble + (" href=\"" + FaviconDataUri + "\">\n"),
    DescriptionOpenText,
    DescriptionCloseText,
    OgOpenText,
    OgCloseText,
    ThemeMetaText,
    "  <script>" + ServiceWorkerScript + ("\n  </script>\n" + BodyClose))

  const DescriptionOpenText: string := "  <meta " + DescriptionMarker + " content=\""
  const DescriptionCloseText: string := " \U{2014} A single-file lab application\">\n"
  const OgOpenText: string := "  <meta " + OgMarker + " content=\""
  const OgCloseText: string := "\">\n" + OgTypeMeta + OgDescriptionMeta
  const OgTypeMeta: string := "  <meta property=\"og:type\"" + " content=\"website\">\n"
  const OgDescriptionMeta: string :=
    "  <meta property=\"og:description\"" + " content=\"Built with Single-File" + " Lab Studio\">\n"
  const ThemeMetaText: string := "  <meta " + ThemeMarker + " content=\"#0d1117\">\n"

  lemma ServiceWorkerHeadDollarFree()
    ensures '$' !in ServiceWorkerHead
  {
  }

  lemma SwGuardCloseLineDollarFree()
    ensures '$' !in SwGuardCloseLine
  {
  }

  lemma SwLoadLineDollarFree()
    ensures '$' !in SwLoadLine
  {
  }

  lemma SwSourceOpenLineDollarFree()
    ensures '$' !in SwSourceOpenLine
  {
  }

  lemma WorkerCacheLineDollarFree()
    ensures '$' !in WorkerCacheLine
  {
  }

  lemma WorkerInstallLineDollarFree()
    ensures '$' !in WorkerInstallLine
  {
  }

  lemma WorkerAddAllLineDollarFree()
    ensures '$' !in WorkerAddAllLine
  {
  }

  lemma WorkerCloseLineDollarFree()
    ensures '$' !in WorkerCloseLine
  {
  }

  lemma WorkerFetchLineDollarFree()
    ensures '$' !in WorkerFetchLine
  {
  }

  lemma WorkerMatchLineDollarFree()
    ensures '$' !in WorkerMatchLine
  {
  }

  lemma SwSourceCloseLineDollarFree()
    ensures '$' !in SwSourceCloseLine
  {
  }

  lemma SwBlobLineDollarFree()
    ensures '$' !in SwBlobLine
  {
  }

  lemma SwRegisterLineDollarFree()
    ensures '$' !in SwRegisterLine
  {
  }

  lemma SwCloseLinesDollarFree()
    ensures '$' !in SwCloseLines
  {
  }

  lemma ServiceWorkerListenerDollarFree()
    ensures '$' !in ServiceWorkerListener
  {
    SwGuardCloseLineDollarFree();
    SwLoadLineDollarFree();
    SwSourceOpenLineDollarFree();
  }

  lemma WorkerInstallHandlerDollarFree()
    ensures '$' !in WorkerInstallHandler
  {
    WorkerCacheLineDollarFree();
    WorkerInstallLineDollarFree();
    WorkerAddAllLineDollarFree();
    WorkerCloseLineDollarFree();
  }

  lemma WorkerFetchHandlerDollarFree()
    ensures '$' !in WorkerFetchHandler
  {
    WorkerFetchLineDollarFree();
    WorkerMatchLineDollarFree();
    WorkerCloseLineDollarFree();
  }

  lemma ServiceWorkerBlobDollarFree()
    ensures '$' !in ServiceWorkerBlob
  {
    SwSourceCloseLineDollarFree();
    SwBlobLineDollarFree();
  }

  lemma ServiceWorkerRegistrationDollarFree()
    ensures '$' !in ServiceWorkerRegistration
  {
    SwRegisterLineDollarFree();
    SwCloseLinesDollarFree();
  }

  /** The service-worker script has no `$`. */
  lemma ServiceWorkerScriptDollarFree()
    ensures '$' !in ServiceWorkerScript
  {
    ServiceWorkerHeadDollarFree();
    ServiceWorkerListenerDollarFree();
    WorkerInstallHandlerDollarFree();
    WorkerFetchHandlerDollarFree();
    ServiceWorkerBlobDollarFree();
    ServiceWorkerRegistrationDollarFree();
  }

  /** The command's head texts have no `$`, so only the title can bring one into the head step. */
  lemma FixedHeadTextsDollarFree()
    ensures HeadTextsDollarFree(Fixed)
  {
    DescriptionTextsDollarFree();
    OgTextsDollarFree();
    ThemeMetaTextDollarFree();
  }

  lemma DescriptionTextsDollarFree()
    ensures '$' !in DescriptionOpenText && '$' !in DescriptionCloseText
  {
  }

  lemma OgTextsDollarFree()
    ensures '$' !in OgOpenText && '$' !in OgCloseText
  {
    OgMetasDollarFree();
  }

  lemma OgMetasDollarFree()
    ensures '$' !in OgTypeMeta && '$' !in OgDescriptionMeta
  {
    OgTypeMetaDollarFree();
    OgDescriptionMetaDollarFree();
  }

  lemma OgTypeMetaDollarFree()
    ensures '$' !in OgTypeMeta
  {
  }

  lemma OgDescriptionMetaDollarFree()
    ensures '$' !in OgDescriptionMeta
  {
  }

  lemma ThemeMetaTextDollarFree()
    ensures '$' !in ThemeMetaText
  {
  }

  /** The favicon link has no `$`. */
  lemma FaviconLinkDollarFree()
    ensures '$' !in Fixed.faviconLink
  {
    FaviconDataUriDollarFree();
  }

  lemma FaviconDataUriDollarFree()
    ensures '$' !in FaviconDataUri
  {
    FaviconSvgOpenDollarFree();
    FaviconSvgTextDollarFree();
  }

  lemma FaviconSvgOpenDollarFree()
    ensures '$' !in FaviconSvgOpen
  {
  }

  lemma FaviconSvgTextDollarFree()
    ensures '$' !in FaviconSvgText
  {
  }

  /**
   * With the command's own texts, the source and the model publish the same
   * text for every document whose title has no `$`.
   */
  lemma FixedTransformWithoutDollar(content: string, choice: Choice)
    requires '$' !in ExtractTitle(content)
    ensures TransformAsWritten(content, choice, Fixed) == Transform(content, choice, Fixed)
  {
    FixedHeadTextsDollarFree();
    FaviconLinkDollarFree();
    TransformWithoutDollar(content, choice, Fixed);
  }

  /** With the command's own texts, a `$&` title makes the head step as written ten characters longer. */
  lemma FixedTitlePatternExpands()
    ensures var choice := Choice(false, true, false);
      |TransformAsWritten(DollarTitleDocument, choice, Fixed)| == |Transform(DollarTitleDocument, choice, Fixed)| + 10
  {
    FixedHeadTextsDollarFree();
    TitlePatternExpandsAsWritten(Fixed);
  }

  /** The command's own texts carry their markers. */
  lemma FixedIsMarked()
    ensures Marked(Fixed)
  {
    ContainsMiddle("  <link ", RelIconDouble, " href=\"" + FaviconDataUri + "\">\n");
    ContainsMiddle("  <meta ", DescriptionMarker, " content=\"");
    ContainsMiddle("  <meta ", OgMarker, " content=\"");
    ContainsMiddle("  <meta ", ThemeMarker, " content=\"#0d1117\">\n");
    var block := Fixed.serviceWorkerBlock;
    ContainsMiddle(ServiceWorkerHead, ServiceWorkerMarker, ServiceWorkerTail);
    ContainsMiddle("  <script>", ServiceWorkerScript, "\n  </script>\n" + BodyClose);
    ContainsTransitive(block, ServiceWorkerScript, ServiceWorkerMarker);
    ServiceWorkerScriptDollarFree();
  }
}
