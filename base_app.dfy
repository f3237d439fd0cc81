/**
 * The base document generator (`generateBaseApp`): one complete HTML file
 * whose title is inserted only after HTML escaping, whose palette follows the
 * theme flag, and whose preset-manager and export sections (markup in the
 * footer, code in the script) are present exactly when their flags are set.
 *
 * `Document` is stated over any `Template` of fixed texts, so that the
 * properties below are proved once, independently of what the fixed texts
 * say; `GenerateBaseApp` instantiates it with the generator's own texts.
 */
module BaseApp {
  import opened Strings
  import opened HtmlEscape

  /** `AppOptions`. */
  datatype AppOptions = AppOptions(title: string, includePresetManager: bool, includeExportButtons: bool, darkTheme: bool)

  /** The fixed texts of the document, in the order they appear. */
  datatype Template = Template(
    prologue: string,
    styleOpen: string,
    headerOpen: string,
    mainSection: string,
    logPanel: string,
    scriptOpen: string,
    epilogue: string,
    cssRules: string,
    presetHtml: string,
    exportHtml: string,
    baseJs: string,
    presetJs: string,
    exportJs: string,
    initJs: string)

  /** The eleven colours and two shadow strengths of `generateCSS`'s `:root` rule. */
  datatype Palette = Palette(
    bg: string, surface: string, border: string, text: string, textMuted: string,
    accent: string, accentHover: string, inputBg: string, cardBg: string,
    success: string, danger: string, shadowNear: string, shadowFar: string)

  const DarkPalette: Palette := Palette(
    "#0d1117", "#161b22", "#30363d", "#e6edf3", "#8b949e",
    "#58a6ff", "#79c0ff", "#0d1117", "#1c2128",
    "#238636", "#da3633", "0.4", "0.3")

  const LightPalette: Palette := Palette(
    "#ffffff", "#f6f8fa", "#d0d7de", "#1f2328", "#656d76",
    "#0969da", "#0550ae", "#ffffff", "#ffffff",
    "#2da44e", "#cf222e", "0.12", "0.08")

  /** The palette of `generateCSS(dark)`: each variable's ternary on `dark` picks its dark or its light value. */
  function PaletteFor(dark: bool): Palette {
    if dark then DarkPalette else LightPalette
  }

  /** The variables of a palette, in the order the `:root` rule declares them. */
  function Values(p: Palette): (r: seq<string>)
    ensures |r| == 13
  {
    [p.bg, p.surface, p.border, p.text, p.textMuted, p.accent, p.accentHover,
     p.inputBg, p.cardBg, p.success, p.danger, p.shadowNear, p.shadowFar]
  }

  /** The theme flag decides every variable: no variable has the same value in both themes. */
  lemma ThemesDifferEverywhere()
    ensures forall i :: 0 <= i < 13 ==> Values(PaletteFor(true))[i] != Values(PaletteFor(false))[i]
  {
    var d, l := Values(DarkPalette), Values(LightPalette);
    forall i | 0 <= i < 13
      ensures d[i] != l[i]
    {
      assert d[i][1] != l[i][1] || d[i][2] != l[i][2] || |d[i]| != |l[i]|;
    }
  }

  /** The `:root` rule of the style sheet for a palette. */
  function RootRule(p: Palette): string {
    "    :root {\n"
    + "      --bg: " + p.bg + ";\n"
    + "      --surface: " + p.surface + ";\n"
    + "      --border: " + p.border + ";\n"
    + "      --text: " + p.text + ";\n"
    + "      --text-muted: " + p.textMuted + ";\n"
    + "      --accent: " + p.accent + ";\n"
    + "      --accent-hover: " + p.accentHover + ";\n"
    + "      --input-bg: " + p.inputBg + ";\n"
    + "      --card-bg: " + p.cardBg + ";\n"
    + "      --success: " + p.success + ";\n"
    + "      --danger: " + p.danger + ";\n"
    + "      --radius: 8px;\n"
    + "      --shadow: 0 1px 3px rgba(0,0,0," + p.shadowNear + "), 0 1px 2px rgba(0,0,0," + p.shadowFar + ");\n"
  }

  /** `generateCSS(dark)`, the rules after `:root` being `rules`. */
  function Css(dark: bool, rules: string): string {
    RootRule(PaletteFor(dark)) + rules
  }

  /** `cond ? section : ''`. */
  function Optional(flag: bool, section: string): string {
    if flag then section else ""
  }

  /** The texts concatenated in order. */
  function Concat(parts: seq<string>): string {
    if |parts| == 0 then "" else parts[0] + Concat(parts[1..])
  }

  /** Splitting a concatenation around one of its parts. */
  lemma {:induction false} ConcatAt(parts: seq<string>, i: nat)
    requires i < |parts|
    ensures Concat(parts) == Concat(parts[..i]) + parts[i] + Concat(parts[i + 1..])
  {
    if i == 0 {
      assert parts[..0] == [];
      assert parts[1..] == parts[i + 1..];
    } else {
      ConcatAt(parts[1..], i - 1);
      assert parts[1..][..i - 1] == parts[1..i];
      assert parts[1..][i - 1] == parts[i];
      assert parts[1..][i..] == parts[i + 1..];
      assert parts[..i][1..] == parts[1..i];
    }
  }

  // Positions of the varying parts in `Pieces`.
  const TitleSlot: nat := 1
  const HeadingSlot: nat := 5
  const PresetHtmlSlot: nat := 7
  const ExportHtmlSlot: nat := 9
  const LogPanelSlot: nat := 11
  const BaseJsSlot: nat := 13
  const PresetJsSlot: nat := 15
  const ExportJsSlot: nat := 17
  const InitJsSlot: nat := 19

  /**
   * The template literal of `generateBaseApp` cut at its substitutions: the
   * escaped title (`title`) twice, the style sheet (`css`), and the sections
   * selected by the flags (an unselected one is the empty string).
   */
  function Pieces(title: string, css: string, preset: bool, exports: bool, t: Template): (r: seq<string>)
    ensures |r| == 21
  {
    [ t.prologue, title, t.styleOpen, css, t.headerOpen, title,
      t.mainSection, Optional(preset, t.presetHtml), "\n", Optional(exports, t.exportHtml),
      "\n", t.logPanel, t.scriptOpen,
      t.baseJs, "\n", Optional(preset, t.presetJs), "\n", Optional(exports, t.exportJs),
      "\n", t.initJs, t.epilogue ]
  }

  /** The document for `o`, with the fixed texts of `t`. */
  function Document(o: AppOptions, t: Template): string {
    Concat(Pieces(Escape(o.title), Css(o.darkTheme, t.cssRules), o.includePresetManager, o.includeExportButtons, t))
  }

  /** Splitting a concatenation around two of its parts. */
  lemma ConcatAtTwo(parts: seq<string>, i: nat, j: nat)
    requires i < j < |parts|
    ensures Concat(parts) == Concat(parts[..i]) + parts[i] + Concat(parts[i + 1..j]) + parts[j] + Concat(parts[j + 1..])
  {
    var rest := parts[i + 1..];
    var a, b, c := Concat(parts[..i]), Concat(parts[i + 1..j]), Concat(parts[j + 1..]);
    assert Concat(rest) == b + parts[j] + c by {
      ConcatAt(rest, j - i - 1);
      assert rest[..j - i - 1] == parts[i + 1..j];
      assert rest[j - i - 1] == parts[j];
      assert rest[j - i..] == parts[j + 1..];
    }
    ConcatAt(parts, i);
    RegroupSlots(a, parts[i], b, parts[j], c);
  }

  lemma RegroupSlots(a: string, x: string, b: string, y: string, c: string)
    ensures a + x + (b + y + c) == a + x + b + y + c
  {
  }

  /**
   * Two lists of parts that agree except in two parts: their concatenations
   * agree except in those two parts.
   */
  lemma TwoSlots(p: seq<string>, q: seq<string>, i: nat, j: nat)
    requires i < j < |p| == |q|
    requires p[..i] == q[..i] && p[i + 1..j] == q[i + 1..j] && p[j + 1..] == q[j + 1..]
    ensures exists a, b, c :: Concat(p) == a + p[i] + b + p[j] + c && Concat(q) == a + q[i] + b + q[j] + c
  {
    ConcatAtTwo(p, i, j);
    ConcatAtTwo(q, i, j);
    var a, b, c := Concat(p[..i]), Concat(p[i + 1..j]), Concat(p[j + 1..]);
    assert Concat(q) == a + q[i] + b + q[j] + c;
  }

  /** Dropping empty strings from a concatenation. */
  lemma DropEmpty(a: string, b: string, c: string)
    ensures a + "" + b + "" + c == a + b + c
  {
  }

  /** The two title slots of the pieces, for any two titles. */
  lemma TitleSlots(e: string, e': string, css: string, preset: bool, exports: bool, t: Template)
    ensures exists a, b, c ::
      && Concat(Pieces(e, css, preset, exports, t)) == a + e + b + e + c
      && Concat(Pieces(e', css, preset, exports, t)) == a + e' + b + e' + c
  {
    var p, q := Pieces(e, css, preset, exports, t), Pieces(e', css, preset, exports, t);
    assert p[TitleSlot] == p[HeadingSlot] == e;
    assert q[TitleSlot] == q[HeadingSlot] == e';
    assert p[..TitleSlot] == [t.prologue] == q[..TitleSlot];
    assert p[TitleSlot + 1..HeadingSlot] == [t.styleOpen, css, t.headerOpen] == q[TitleSlot + 1..HeadingSlot];
    assert p[HeadingSlot + 1..] == q[HeadingSlot + 1..] by {
      forall k | HeadingSlot + 1 <= k < 21 ensures p[k] == q[k] { }
    }
    TwoSlots(p, q, TitleSlot, HeadingSlot);
  }

  /**
   * The title enters the document only escaped, in exactly two places (the
   * text of `<title>` and of the `<h1>`): another title changes those two
   * places and nothing else. Neither holds a `<`, `>` or `"`.
   */
  lemma TitleOnlyEscaped(o: AppOptions, t: Template, other: string)
    ensures exists a, b, c ::
      && Document(o, t) == a + Escape(o.title) + b + Escape(o.title) + c
      && Document(o.(title := other), t) == a + Escape(other) + b + Escape(other) + c
    ensures '<' !in Escape(o.title) && '>' !in Escape(o.title) && '"' !in Escape(o.title)
  {
    TitleSlots(Escape(o.title), Escape(other), Css(o.darkTheme, t.cssRules), o.includePresetManager, o.includeExportButtons, t);
  }

  /** The two slots of a section, selected and not. */
  lemma SectionSlots(p: seq<string>, q: seq<string>, i: nat, j: nat, html: string, js: string)
    requires i < j < |p| == |q|
    requires p[..i] == q[..i] && p[i + 1..j] == q[i + 1..j] && p[j + 1..] == q[j + 1..]
    requires p[i] == html && p[j] == js && q[i] == "" && q[j] == ""
    ensures exists a, b, c :: Concat(p) == a + html + b + js + c && Concat(q) == a + b + c
  {
    TwoSlots(p, q, i, j);
    var a, b, c :| Concat(p) == a + html + b + js + c && Concat(q) == a + "" + b + "" + c;
    DropEmpty(a, b, c);
  }

  /** The preset manager's slots of the pieces. */
  lemma PresetSlots(e: string, css: string, exports: bool, t: Template)
    ensures exists a, b, c ::
      && Concat(Pieces(e, css, true, exports, t)) == a + t.presetHtml + b + t.presetJs + c
      && Concat(Pieces(e, css, false, exports, t)) == a + b + c
  {
    SectionSlots(Pieces(e, css, true, exports, t), Pieces(e, css, false, exports, t), PresetHtmlSlot, PresetJsSlot, t.presetHtml, t.presetJs);
  }

  /** The export section's slots of the pieces. */
  lemma ExportSlots(e: string, css: string, preset: bool, t: Template)
    ensures exists a, b, c ::
      && Concat(Pieces(e, css, preset, true, t)) == a + t.exportHtml + b + t.exportJs + c
      && Concat(Pieces(e, css, preset, false, t)) == a + b + c
  {
    SectionSlots(Pieces(e, css, preset, true, t), Pieces(e, css, preset, false, t), ExportHtmlSlot, ExportJsSlot, t.exportHtml, t.exportJs);
  }

  /** The preset manager's markup and code are present exactly by `includePresetManager`. */
  lemma PresetManagerToggle(o: AppOptions, t: Template)
    ensures exists a, b, c ::
      && Document(o.(includePresetManager := true), t) == a + t.presetHtml + b + t.presetJs + c
      && Document(o.(includePresetManager := false), t) == a + b + c
  {
    PresetSlots(Escape(o.title), Css(o.darkTheme, t.cssRules), o.includeExportButtons, t);
  }

  /** The export buttons and the export code are present exactly by `includeExportButtons`. */
  lemma ExportButtonsToggle(o: AppOptions, t: Template)
    ensures exists a, b, c ::
      && Document(o.(includeExportButtons := true), t) == a + t.exportHtml + b + t.exportJs + c
      && Document(o.(includeExportButtons := false), t) == a + b + c
  {
    ExportSlots(Escape(o.title), Css(o.darkTheme, t.cssRules), o.includePresetManager, t);
  }

  /** A part of a concatenation occurs in it. */
  lemma ContainsPart(parts: seq<string>, i: nat)
    requires i < |parts|
    ensures Contains(Concat(parts), parts[i])
  {
    ConcatAt(parts, i);
    var pre := Concat(parts[..i]);
    assert Concat(parts)[|pre|..|pre| + |parts[i]|] == parts[i];
    assert OccursAt(Concat(parts), parts[i], |pre|);
  }

  /** The fixed sections among the pieces. */
  lemma FixedSlots(e: string, css: string, preset: bool, exports: bool, t: Template)
    ensures Contains(Concat(Pieces(e, css, preset, exports, t)), t.logPanel)
    ensures Contains(Concat(Pieces(e, css, preset, exports, t)), t.baseJs)
    ensures Contains(Concat(Pieces(e, css, preset, exports, t)), t.initJs)
  {
    var p := Pieces(e, css, preset, exports, t);
    ContainsPart(p, LogPanelSlot);
    ContainsPart(p, BaseJsSlot);
    ContainsPart(p, InitJsSlot);
  }

  /** The log panel, the base code and the start-up code are there whatever the flags. */
  lemma FixedSectionsAlwaysPresent(o: AppOptions, t: Template)
    ensures Contains(Document(o, t), t.logPanel)
    ensures Contains(Document(o, t), t.baseJs)
    ensures Contains(Document(o, t), t.initJs)
  {
    FixedSlots(Escape(o.title), Css(o.darkTheme, t.cssRules), o.includePresetManager, o.includeExportButtons, t);
  }

  /** The generator's own fixed texts. */
  const Texts: Template := Template(
    Prologue, StyleOpen, HeaderOpen, MainSection, LogPanel, ScriptOpen, Epilogue, CssRules,
    PresetManagerHtml, ExportButtonsHtml, BaseJs, PresetManagerJs, ExportJs, InitJs)

  /** `generateBaseApp(options)`. */
  function GenerateBaseApp(o: AppOptions): string {
    Document(o, Texts)
  }

  /** The document up to the text of `<title>`. */
  const Prologue: string :=
      "<!DOCTYPE html>\n"
    + "<html lang=\"en\">\n"
    + "<head>\n"
    + "  <meta charset=\"UTF-8\">\n"
    + "  <meta name=\"viewport\" content=\"width=device-width, initial-scale=1.0\">\n"
    + "  <title>"

  /** From `</title>` to the style sheet. */
  const StyleOpen: string :=
      "</title>\n"
    + "  <style>\n"

  /** From the style sheet to the text of the `<h1>`. */
  const HeaderOpen: string :=
      "\n"
    + "  </style>\n"
    + "</head>\n"
    + "<body>\n"
    + "  <div id=\"app\">\n"
    + "    <header class=\"lab-header\">\n"
    + "      <h1 class=\"lab-title\">"

  /** From the `<h1>` text to the footer: the sample controls and the output area. */
  const MainSection: string :=
      "</h1>\n"
    + "      <p class=\"lab-subtitle\">Single-File Lab App</p>\n"
    + "    </header>\n"
    + "\n"
    + "    <main class=\"lab-main\">\n"
    + "      <section class=\"lab-controls\" id=\"controls\">\n"
    + "        <h2>Controls</h2>\n"
    + "        <div class=\"control-group\">\n"
    + "          <label for=\"sampleInput\">Sample Input</label>\n"
    + "          <input type=\"text\" id=\"sampleInput\" value=\"Hello Lab\" />\n"
    + "        </div>\n"
    + "        <div class=\"control-group\">\n"
    + "          <label for=\"sampleRange\">Range</label>\n"
    + "          <input type=\"range\" id=\"sampleRange\" min=\"0\" max=\"100\" value=\"50\" />\n"
    + "          <span class=\"range-value\" id=\"sampleRangeValue\">50</span>\n"
    + "        </div>\n"
    + "        <div class=\"control-group\">\n"
    + "          <label for=\"sampleSelect\">Mode</label>\n"
    + "          <select id=\"sampleSelect\">\n"
    + "            <option value=\"mode1\">Mode 1</option>\n"
    + "            <option value=\"mode2\">Mode 2</option>\n"
    + "            <option value=\"mode3\">Mode 3</option>\n"
    + "          </select>\n"
    + "        </div>\n"
    + "        <div class=\"control-group\">\n"
    + "          <label>\n"
    + "            <input type=\"checkbox\" id=\"sampleToggle\" checked />\n"
    + "            Enable Feature\n"
    + "          </label>\n"
    + "        </div>\n"
    + "      </section>\n"
    + "\n"
    + "      <section class=\"lab-output\" id=\"output\">\n"
    + "        <h2>Output</h2>\n"
    + "        <div class=\"output-canvas\" id=\"outputCanvas\">\n"
    + "          <p class=\"placeholder\">Your output will appear here.</p>\n"
    + "        </div>\n"
    + "      </section>\n"
    + "    </main>\n"
    + "\n"
    + "    <footer class=\"lab-footer\">\n"

  /** The console-log panel of the footer. */
  const LogPanel: string :=
      "      <div class=\"lab-log\" id=\"logPanel\">\n"
    + "        <h3>Console Log</h3>\n"
    + "        <div class=\"log-entries\" id=\"logEntries\"></div>\n"
    + "      </div>"

  /** The end of the footer and of the app, and the opening `<script>`. */
  const ScriptOpen: string :=
      "\n"
    + "    </footer>\n"
    + "  </div>\n"
    + "\n"
    + "  <script>\n"

  /** The closing tags. */
  const Epilogue: string :=
      "\n"
    + "  </script>\n"
    + "</body>\n"
    + "</html>"

  /** The style sheet after the palette variables. */
  const CssRules: string :=
      "      --transition: 150ms cubic-bezier(0.4, 0, 0.2, 1);\n"
    + "    }\n"
    + "\n"
    + "    *, *::before, *::after { box-sizing: border-box; margin: 0; padding: 0; }\n"
    + "\n"
    + "    body {\n"
    + "      font-family: -apple-system, BlinkMacSystemFont, 'Segoe UI', Roboto, Oxygen, Ubuntu, sans-serif;\n"
    + "      background: var(--bg);\n"
    + "      color: var(--text);\n"
    + "      line-height: 1.6;\n"
    + "      min-height: 100vh;\n"
    + "    }\n"
    + "\n"
    + "    #app {\n"
    + "      max-width: 1200px;\n"
    + "      margin: 0 auto;\n"
    + "      padding: 2rem 1.5rem;\n"
    + "    }\n"
    + "\n"
    + "    .lab-header {\n"
    + "      text-align: center;\n"
    + "      margin-bottom: 2rem;\n"
    + "      padding-bottom: 1.5rem;\n"
    + "      border-bottom: 1px solid var(--border);\n"
    + "    }\n"
    + "\n"
    + "    .lab-title {\n"
    + "      font-size: 2rem;\n"
    + "      font-weight: 700;\n"
    + "      background: linear-gradient(135deg, var(--accent), #a371f7);\n"
    + "      -webkit-background-clip: text;\n"
    + "      -webkit-text-fill-color: transparent;\n"
    + "      background-clip: text;\n"
    + "    }\n"
    + "\n"
    + "    .lab-subtitle {\n"
    + "      color: var(--text-muted);\n"
    + "      font-size: 0.9rem;\n"
    + "      margin-top: 0.25rem;\n"
    + "    }\n"
    + "\n"
    + "    .lab-main {\n"
    + "      display: grid;\n"
    + "      grid-template-columns: 320px 1fr;\n"
    + "      gap: 1.5rem;\n"
    + "      margin-bottom: 2rem;\n"
    + "    }\n"
    + "\n"
    + "    @media (max-width: 768px) {\n"
    + "      .lab-main { grid-template-columns: 1fr; }\n"
    + "    }\n"
    + "\n"
    + "    .lab-controls, .lab-output {\n"
    + "      background: var(--surface);\n"
    + "      border: 1px solid var(--border);\n"
    + "      border-radius: var(--radius);\n"
    + "      padding: 1.25rem;\n"
    + "      box-shadow: var(--shadow);\n"
    + "    }\n"
    + "\n"
    + "    .lab-controls h2, .lab-output h2 {\n"
    + "      font-size: 0.85rem;\n"
    + "      text-transform: uppercase;\n"
    + "      letter-spacing: 0.05em;\n"
    + "      color: var(--text-muted);\n"
    + "      margin-bottom: 1rem;\n"
    + "      padding-bottom: 0.5rem;\n"
    + "      border-bottom: 1px solid var(--border);\n"
    + "    }\n"
    + "\n"
    + "    .control-group {\n"
    + "      margin-bottom: 1rem;\n"
    + "    }\n"
    + "\n"
    + "    .control-group label {\n"
    + "      display: block;\n"
    + "      font-size: 0.85rem;\n"
    + "      font-weight: 600;\n"
    + "      margin-bottom: 0.35rem;\n"
    + "      color: var(--text);\n"
    + "    }\n"
    + "\n"
    + "    input[type=\"text\"], select {\n"
    + "      width: 100%;\n"
    + "      padding: 0.5rem 0.75rem;\n"
    + "      background: var(--input-bg);\n"
    + "      border: 1px solid var(--border);\n"
    + "      border-radius: var(--radius);\n"
    + "      color: var(--text);\n"
    + "      font-size: 0.9rem;\n"
    + "      transition: border-color var(--transition);\n"
    + "    }\n"
    + "\n"
    + "    input[type=\"text\"]:focus, select:focus {\n"
    + "      outline: none;\n"
    + "      border-color: var(--accent);\n"
    + "      box-shadow: 0 0 0 3px rgba(88, 166, 255, 0.15);\n"
    + "    }\n"
    + "\n"
    + "    input[type=\"range\"] {\n"
    + "      width: calc(100% - 40px);\n"
    + "      accent-color: var(--accent);\n"
    + "    }\n"
    + "\n"
    + "    .range-value {\n"
    + "      display: inline-block;\n"
    + "      width: 32px;\n"
    + "      text-align: right;\n"
    + "      font-size: 0.85rem;\n"
    + "      font-weight: 600;\n"
    + "      color: var(--accent);\n"
    + "    }\n"
    + "\n"
    + "    input[type=\"checkbox\"] {\n"
    + "      accent-color: var(--accent);\n"
    + "      margin-right: 0.4rem;\n"
    + "    }\n"
    + "\n"
    + "    .output-canvas {\n"
    + "      min-height: 300px;\n"
    + "      border: 1px dashed var(--border);\n"
    + "      border-radius: var(--radius);\n"
    + "      display: flex;\n"
    + "      align-items: center;\n"
    + "      justify-content: center;\n"
    + "      padding: 1rem;\n"
    + "    }\n"
    + "\n"
    + "    .placeholder {\n"
    + "      color: var(--text-muted);\n"
    + "      font-style: italic;\n"
    + "    }\n"
    + "\n"
    + "    .lab-footer {\n"
    + "      border-top: 1px solid var(--border);\n"
    + "      padding-top: 1.5rem;\n"
    + "    }\n"
    + "\n"
    + "    /* Buttons */\n"
    + "    .btn {\n"
    + "      display: inline-flex;\n"
    + "      align-items: center;\n"
    + "      gap: 0.4rem;\n"
    + "      padding: 0.5rem 1rem;\n"
    + "      font-size: 0.85rem;\n"
    + "      font-weight: 600;\n"
    + "      border: 1px solid var(--border);\n"
    + "      border-radius: var(--radius);\n"
    + "      background: var(--surface);\n"
    + "      color: var(--text);\n"
    + "      cursor: pointer;\n"
    + "      transition: all var(--transition);\n"
    + "    }\n"
    + "\n"
    + "    .btn:hover {\n"
    + "      background: var(--accent);\n"
    + "      color: #fff;\n"
    + "      border-color: var(--accent);\n"
    + "    }\n"
    + "\n"
    + "    .btn-primary {\n"
    + "      background: var(--accent);\n"
    + "      color: #fff;\n"
    + "      border-color: var(--accent);\n"
    + "    }\n"
    + "\n"
    + "    .btn-primary:hover {\n"
    + "      background: var(--accent-hover);\n"
    + "      border-color: var(--accent-hover);\n"
    + "    }\n"
    + "\n"
    + "    .btn-success { background: var(--success); color: #fff; border-color: var(--success); }\n"
    + "    .btn-danger  { background: var(--danger);  color: #fff; border-color: var(--danger); }\n"
    + "\n"
    + "    /* Preset / Export Bar */\n"
    + "    .toolbar {\n"
    + "      display: flex;\n"
    + "      flex-wrap: wrap;\n"
    + "      gap: 0.5rem;\n"
    + "      margin-bottom: 1rem;\n"
    + "      align-items: center;\n"
    + "    }\n"
    + "\n"
    + "    .toolbar select {\n"
    + "      width: auto;\n"
    + "      min-width: 160px;\n"
    + "    }\n"
    + "\n"
    + "    /* Log Panel */\n"
    + "    .lab-log {\n"
    + "      margin-top: 1rem;\n"
    + "    }\n"
    + "\n"
    + "    .lab-log h3 {\n"
    + "      font-size: 0.8rem;\n"
    + "      text-transform: uppercase;\n"
    + "      letter-spacing: 0.05em;\n"
    + "      color: var(--text-muted);\n"
    + "      margin-bottom: 0.5rem;\n"
    + "      cursor: pointer;\n"
    + "    }\n"
    + "\n"
    + "    .log-entries {\n"
    + "      max-height: 200px;\n"
    + "      overflow-y: auto;\n"
    + "      background: var(--input-bg);\n"
    + "      border: 1px solid var(--border);\n"
    + "      border-radius: var(--radius);\n"
    + "      padding: 0.5rem 0.75rem;\n"
    + "      font-family: 'SF Mono', 'Fira Code', 'Cascadia Code', Consolas, monospace;\n"
    + "      font-size: 0.8rem;\n"
    + "      line-height: 1.5;\n"
    + "    }\n"
    + "\n"
    + "    .log-entry { padding: 0.15rem 0; border-bottom: 1px solid var(--border); }\n"
    + "    .log-entry:last-child { border-bottom: none; }\n"
    + "    .log-entry.warn { color: #d29922; }\n"
    + "    .log-entry.error { color: var(--danger); }\n"
    + "    .log-entry .timestamp { color: var(--text-muted); margin-right: 0.5rem; }"

  /** `generatePresetManagerHTML()`. */
  const PresetManagerHtml: string :=
      "      <div class=\"toolbar\" id=\"presetBar\">\n"
    + "        <select id=\"presetSelect\">\n"
    + "          <option value=\"\">\U{2014} Select Preset \U{2014}</option>\n"
    + "        </select>\n"
    + "        <button class=\"btn btn-primary\" onclick=\"Lab.savePreset()\">\U{1F4BE} Save Preset</button>\n"
    + "        <button class=\"btn btn-danger\" onclick=\"Lab.deletePreset()\">\U{1F5D1}\U{FE0F} Delete</button>\n"
    + "      </div>"

  /** `generateExportButtonsHTML()`. */
  const ExportButtonsHtml: string :=
      "      <div class=\"toolbar\" id=\"exportBar\">\n"
    + "        <button class=\"btn\" onclick=\"Lab.exportHTML()\">\U{1F4C4} Export HTML</button>\n"
    + "        <button class=\"btn\" onclick=\"Lab.exportJSON()\">\U{1F4CB} Export JSON</button>\n"
    + "        <button class=\"btn\" onclick=\"Lab.exportCSV()\">\U{1F4CA} Export CSV</button>\n"
    + "      </div>"

  /** `generateBaseJS()`: the `Lab` object. */
  const BaseJs: string :=
      "  // \U{2500}\U{2500}\U{2500} Lab Core \U{2500}\U{2500}\U{2500}\U{2500}\U{2500}\U{2500}\U{2500}\U{2500}\U{2500}\U{2500}\U{2500}\U{2500}\U{2500}\U{2500}\U{2500}\U{2500}\U{2500}\U{2500}\U{2500}\U{2500}\U{2500}\U{2500}\U{2500}\U{2500}\U{2500}\U{2500}\U{2500}\U{2500}\U{2500}\U{2500}\U{2500}\U{2500}\U{2500}\U{2500}\U{2500}\U{2500}\U{2500}\U{2500}\U{2500}\U{2500}\U{2500}\U{2500}\U{2500}\U{2500}\U{2500}\n"
    + "  const Lab = {\n"
    + "    state: {},\n"
    + "    logs: [],\n"
    + "\n"
    + "    init() {\n"
    + "      this.bindControls();\n"
    + "      this.log('Lab initialized');\n"
    + "    },\n"
    + "\n"
    + "    bindControls() {\n"
    + "      document.querySelectorAll('#controls input, #controls select').forEach(el => {\n"
    + "        const key = el.id;\n"
    + "        if (el.type === 'checkbox') {\n"
    + "          this.state[key] = el.checked;\n"
    + "          el.addEventListener('change', () => {\n"
    + "            this.state[key] = el.checked;\n"
    + "            this.onChange(key, el.checked);\n"
    + "          });\n"
    + "        } else if (el.type === 'range') {\n"
    + "          this.state[key] = Number(el.value);\n"
    + "          const display = document.getElementById(key + 'Value');\n"
    + "          el.addEventListener('input', () => {\n"
    + "            this.state[key] = Number(el.value);\n"
    + "            if (display) display.textContent = el.value;\n"
    + "            this.onChange(key, Number(el.value));\n"
    + "          });\n"
    + "        } else {\n"
    + "          this.state[key] = el.value;\n"
    + "          el.addEventListener('input', () => {\n"
    + "            this.state[key] = el.value;\n"
    + "            this.onChange(key, el.value);\n"
    + "          });\n"
    + "        }\n"
    + "      });\n"
    + "    },\n"
    + "\n"
    + "    onChange(key, value) {\n"
    + "      this.log(`State changed: ${key} = ${JSON.stringify(value)}`);\n"
    + "      this.render();\n"
    + "    },\n"
    + "\n"
    + "    render() {\n"
    + "      const canvas = document.getElementById('outputCanvas');\n"
    + "      if (!canvas) return;\n"
    + "      canvas.innerHTML = '<pre style=\"text-align:left;white-space:pre-wrap;word-break:break-all;\">' +\n"
    + "        JSON.stringify(this.state, null, 2) + '</pre>';\n"
    + "    },\n"
    + "\n"
    + "    log(msg, level = 'info') {\n"
    + "      const entry = { time: new Date().toISOString().slice(11, 19), msg, level };\n"
    + "      this.logs.push(entry);\n"
    + "      const container = document.getElementById('logEntries');\n"
    + "      if (container) {\n"
    + "        const div = document.createElement('div');\n"
    + "        div.className = 'log-entry ' + level;\n"
    + "        div.innerHTML = '<span class=\"timestamp\">' + entry.time + '</span>' + this.escapeHtml(msg);\n"
    + "        container.appendChild(div);\n"
    + "        container.scrollTop = container.scrollHeight;\n"
    + "      }\n"
    + "    },\n"
    + "\n"
    + "    escapeHtml(str) {\n"
    + "      const d = document.createElement('div');\n"
    + "      d.textContent = str;\n"
    + "      return d.innerHTML;\n"
    + "    }\n"
    + "  };"

  /** `generatePresetManagerJS()`. */
  const PresetManagerJs: string :=
      "\n"
    + "  // \U{2500}\U{2500}\U{2500} Preset Manager \U{2500}\U{2500}\U{2500}\U{2500}\U{2500}\U{2500}\U{2500}\U{2500}\U{2500}\U{2500}\U{2500}\U{2500}\U{2500}\U{2500}\U{2500}\U{2500}\U{2500}\U{2500}\U{2500}\U{2500}\U{2500}\U{2500}\U{2500}\U{2500}\U{2500}\U{2500}\U{2500}\U{2500}\U{2500}\U{2500}\U{2500}\U{2500}\U{2500}\U{2500}\U{2500}\U{2500}\U{2500}\n"
    + "  Lab.PRESET_KEY = 'lab_presets';\n"
    + "\n"
    + "  Lab.getPresets = function() {\n"
    + "    try { return JSON.parse(localStorage.getItem(this.PRESET_KEY) || '{}'); }\n"
    + "    catch { return {}; }\n"
    + "  };\n"
    + "\n"
    + "  Lab.savePreset = function() {\n"
    + "    const name = prompt('Preset name:');\n"
    + "    if (!name) return;\n"
    + "    const presets = this.getPresets();\n"
    + "    presets[name] = { ...this.state };\n"
    + "    localStorage.setItem(this.PRESET_KEY, JSON.stringify(presets));\n"
    + "    this.refreshPresetList();\n"
    + "    this.log('Preset saved: ' + name, 'info');\n"
    + "  };\n"
    + "\n"
    + "  Lab.loadPreset = function(name) {\n"
    + "    const presets = this.getPresets();\n"
    + "    if (!presets[name]) return;\n"
    + "    this.state = { ...presets[name] };\n"
    + "    // Restore UI\n"
    + "    Object.entries(this.state).forEach(([key, val]) => {\n"
    + "      const el = document.getElementById(key);\n"
    + "      if (!el) return;\n"
    + "      if (el.type === 'checkbox') el.checked = val;\n"
    + "      else el.value = val;\n"
    + "      const display = document.getElementById(key + 'Value');\n"
    + "      if (display) display.textContent = val;\n"
    + "    });\n"
    + "    this.render();\n"
    + "    this.log('Preset loaded: ' + name, 'info');\n"
    + "  };\n"
    + "\n"
    + "  Lab.deletePreset = function() {\n"
    + "    const select = document.getElementById('presetSelect');\n"
    + "    const name = select.value;\n"
    + "    if (!name) { alert('Select a preset first.'); return; }\n"
    + "    if (!confirm('Delete preset \"' + name + '\"?')) return;\n"
    + "    const presets = this.getPresets();\n"
    + "    delete presets[name];\n"
    + "    localStorage.setItem(this.PRESET_KEY, JSON.stringify(presets));\n"
    + "    this.refreshPresetList();\n"
    + "    this.log('Preset deleted: ' + name, 'warn');\n"
    + "  };\n"
    + "\n"
    + "  Lab.refreshPresetList = function() {\n"
    + "    const select = document.getElementById('presetSelect');\n"
    + "    const presets = this.getPresets();\n"
    + "    select.innerHTML = '<option value=\"\">\U{2014} Select Preset \U{2014}</option>';\n"
    + "    Object.keys(presets).forEach(name => {\n"
    + "      const opt = document.createElement('option');\n"
    + "      opt.value = name;\n"
    + "      opt.textContent = name;\n"
    + "      select.appendChild(opt);\n"
    + "    });\n"
    + "  };\n"
    + "\n"
    + "  // Hook preset select\n"
    + "  document.getElementById('presetSelect')?.addEventListener('change', function() {\n"
    + "    if (this.value) Lab.loadPreset(this.value);\n"
    + "  });"

  /** `generateExportJS()`. */
  const ExportJs: string :=
      "\n"
    + "  // \U{2500}\U{2500}\U{2500} Export Utilities \U{2500}\U{2500}\U{2500}\U{2500}\U{2500}\U{2500}\U{2500}\U{2500}\U{2500}\U{2500}\U{2500}\U{2500}\U{2500}\U{2500}\U{2500}\U{2500}\U{2500}\U{2500}\U{2500}\U{2500}\U{2500}\U{2500}\U{2500}\U{2500}\U{2500}\U{2500}\U{2500}\U{2500}\U{2500}\U{2500}\U{2500}\U{2500}\U{2500}\U{2500}\U{2500}\U{2500}\n"
    + "  Lab.exportHTML = function() {\n"
    + "    const blob = new Blob([document.documentElement.outerHTML], { type: 'text/html' });\n"
    + "    this._download(blob, 'lab-snapshot.html');\n"
    + "    this.log('Exported HTML snapshot');\n"
    + "  };\n"
    + "\n"
    + "  Lab.exportJSON = function() {\n"
    + "    const data = { state: this.state, presets: this.getPresets?.() || {}, exportedAt: new Date().toISOString() };\n"
    + "    const blob = new Blob([JSON.stringify(data, null, 2)], { type: 'application/json' });\n"
    + "    this._download(blob, 'lab-data.json');\n"
    + "    this.log('Exported JSON data');\n"
    + "  };\n"
    + "\n"
    + "  Lab.exportCSV = function() {\n"
    + "    const header = 'timestamp,level,message\\n';\n"
    + "    const rows = this.logs.map(e => `${e.time},${e.level},\"${e.msg.replace(/\"/g, '\"\"')}\"`).join('\\n');\n"
    + "    const blob = new Blob([header + rows], { type: 'text/csv' });\n"
    + "    this._download(blob, 'lab-log.csv');\n"
    + "    this.log('Exported CSV log');\n"
    + "  };\n"
    + "\n"
    + "  Lab._download = function(blob, filename) {\n"
    + "    const a = document.createElement('a');\n"
    + "    a.href = URL.createObjectURL(blob);\n"
    + "    a.download = filename;\n"
    + "    a.click();\n"
    + "    URL.revokeObjectURL(a.href);\n"
    + "  };"

  /** `generateInitJS()`. */
  const InitJs: string :=
      "\n"
    + "  // \U{2500}\U{2500}\U{2500} Initialize \U{2500}\U{2500}\U{2500}\U{2500}\U{2500}\U{2500}\U{2500}\U{2500}\U{2500}\U{2500}\U{2500}\U{2500}\U{2500}\U{2500}\U{2500}\U{2500}\U{2500}\U{2500}\U{2500}\U{2500}\U{2500}\U{2500}\U{2500}\U{2500}\U{2500}\U{2500}\U{2500}\U{2500}\U{2500}\U{2500}\U{2500}\U{2500}\U{2500}\U{2500}\U{2500}\U{2500}\U{2500}\U{2500}\U{2500}\U{2500}\U{2500}\U{2500}\n"
    + "  document.addEventListener('DOMContentLoaded', () => {\n"
    + "    Lab.init();\n"
    + "    if (typeof Lab.refreshPresetList === 'function') Lab.refreshPresetList();\n"
    + "  });"
}
