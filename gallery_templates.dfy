/**
 * The template gallery (`TEMPLATES`): three presets, each with a name and
 * description for its gallery card, optional script URLs for the document
 * head, optional markup per selector for the output area, and an optional
 * script for the document's JavaScript section.
 *
 * The object literal keeps its keys in insertion order, which is the order
 * `Object.values` lists the gallery cards in; the model holds the table as a
 * map together with that key order. `injectHtml` objects are lists of
 * `(selector, markup)` entries in the order `Object.entries` yields them.
 */
module GalleryTemplates {
  import opened Wrappers

  /** One preset (`LabTemplate`). */
  datatype LabTemplate = LabTemplate(
    id: string,
    name: string,
    description: string,
    scripts: Option<seq<string>>,
    injectHtml: Option<seq<(string, string)>>,
    injectJs: Option<string>)

  /** The only `injectHtml` selector the gallery composer acts on. */
  const OutputCanvas: string := "#outputCanvas"

  /** The Chart.js bundle the visualizer loads. */
  const ChartJsUrl: string := "https://cdn.jsdelivr.net/npm/chart.js"

  /** The visualizer's chart canvas (line 22). */
  const VisualizerCanvas: string :=
    "<canvas id=\"myChart\" style=\"width:100%; "
    + "height:300px;\"></canvas>"

  /** The visualizer's chart script (lines 24-49). */
  const VisualizerJs: string :=
    "\n  // \U{2500}\U{2500}\U{2500} Chart Initialization \U{2500}\U{2500}\U{2500}\U{2500}\U{2500}\U{2500}\U{2500}\U{2500}\U{2500}"
    + "\U{2500}\U{2500}\U{2500}\U{2500}\U{2500}\U{2500}\U{2500}\U{2500}\U{2500}\U{2500}\U{2500}\U{2500}\U{2500}\U{2500}\U{2500}\U{2500}\U{2500}\U{2500}\U{2500}\U{2500}\U{2500}\n  Lab.render = fun"
    + "ction() {\n    const ctx = document.getEl"
    + "ementById(\'myChart\')?.getContext(\'2d\');\n"
    + "    if (!ctx) return;\n    if (this.chart"
    + ") this.chart.destroy();\n    this.chart ="
    + " new Chart(ctx, {\n      type: \'bar\',\n   "
    + "   data: {\n        labels: [\'Red\', \'Blue"
    + "\', \'Yellow\', \'Green\', \'Purple\', \'Orange\'"
    + "],\n        datasets: [{\n          label:"
    + " \'Lab Data\',\n          data: [12, 19, 3,"
    + " 5, 2, 3].map(v => v * (this.state.sampl"
    + "eRange / 50)),\n          backgroundColor"
    + ": \'rgba(88, 166, 255, 0.5)\',\n          b"
    + "orderColor: \'rgba(88, 166, 255, 1)\',\n   "
    + "       borderWidth: 1\n        }]\n      }"
    + ",\n      options: {\n        responsive: t"
    + "rue,\n        maintainAspectRatio: false,"
    + "\n        plugins: { legend: { display: f"
    + "alse } },\n        scales: { y: { beginAt"
    + "Zero: true } }\n      }\n    });\n  };"

  /** The game's canvas (line 56). */
  const GameCanvas: string :=
    "<canvas id=\"gameCanvas\" width=\"800\" heig"
    + "ht=\"400\" style=\"background:#000; width:1"
    + "00%; height:300px; border-radius:4px;\"><"
    + "/canvas>"

  /** The game's animation loop (lines 58-80). */
  const GameJs: string :=
    "\n  // \U{2500}\U{2500}\U{2500} Game Loop \U{2500}\U{2500}\U{2500}\U{2500}\U{2500}\U{2500}\U{2500}\U{2500}\U{2500}\U{2500}\U{2500}\U{2500}\U{2500}\U{2500}\U{2500}\U{2500}\U{2500}\U{2500}\U{2500}\U{2500}"
    + "\U{2500}\U{2500}\U{2500}\U{2500}\U{2500}\U{2500}\U{2500}\U{2500}\U{2500}\U{2500}\U{2500}\U{2500}\U{2500}\U{2500}\U{2500}\U{2500}\U{2500}\U{2500}\U{2500}\U{2500}\U{2500}\U{2500}\n  Lab.render = fu"
    + "nction() {\n    const canvas = document.g"
    + "etElementById(\'gameCanvas\');\n    const c"
    + "tx = canvas?.getContext(\'2d\');\n    if (!"
    + "ctx) return;\n    \n    let x = 0;\n    \n  "
    + "  const animate = (t) => {\n      ctx.cle"
    + "arRect(0, 0, canvas.width, canvas.height"
    + ");\n      ctx.fillStyle = this.state.samp"
    + "leToggle ? \'#3fb950\' : \'#f85149\';\n      "
    + "\n      const speed = this.state.sampleRa"
    + "nge / 5;\n      x = (x + speed) % canvas."
    + "width;\n      \n      ctx.fillRect(x, 180,"
    + " 80, 40);\n      this.frame = requestAnim"
    + "ationFrame(animate);\n    };\n    \n    if "
    + "(this.frame) cancelAnimationFrame(this.f"
    + "rame);\n    animate(0);\n  };"

  /** The dashboard's stat grid (line 87). */
  const DashboardGrid: string :=
    "<div style=\"display:grid; grid-template-"
    + "columns: repeat(2, 1fr); gap:15px; width"
    + ":100%;\"><div class=\"lab-controls\" style="
    + "\"margin:0; text-align:center;\"><div styl"
    + "e=\"font-size:24px; font-weight:700; colo"
    + "r:var(--accent);\" id=\"stat1\">0</div><div"
    + " style=\"font-size:12px; color:var(--text"
    + "-muted);\">Active Users</div></div><div c"
    + "lass=\"lab-controls\" style=\"margin:0; tex"
    + "t-align:center;\"><div style=\"font-size:2"
    + "4px; font-weight:700; color:var(--succes"
    + "s);\" id=\"stat2\">0%</div><div style=\"font"
    + "-size:12px; color:var(--text-muted);\">Up"
    + "time</div></div><div class=\"lab-controls"
    + "\" style=\"grid-column: span 2; margin:0;\""
    + " id=\"gridOutput\"><div style=\"height:100p"
    + "x; background:var(--surface); border:1px"
    + " dashed var(--border); border-radius:4px"
    + "; display:flex; align-items:center; just"
    + "ify-content:center;\">Main Content Area</"
    + "div></div></div>"

  /** The dashboard's update script (lines 89-98). */
  const DashboardJs: string :=
    "\n  // \U{2500}\U{2500}\U{2500} Dashboard Logic \U{2500}\U{2500}\U{2500}\U{2500}\U{2500}\U{2500}\U{2500}\U{2500}\U{2500}\U{2500}\U{2500}\U{2500}\U{2500}\U{2500}"
    + "\U{2500}\U{2500}\U{2500}\U{2500}\U{2500}\U{2500}\U{2500}\U{2500}\U{2500}\U{2500}\U{2500}\U{2500}\U{2500}\U{2500}\U{2500}\U{2500}\U{2500}\U{2500}\U{2500}\U{2500}\U{2500}\U{2500}\n  Lab.render = fu"
    + "nction() {\n    document.getElementById(\'"
    + "stat1\').textContent = Math.floor(this.st"
    + "ate.sampleRange * 2.5);\n    document.get"
    + "ElementById(\'stat2\').textContent = this."
    + "state.sampleToggle ? \'99.9%\' : \'0%\';\n   "
    + " const grid = document.getElementById(\'g"
    + "ridOutput\');\n    if (grid) {\n      grid."
    + "style.borderColor = this.state.sampleTog"
    + "gle ? \'var(--success)\' : \'var(--danger)\'"
    + ";\n    }\n  };"

  /** The text of one preset: card name and description, output markup, and script. */
  datatype PresetText = PresetText(name: string, description: string, markup: string, script: string)

  const VisualizerText: PresetText :=
    PresetText("\U{1F4C8} Data Visualizer", "Built-in Chart.js integration and CSV parser.", VisualizerCanvas, VisualizerJs)

  const GameText: PresetText :=
    PresetText("\U{1F579}\U{FE0F} Game Loop", "Canvas setup with delta-time loop and input hooks.", GameCanvas, GameJs)

  const DashboardText: PresetText :=
    PresetText("\U{1F4CA} Analytics Dashboard", "Multi-grid layout with stat cards and real-time updates.", DashboardGrid, DashboardJs)

  /** The `visualizer` entry (lines 16-50): the only one with scripts, the bundle at `chartJs`. */
  function VisualizerTemplate(v: PresetText, chartJs: string): LabTemplate {
    LabTemplate("visualizer", v.name, v.description, Some([chartJs]), Some([(OutputCanvas, v.markup)]), Some(v.script))
  }

  /** The `game` entry (lines 51-81). */
  function GameTemplate(g: PresetText): LabTemplate {
    LabTemplate("game", g.name, g.description, None, Some([(OutputCanvas, g.markup)]), Some(g.script))
  }

  /** The `dashboard` entry (lines 82-99). */
  function DashboardTemplate(d: PresetText): LabTemplate {
    LabTemplate("dashboard", d.name, d.description, None, Some([(OutputCanvas, d.markup)]), Some(d.script))
  }

  /**
   * The texts of the table, gathered so that facts about its shape can be
   * stated without spelling them out.
   */
  datatype TableText = TableText(visualizer: PresetText, game: PresetText, dashboard: PresetText, chartJs: string)

  const TemplateTexts: TableText := TableText(VisualizerText, GameText, DashboardText, ChartJsUrl)

  /** The object literal, keyed by template id, around the texts `x`. */
  function Table(x: TableText): map<string, LabTemplate> {
    map[
      "visualizer" := VisualizerTemplate(x.visualizer, x.chartJs),
      "game" := GameTemplate(x.game),
      "dashboard" := DashboardTemplate(x.dashboard)]
  }

  /** `Object.values` of the object literal: the entries in insertion order. */
  function TableValues(x: TableText): seq<LabTemplate> {
    [VisualizerTemplate(x.visualizer, x.chartJs), GameTemplate(x.game), DashboardTemplate(x.dashboard)]
  }

  /** `TEMPLATES`. */
  const Templates: map<string, LabTemplate> := Table(TemplateTexts)

  /** The keys of `TEMPLATES` in insertion order. */
  const TemplateOrder: seq<string> := ["visualizer", "game", "dashboard"]

  /** `table[key]`, with `undefined` as `None`. */
  function Lookup(table: map<string, LabTemplate>, key: string): (r: Option<LabTemplate>)
    ensures r.Some? <==> key in table
    ensures r.Some? ==> r.value == table[key]
  {
    if key in table then Some(table[key]) else None
  }

  /**
   * The table holds exactly the three presets; `Object.values` lists them in
   * the key order, which names each key once.
   */
  lemma TableKeys(x: TableText)
    ensures Table(x).Keys == {"visualizer", "game", "dashboard"}
    ensures |Table(x)| == 3
    ensures forall i, j | 0 <= i < j < |TemplateOrder| :: TemplateOrder[i] != TemplateOrder[j]
    ensures forall k :: k in Table(x) <==> k in TemplateOrder
    ensures |TableValues(x)| == |TemplateOrder|
    ensures forall i | 0 <= i < |TemplateOrder| :: TableValues(x)[i] == Table(x)[TemplateOrder[i]]
  {
    assert Table(x).Keys == {"visualizer", "game", "dashboard"};
  }

  /** Every entry's `id` is its own key, so looking an entry up by its id finds it again. */
  lemma IdsMatchKeys(x: TableText)
    ensures forall k | k in Table(x) :: Table(x)[k].id == k
    ensures forall t | t in TableValues(x) :: Lookup(Table(x), t.id) == Some(t)
  {
  }

  /** Only the visualizer declares scripts: the Chart.js bundle. */
  lemma OnlyVisualizerHasScripts(x: TableText)
    ensures forall k | k in Table(x) :: Table(x)[k].scripts.Some? <==> k == "visualizer"
    ensures Table(x)["visualizer"].scripts == Some([x.chartJs])
  {
  }

  /** Every entry's `injectHtml` has exactly one key, `#outputCanvas`, and every entry defines `injectJs`. */
  lemma OutputCanvasOnly(x: TableText)
    ensures forall k | k in Table(x) ::
      && Table(x)[k].injectHtml.Some?
      && |Table(x)[k].injectHtml.value| == 1
      && Table(x)[k].injectHtml.value[0].0 == OutputCanvas
    ensures forall k | k in Table(x) :: Table(x)[k].injectJs.Some?
  {
  }

  /** The scripts of `TEMPLATES` are non-empty, so each entry's `injectJs` is truthy. */
  lemma ScriptsTruthy()
    ensures |VisualizerJs| > 0 && |GameJs| > 0 && |DashboardJs| > 0
  {
  }
}
