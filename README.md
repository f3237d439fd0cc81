# Single-File Lab Studio, modelled in Dafny

Single-File Lab Studio is a VS Code extension. It generates, edits and
previews self-contained HTML "lab" apps. Almost all of its logic is string
transformation, plus a small amount of state. This project models that logic
and proves what it promises:

- **Live preview** (`Preview`, `ConsoleCapture`, `ConsoleInspector`):
  - at most one preview panel, held in a slot that `createOrShow` fills and `dispose` clears;
  - re-rendering on a change to the file, or on a save of that same file;
  - the console-capture script spliced after the first `<head>`;
  - the console inspector of the webview page: entries, error count and badge.
- **Lab specs** (`Json`, `SpecGenerator`, `HtmlEscape`): `validateSpec` checks in a fixed order and the first failure wins; `generateControlsHTML` renders one fragment per control; `esc`/`escapeHtml` escapes HTML.
- **Base document** (`BaseApp`): `generateBaseApp`, with the title escaped, the palette chosen by the theme, and the optional sections chosen by their flags.
- **Publish ready** (`PublishReady`): guarded insertion of the favicon, SEO meta tags and a service worker. A second run inserts nothing, on a document with `</head>` (and with `</body>` when the service worker is chosen).
- **Import spec** (`ImportSpec`):
  - the sample-spec fallback;
  - option defaults;
  - the file-name slug;
  - the greedy replacement of the controls section between its markers.
- **Template gallery** (`GalleryTemplates`, `LabView`):
  - the `TEMPLATES` table;
  - a new lab file composed from a template;
  - the gallery cards, the recent-files list, and the sidebar's message dispatch.

`Strings` models the JavaScript string operations the extension uses.
`String.prototype.replace` with a string or regular-expression pattern is
modelled exactly: it replaces the first match and expands the `$`-patterns of
the replacement text. The verbatim splice it coincides with, when the
replacement has no `$`, is modelled beside it.

The VS Code API is abstracted throughout, as follows:

- file reads, the quick pick, the input box, the save dialog and the workspace search are inputs;
- notifications, written files, opened documents and posted messages are outputs (`Outcome`, `Effect`);
- `JSON.parse`, `JSON.stringify` and the base-document generator are parameters where a command calls them.

## Model

| member | source | states |
|---|---|---|
| Preview.PreviewRegistry.CreateOrShow | src/preview/PreviewPanel.ts:26-46 | with a live panel it only reveals that panel: the slot, the panel count and the panel's file, content and subscriptions stay as they were; with none it creates exactly one fresh panel for the file, renders the read into it and stores it in the slot |
| Preview.PreviewPanel.constructor | src/preview/PreviewPanel.ts:16-24 | a new panel shows the first read of its file and holds the watcher, the save listener and the dispose listener, in that order |
| Preview.PreviewPanel.Reveal | src/preview/PreviewPanel.ts:29-31 | revealing counts one more reveal and changes nothing else |
| Preview.PreviewPanel.Update | src/preview/PreviewPanel.ts:48-56 | a successful read shows the console-wrapped document; a failed read shows the error page carrying the failure's message |
| Preview.PreviewPanel.OnDidChange | src/preview/PreviewPanel.ts:64-66 | a watcher change always re-renders from the new read |
| Preview.PreviewPanel.OnDidSaveTextDocument | src/preview/PreviewPanel.ts:71-75 | a save re-renders exactly when the saved path equals the previewed file's path; otherwise the content is unchanged |
| Preview.PreviewPanel.Dispose | src/preview/PreviewPanel.ts:346-353 | the slot is emptied, the panel disposed and the subscription list drained; the subscriptions are disposed in reverse order of registration; disposing again disposes nothing more |
| ConsoleCapture.InjectAfterHead | src/preview/PreviewPanel.ts:327-334 | the script goes right after the first `<head>`; with no `<head>`, right after the first `<HEAD>`; with neither, in front. The length grows by the script's length, and cutting the script out gives back the input |
| ConsoleCapture.MixedCaseHeadIsNotRecognised | src/preview/PreviewPanel.ts:328-333 | only the two exact spellings count: a document whose head tag is `<Head>` gets the script in front |
| ConsoleCapture.WrapWithConsoleCapture | src/preview/PreviewPanel.ts:294-335 | the console-capture script injected by the head rule that `InjectAfterHead` states and `MixedCaseHeadIsNotRecognised` pins down |
| ConsoleCapture.ErrorContent | src/preview/PreviewPanel.ts:337-344 | the error message is placed, unescaped, between the fixed page head and tail |
| ConsoleInspector.ErrorEntriesAppend | src/preview/PreviewPanel.ts:268-272 | adding an entry raises the error count by one exactly for level `error`; the count never exceeds the number of entries |
| ConsoleInspector.Inspector.constructor | src/preview/PreviewPanel.ts:228-243 | the page starts with no entries, a hidden badge reading 0, and the iframe loaded once and marked live; the badge invariant holds |
| ConsoleInspector.Inspector.LoadContent | src/preview/PreviewPanel.ts:239-243 | the iframe is loaded once more and the status reads `Live` |
| ConsoleInspector.Inspector.Refresh | src/preview/PreviewPanel.ts:245-247 | refresh reloads the iframe and leaves the entries and the error count untouched |
| ConsoleInspector.Inspector.ClearConsole | src/preview/PreviewPanel.ts:249-253 | no entries, a zero count and a hidden badge afterwards; the badge invariant is kept |
| ConsoleInspector.Inspector.ToggleConsole | src/preview/PreviewPanel.ts:255-257 | the panel's collapsed state flips |
| ConsoleInspector.Inspector.AddConsoleEntry | src/preview/PreviewPanel.ts:259-273 | exactly one entry (level, arguments joined by spaces) is appended. An `error` also counts and shows the badge with the new count; any other level leaves the count and the badge alone |
| ConsoleInspector.Inspector.OnMessage | src/preview/PreviewPanel.ts:282-286 | a message without a truthy `__labConsole` tag changes nothing; a tagged one appends one entry and counts it iff its level is `error` |
| Json.Get | src/templates/specGenerator.ts:29-36 | a property read finds a value exactly when the value is an object with that own key |
| SpecGenerator.FirstControlError | src/templates/specGenerator.ts:35-39 | no error iff every control passes; otherwise it is the failure of a control before which every control passes |
| SpecGenerator.ValidateSpec | src/templates/specGenerator.ts:26-44 | valid exactly when the text parsed to a well-formed spec, carrying that same spec. A parse failure or a `null` spec becomes a caught error. The title check comes first, then the controls array, then the first failing control |
| SpecGenerator.ErrorText | src/templates/specGenerator.ts:29-43 | exactly the caught exceptions carry the `JSON parse error: ` prefix |
| SpecGenerator.AsLabSpec | src/templates/specGenerator.ts:5-24 | the typed view of a parsed spec. `ValidatedSpecFields` states what it keeps of a validated spec; a number field reads as its value and its `String(…)` text |
| SpecGenerator.NumberTextBeyondExact | src/templates/specGenerator.ts:64 | a number field that is an integer up to 2^53 in magnitude renders as its exact decimal; a larger one such as 2^60 takes the `String(n)` text from `numberText` |
| SpecGenerator.ValidatedSpecFields | src/templates/specGenerator.ts:26-40 | a validated spec, read through its declared types, keeps its non-empty title, has one control per array element, and every control has a non-empty id, type and label |
| SpecGenerator.UnknownComment | src/templates/specGenerator.ts:99-100 | an unknown type becomes an indented HTML comment with the type's name at a fixed place |
| SpecGenerator.Fragment | src/templates/specGenerator.ts:47-101 | each of the seven known types gives a `control-group` div; any other type gives exactly the comment naming it |
| SpecGenerator.Fragments | src/templates/specGenerator.ts:47-101 | one fragment per control, in input order |
| SpecGenerator.ControlsHtml | src/templates/specGenerator.ts:46-103 | the fragments of the controls joined by newlines: `Fragments`, `ControlsHtmlSmall` and `ControlsHtmlAppend` state it per control, for short lists and for two lists in a row |
| SpecGenerator.ControlsHtmlSmall | src/templates/specGenerator.ts:46-47 | no controls give the empty string; one control gives exactly its fragment |
| SpecGenerator.ControlsHtmlAppend | src/templates/specGenerator.ts:102 | the rendering of two lists in a row is their two renderings joined by one newline |
| SpecGenerator.OptionTags | src/templates/specGenerator.ts:69-71 | one option tag per option, in order |
| SpecGenerator.OptionSelectedIff | src/templates/specGenerator.ts:70 | ` selected` follows an option's value attribute exactly when the value equals `String(default)` |
| SpecGenerator.CheckboxCheckedIff | src/templates/specGenerator.ts:82 | a checkbox carries `checked` after its id exactly when the default is truthy |
| HtmlEscape.Escape | src/templates/specGenerator.ts:105-111 | the result has no `<`, `>` or `"`; a text without `& < > "` comes back unchanged |
| HtmlEscape.EscapeConcat | src/templates/specGenerator.ts:105-111 | escaping distributes over concatenation |
| HtmlEscape.EscapeIsPerCharacter | src/templates/specGenerator.ts:105-111 | the four chained replacements act as one per-character substitution: because `&` goes first, the entities introduced later are never escaped again |
| HtmlEscape.UnescapeEscape | out/templates/baseApp.js:82-88 | decoding the four entities gives back the original text |
| HtmlEscape.EscapeInjective | out/templates/baseApp.js:82-88 | two texts escape alike only when they are equal |
| BaseApp.GenerateBaseApp | out/templates/baseApp.js:8-81 | the base document: `TitleOnlyEscaped`, `ThemesDifferEverywhere`, `PresetManagerToggle`, `ExportButtonsToggle` and `FixedSectionsAlwaysPresent` state how the title, the theme and the two flags shape it |
| BaseApp.ThemesDifferEverywhere | out/templates/baseApp.js:89-114 | each of the thirteen CSS variables the theme flag chooses has a different value in the dark palette than in the light one |
| BaseApp.TitleOnlyEscaped | out/templates/baseApp.js:10-25 | the title appears only escaped, in the `<title>` and the `<h1>`: another title changes those two places and nothing else, and neither place holds `<`, `>` or `"` |
| BaseApp.PresetManagerToggle | out/templates/baseApp.js:63-77 | switching `includePresetManager` on or off adds or removes the preset manager's markup and its code at two fixed places; the rest of the document is the same |
| BaseApp.ExportButtonsToggle | out/templates/baseApp.js:63-77 | switching `includeExportButtons` on or off adds or removes the export buttons and the export code at two fixed places; the rest of the document is the same |
| BaseApp.FixedSectionsAlwaysPresent | out/templates/baseApp.js:66-77 | the log panel, the base code and the start-up code are there whatever the flags |
| PublishReady.FirstTitleMatch | out/commands/publishReady.js:84 | the leftmost `<title>` that can match, closed by the first `</title>` after it, with no line break between; none when no such pair exists |
| PublishReady.ExtractTitleIsFirstMatch | out/commands/publishReady.js:84-85 | the title is the text of the first one-line `<title>…</title>`, or `Lab App` when there is none; it has no line terminator |
| PublishReady.ExtractTitle | out/commands/publishReady.js:84-85 | the title the command inserts, as `ExtractTitleIsFirstMatch` states it |
| PublishReady.HeadInjections | out/commands/publishReady.js:86-104 | the head blocks the guards let in: `SeoOnlyInjections`, `InjectionsHoldDescription` and `InjectionsCarryMarkers` state their order and markers, `InjectionsDollarFree` that they hold no `$` when the texts and the title hold none |
| PublishReady.InjectionsDollarFree | out/commands/publishReady.js:86-104 | with no `$` in the inserted texts, the favicon link or the title, the injections hold no `$` |
| PublishReady.Transform | out/commands/publishReady.js:86-110 | the verbatim head step, then the service-worker step: `HeadStepCloses`, `ServiceWorkerStepMarks` and `PublishIdempotent` state what it guarantees |
| PublishReady.TransformWithoutDollar | out/commands/publishReady.js:86-110 | with no `$` in the inserted texts, the favicon link and the document's title, the transform as written equals the verbatim one |
| PublishReady.FaviconLinkDollarFree | out/commands/publishReady.js:43-89 | the command's favicon link, including its data URI, holds no `$` |
| PublishReady.FixedTransformWithoutDollar | out/commands/publishReady.js:86-110 | with the command's own texts, the transform as written equals the verbatim one whenever the document's title holds no `$` |
| PublishReady.Report | out/commands/publishReady.js:117-127 | the fixed prefix and the chosen blocks' names joined by `, `, as `ReportNamesChoices` states |
| PublishReady.ReportNamesChoices | out/commands/publishReady.js:117-127 | the report names `favicon`, `SEO meta` and `service worker` each exactly when that block is chosen |
| PublishReady.InsertHead | out/commands/publishReady.js:105-107 | no injections, or no `</head>`, leave the document unchanged; otherwise the injections go verbatim right before the first `</head>` |
| PublishReady.PublishReadyCommand | out/commands/publishReady.js:61-127 | no HTML editor gives the warning and no edit. An empty or dismissed pick does nothing. Otherwise the new text is the verbatim-splice transform of the document for the picked blocks, and the report names them in order. With no `$` in the inserted texts, the favicon link and the title, it is also the source's as-written transform |
| PublishReady.HeadStepAsWrittenWithoutDollar | out/commands/publishReady.js:106 | without `$` in the injections, the head step as written is the verbatim splice |
| PublishReady.SeoOnlyInjections | out/commands/publishReady.js:92-104 | with only SEO picked and none of its markers present, the injections are the description, the three Open Graph tags and the theme colour, in that order |
| PublishReady.InjectionsHoldDescription | out/commands/publishReady.js:92-95 | with SEO picked and no description yet, the injections hold the description tag for the title |
| PublishReady.TitleInsertedVerbatim | out/commands/publishReady.js:93-106 | with the verbatim splice, the description tag carrying the document's title lands in the document whenever SEO is picked, the description is missing and `</head>` exists |
| PublishReady.DollarTitleExpands | out/commands/publishReady.js:94-106 | for any document titled `$&` without SEO markers, the head step as written comes out ten characters longer than the verbatim splice |
| PublishReady.TitlePatternExpandsAsWritten | out/commands/publishReady.js:94-106 | for `<title>$&</title></head>` with SEO picked, the head step as written expands both copies of the title into `</head>` |
| PublishReady.FixedTitlePatternExpands | out/commands/publishReady.js:94-106 | the same, with the command's own inserted texts |
| PublishReady.ServiceWorkerSplice | out/commands/publishReady.js:108-110 | the service-worker block replaces the first `</body>` verbatim when wanted and `serviceWorker` is absent; otherwise nothing changes |
| PublishReady.InjectionsCarryMarkers | out/commands/publishReady.js:87-104 | every head block that a guard lets in brings that guard's own marker |
| PublishReady.HeadStepCloses | out/commands/publishReady.js:87-107 | after the head step every chosen block's guard is closed, and `</body>` and `serviceWorker` are kept |
| PublishReady.ServiceWorkerStepMarks | out/commands/publishReady.js:108-110 | when wanted, `serviceWorker` is in the document after the step if it or `</body>` was there before |
| PublishReady.PublishIdempotent | out/commands/publishReady.js:86-110 | a second run with the same choices changes nothing, on a document with `</head>` (and with `</body>` when the service worker is chosen) |
| PublishReady.FixedIsMarked | out/commands/publishReady.js:43-109 | the command's own blocks each contain their marker; the service-worker block ends with `</body>` and has no `$` |
| PublishReady.ServiceWorkerScriptDollarFree | out/commands/publishReady.js:44-60 | the service-worker script contains no `$`, so `replace` inserts it verbatim |
| PublishReady.FixedHeadTextsDollarFree | out/commands/publishReady.js:89-102 | the inserted texts around the title contain no `$`, so only the title can bring one in |
| ImportSpec.SpecText | src/commands/importSpec.ts:35 | the trimmed input or the sample, as `SpecTextFallback` and `TrimEmptyIffBlank` state |
| ImportSpec.TrimEmptyIffBlank | src/commands/importSpec.ts:35 | trimming leaves nothing exactly when the text is white space only |
| ImportSpec.SpecTextFallback | src/commands/importSpec.ts:35 | a dismissed or blank input gives the sample spec; other input gives its own trimmed text, a non-empty slice with no white space at either end |
| ImportSpec.SampleSpecIsValid | src/commands/importSpec.ts:10-25 | the parsed sample passes validation with four controls |
| ImportSpec.OptionsFor | src/commands/importSpec.ts:49-54 | the title is passed on, and each flag is on unless the spec sets it to false |
| ImportSpec.FlagDefaultsToTrue | src/commands/importSpec.ts:51-53 | a missing or `null` flag is on; a present one is its truthiness |
| ImportSpec.CollapseShape | src/commands/importSpec.ts:67 | the slug has only `[a-z0-9-]` and no two adjacent hyphens |
| ImportSpec.CollapseKeeps | src/commands/importSpec.ts:67 | the slug keeps every letter and digit of its input, in order |
| ImportSpec.CollapseFixes | src/commands/importSpec.ts:67 | a text already in slug form is its own slug |
| ImportSpec.FileName | src/commands/importSpec.ts:67 | the slug of the lower-cased title plus `.html`, as `FileNameIsSlug` states |
| ImportSpec.FileNameIsSlug | src/commands/importSpec.ts:67 | the file name is a slug plus `.html`: `[a-z0-9-]` only, never `--`, all lower-cased letters and digits of the title in order, and slugging again changes nothing |
| ImportSpec.FindMarkers | src/commands/importSpec.ts:57-58 | the greedy match spans from the first start marker to the last end marker after it; there is no match when no end marker follows a start marker |
| ImportSpec.SpliceControls | src/commands/importSpec.ts:57-60 | the verbatim controls splice: `SpliceWithoutMarkers`, `SpliceShape`, `MarkersAfterSplice` and `SpliceControlsAgain` state it |
| ImportSpec.SpliceWithoutMarkers | src/commands/importSpec.ts:57-60 | without a start marker followed by an end marker, the document is unchanged (both as written and verbatim) |
| ImportSpec.SpliceShape | src/commands/importSpec.ts:57-60 | the document is kept up to the first start marker and after the last end marker; in between come both markers around the new controls |
| ImportSpec.MarkersAfterSplice | src/commands/importSpec.ts:57-60 | after the splice, the markers are found exactly around the controls just put in |
| ImportSpec.SpliceAgain | src/commands/importSpec.ts:57-60 | splicing twice is splicing once with the second controls, whatever the first controls contain |
| ImportSpec.SpliceControlsAgain | src/commands/importSpec.ts:57-60 | re-importing into an already spliced document replaces exactly the controls spliced in before |
| ImportSpec.SpliceAsWrittenWithoutDollar | src/commands/importSpec.ts:57-60 | with no `$` in the markers or controls, the regular-expression `replace` is the verbatim splice |
| ImportSpec.ControlsWithoutDollarVerbatim | src/commands/importSpec.ts:57-60 | controls without `$` reach the document as they are |
| ImportSpec.SpliceAsWrittenExpandsMatch | src/commands/importSpec.ts:57-60 | a `$&` in the controls is replaced by the whole old section: the result is longer than the verbatim splice by the section's length less 2 |
| ImportSpec.ControlsDollarPatternExpands | src/commands/importSpec.ts:57-60 | with the real markers, controls containing `$&` come out longer than the verbatim splice |
| ImportSpec.ImportSpecCommand | src/commands/importSpec.ts:27-86 | an invalid spec is rejected with its error and nothing is written. A valid one is written, exactly unless the save dialog is dismissed: the spliced base document, named by the title's slug in the workspace folder or at the picked path, with the control count in the message. With no `$` in the rendered controls, the document is also the source's regular-expression `replace` of them. Number fields are rendered through a `numberText` parameter |
| GalleryTemplates.Lookup | src/views/LabViewProvider.ts:245-246 | the lookup finds a template exactly when the key is in the table, and then the table's entry |
| GalleryTemplates.TableKeys | src/templates/galleryTemplates.ts:15-100 | the table holds exactly `visualizer`, `game` and `dashboard`; `Object.values` lists them in that order, each once |
| GalleryTemplates.IdsMatchKeys | src/templates/galleryTemplates.ts:16-83 | every entry's id is its own key, so looking an entry up by its id finds it again |
| GalleryTemplates.OnlyVisualizerHasScripts | src/templates/galleryTemplates.ts:20 | only the visualizer declares scripts, exactly the Chart.js bundle |
| GalleryTemplates.OutputCanvasOnly | src/templates/galleryTemplates.ts:21-89 | every entry's `injectHtml` has the single key `#outputCanvas`, and every entry defines `injectJs` |
| GalleryTemplates.ScriptsTruthy | src/templates/galleryTemplates.ts:25-98 | each entry's script is non-empty, so its `injectJs` is truthy |
| LabView.MarkersDollarFree | src/views/LabViewProvider.ts:269-277 | the output and script markers contain no `$` |
| LabView.Tags | src/views/LabViewProvider.ts:261 | one `<script src>` tag per URL, in order |
| LabView.ScriptTagsSnoc | src/views/LabViewProvider.ts:261 | one URL gives its tag; one more URL adds its tag last, after a newline and two spaces |
| LabView.ScriptTagsDollarFree | src/views/LabViewProvider.ts:261-262 | the tags of URLs without `$` contain no `$` |
| LabView.InjectScripts | src/views/LabViewProvider.ts:260-263 | the script-tag step, as `ScriptsBeforeHead` states it |
| LabView.ScriptsBeforeHead | src/views/LabViewProvider.ts:260-263 | no scripts, or no `</head>`, leave the document as it is; otherwise the indented tags and a newline go right before the first `</head>` |
| LabView.OutputContent | src/views/LabViewProvider.ts:266-268 | the markup under `#outputCanvas`, absent exactly when no entry has that key |
| LabView.OnlyOutputCanvasCounts | src/views/LabViewProvider.ts:266-273 | only the `#outputCanvas` entry has any effect: the loop is one output step with its markup, or nothing |
| LabView.OutputStepInserts | src/views/LabViewProvider.ts:269-270 | markup without `$` goes verbatim on the line after the first output marker, which is kept; then the first placeholder paragraph, if any, is removed |
| LabView.InjectJs | src/views/LabViewProvider.ts:276-278 | the script step, as `ScriptAfterMarker` states it |
| LabView.ScriptAfterMarker | src/views/LabViewProvider.ts:276-278 | a script without `$` goes verbatim on the line after the first script marker; without the marker nothing changes |
| LabView.BaseOptions | src/views/LabViewProvider.ts:250-255 | the base document takes the template's name as its title, with every section and the dark theme |
| LabView.TemplateDocument | src/views/LabViewProvider.ts:257-278 | the composed document, as `TableDocument` states it for every table entry |
| LabView.ComposeDocument | src/views/LabViewProvider.ts:257-278 | the statements building `html` produce the base document with the scripts, then the HTML entries in order, then the script injected |
| LabView.TableDocument | src/views/LabViewProvider.ts:257-278 | for every table entry, the document is the base with its script tags, one output step with its markup, and its script; only the visualizer adds tags |
| LabView.ChartJsUrlDollarFree | src/templates/galleryTemplates.ts:20 | the Chart.js URL contains no `$`, so its tag is inserted verbatim |
| LabView.TemplateFileName | src/views/LabViewProvider.ts:282 | the output file name starts with `lab-` and ends with `.html` |
| LabView.TemplateFileNameInverse | src/views/LabViewProvider.ts:282 | the file name gives back the template id, so distinct ids never share a file |
| LabView.StripTrailingSlashes | src/views/LabViewProvider.ts:67 | the longest prefix not ending in `/`, with only `/` removed after it |
| LabView.Basename | src/views/LabViewProvider.ts:67 | the base name has no `/`, ends the path without its trailing separators, and is preceded by `/` unless it is the whole path |
| LabView.BasenameOfName | src/views/LabViewProvider.ts:67 | a name without `/` is its own base name |
| LabView.FoundFiles | src/views/LabViewProvider.ts:65 | at most ten of the matching files, taken from the front; all of them when there are at most ten |
| LabView.RecentFiles | src/views/LabViewProvider.ts:61-70 | at most ten entries, one per file found; each entry's path is the file's path and its name the path's base name |
| LabView.CardHasCall | src/views/LabViewProvider.ts:77 | a card holds the `createFromTemplate` call with its template's id |
| LabView.Cards | src/views/LabViewProvider.ts:76-80 | one card per template, in order |
| LabView.GalleryHasEveryCard | src/views/LabViewProvider.ts:76-80 | each template's card is in the gallery |
| LabView.GalleryCallsEveryTemplate | src/views/LabViewProvider.ts:76-80 | each template's click handler is in the gallery |
| LabView.GalleryCardsResolve | src/views/LabViewProvider.ts:76-80 | every card calls `createFromTemplate` with the id of a table entry, and that id looks the same entry up again |
| LabView.AbsentIdNamesNoTemplate | src/views/LabViewProvider.ts:245-246 | a message without `templateId` reads the key `undefined`, which names no template |
| LabView.OpenEffects | src/views/LabViewProvider.ts:35-43 | opening a path either opens the document or shows one error carrying the failure's message |
| LabView.RecentEffects | src/views/LabViewProvider.ts:55-59 | the recent files are posted exactly when the view is resolved |
| LabView.SavePath | src/views/LabViewProvider.ts:281-287 | the file goes to `lab-<id>.html` in the workspace folder, or to the picked path, or nowhere when the dialog is dismissed |
| LabView.CreationEffectsShape | src/views/LabViewProvider.ts:244-294 | an unknown key does nothing. A known key announces the template first; a file is written exactly when there is a place to save it, then opened, announced and followed by the recent-files refresh. In the workspace folder it is always `lab-<key>.html` |
| LabView.LabViewProvider.constructor | src/views/LabViewProvider.ts:10 | a new provider reads `TEMPLATES`, has no view and has made no calls |
| LabView.LabViewProvider.ResolveWebviewView | src/views/LabViewProvider.ts:12-53 | the view is kept, shows the gallery of the table's templates in insertion order, and the recent files are posted once |
| LabView.LabViewProvider.UpdateRecentFiles | src/views/LabViewProvider.ts:55-59 | the recent files are posted only once the view is resolved |
| LabView.LabViewProvider.CreateFromTemplate | src/views/LabViewProvider.ts:244-294 | the calls made are exactly those `CreationEffectsShape` describes, for the provider's table |
| LabView.LabViewProvider.CreateFrom | src/views/LabViewProvider.ts:248-293 | announce, then write the composed document, open it, announce success and refresh the recent files, when there is a place to save |
| LabView.LabViewProvider.OnDidReceiveMessage | src/views/LabViewProvider.ts:26-49 | `newApp` and `importSpec` run their commands. `openFile` opens a truthy path only. `createFromTemplate` creates from the message's id. Any other type does nothing |
| Strings.IndexOf | src/preview/PreviewPanel.ts:328-331 | `indexOf`: found exactly when the text occurs, at its first occurrence |
| Strings.LastIndexOf | src/commands/importSpec.ts:58 | `lastIndexOf`: found exactly when the text occurs, at its last occurrence |
| Strings.IndexFrom | out/commands/publishReady.js:84 | the first occurrence at or after a position, none when there is none |
| Strings.Replace | out/commands/publishReady.js:106 | `replace` with a string pattern: `ReplaceIsLiteralWithoutDollar` and `SubstituteTwoMatches` state it with and without `$` in the replacement |
| Strings.Substitute | src/commands/importSpec.ts:59 | the `$`-pattern expansion: `SubstituteWithoutDollar` and `SubstituteMatchPattern` state it |
| Strings.ReplaceLiteralSplice | out/commands/publishReady.js:106 | the verbatim splice replaces the first occurrence and changes the length by the difference of the two texts |
| Strings.ReplaceIsLiteralWithoutDollar | out/commands/publishReady.js:106-109 | `replace` with a replacement text free of `$` is the verbatim splice |
| Strings.SubstituteWithoutDollar | out/commands/publishReady.js:109 | a replacement text without `$` is inserted as it is |
| Strings.SubstituteMatchPattern | src/commands/importSpec.ts:59 | a `$&` in a replacement text stands for the matched text |
| Strings.SubstituteTwoMatches | out/commands/publishReady.js:94-106 | two `$&` between `$`-free texts each stand for the match |
| Strings.JoinSnoc | src/views/LabViewProvider.ts:261 | joining one more part adds it after one separator |
| Strings.JoinHasPart | src/views/LabViewProvider.ts:80 | each part occurs in the joined text |
| Strings.ReplaceAllChar | src/templates/specGenerator.ts:107-110 | a global one-character replacement removes that character unless the replacement has it, and changes nothing when it is absent |
| Strings.ToLower | src/commands/importSpec.ts:67 | lower-casing keeps the length and maps each character on its own |
| Strings.Trim | src/commands/importSpec.ts:35 | `trim`, as `TrimIsInnerSlice` states it |
| Strings.TrimIsInnerSlice | src/commands/importSpec.ts:35 | `trim` gives a slice of the input, with only white space cut from either end and none left at either end |
| Strings.NatToString | src/commands/importSpec.ts:84 | the decimal rendering of a count is non-empty and all digits |
| Strings.NatToStringValue | src/commands/importSpec.ts:84 | the rendering read back as decimal digits is the count, and it starts with `0` only for zero |

## Left out

- The VS Code API is abstracted, as described above. Webview and panel creation, editor edits and saving, `findFiles`' glob and exclude patterns, and command registration are not modelled. `src/extension.ts` and `src/commands/newApp.ts` are prompt and registration glue.
- `src/templates/baseApp.ts` is not part of this model. The base document is modelled from `out/templates/baseApp.js`. The import and gallery commands take the base-document generator as a parameter, since the markers they splice at are not in that compiled file.
- Async ordering: `_update` has no request numbering and no check after disposal, and the model claims neither.
- The inspector page's HTML, its timestamps, the entry rendering through the DOM, and the base64/`atob` transfer of the document to the iframe are not modelled. An entry is its level and its joined message; arguments arrive as strings.
- The console-capture script and the scripts inside the generated documents (presets, export, Chart.js and canvas loops, service worker) are fixed text, not behaviour.
- The sidebar page's HTML other than the gallery cards is not modelled. Neither are its own scripts, nor the unused configuration read in `_getRecentFiles`.
- `JSON.parse` and `JSON.stringify` are parameters. JSON numbers are reals. `String(n)` is written out for integers of magnitude at most 2^53, whose decimal digits are exact; for any other number (a fraction, or an integer beyond 2^53, which JavaScript prints rounded and padded with zeros) the text comes from a `numberText` parameter, since JavaScript's number-to-string conversion is not modelled.
- SpecGenerator.AsLabSpec: a validated spec has no typed view when a control field's JSON type differs from the declared one. For example: a non-string `id`, `type`, `label` or `placeholder`; a string or boolean `min`, `max` or `step`; an array or object `default`; a truthy `options` that is not an array of options with string labels and values, even on a control that is not a select.
- ImportSpec.ImportSpecCommand: requires that a spec which validates has that typed view, so such specs are outside its contract. It also splices the controls verbatim, while the source's regular-expression `replace` expands `$`-patterns in them; the two agree when the rendered controls hold no `$`, which its contract states.
- PublishReady.InsertHead: splices the injections verbatim, while the source's `replace` expands `$`-patterns in them; `HeadStepAsWrittenWithoutDollar` proves the two agree when the injections hold no `$`.
- PublishReady.PublishReadyCommand: uses the verbatim transform, so a `$` in the document's title is inserted as it is rather than expanded; its contract states agreement with the as-written transform when the title and texts hold no `$` (see `TransformWithoutDollar` and `FixedTransformWithoutDollar`).
- ConsoleCapture.InjectAfterHead: inserts the script verbatim, while the source splices it with `replace`; the console-capture script holds no `$`, so the two agree, but that is not proved.
- Strings.ToLower: lower-cases the ASCII letters only; the slug keeps only `[a-z0-9]`, but a non-ASCII capital whose lower case is ASCII (such as the Kelvin sign) is not mapped.
- LabView.Basename: handles `/` only, not the Windows separator `\`.
- GalleryTemplates.Lookup: a key such as `constructor` or `__proto__` would find an inherited property of the object literal in JavaScript; the model finds only the three own keys.
- LabView.FoundFiles: which ten files the workspace search returns, and in what order, is the search's business; the model takes the first ten of its input.
- LabView.TableDocument: the template texts of `TEMPLATES` are not proved free of `$`, so for the visualizer's markup and the three scripts the composition is stated with `replace` as written. Verbatim insertion is proved for the Chart.js URL and for any markup or script without `$`.
- Preview.PreviewPanel.Dispose: records the panel's own disposal as a flag, since `_panel.dispose()` is part of the VS Code API; the `onDidDispose` listener that calls back into `dispose` is one of the recorded subscriptions.

## Findings

| source | as written | input that shows it | evidently intended | confidence | as-written member | corrected member |
|---|---|---|---|---|---|---|
| out/commands/publishReady.js:106 | the head injections, which contain the document's title, are the replacement text of `content.replace('</head>', …)`, so `$&`, `` $` ``, `$'` and `$$` in the title are expanded | a document `<title>$&</title></head>` with only SEO picked: each of the two title copies in the injections becomes `</head>`, ten characters more than the verbatim insertion | the title inserted as it is (a replacement function or escaped `$`) | not executed | PublishReady.TitlePatternExpandsAsWritten | PublishReady.TitleInsertedVerbatim |
| src/commands/importSpec.ts:57-60 | the rendered controls are the replacement text of a regular-expression `replace`, so `$&` in them is expanded. A label `$&` escapes to `$&amp;` and still contains it | a base document with both markers and controls containing `$&`: the whole old controls section is copied into the new one | the controls inserted as they are | not executed | ImportSpec.ControlsDollarPatternExpands | ImportSpec.SpliceControlsAgain |

The corrected definitions are what the commands use. `PublishReady.PublishReadyCommand` and `PublishReady.Transform` splice the head injections verbatim. `ImportSpec.ImportSpecCommand` uses the verbatim `ImportSpec.SpliceControls`. The as-written behaviour stays beside them as `PublishReady.TransformAsWritten` and `ImportSpec.SpliceControlsAsWritten`. When the inserted text has no `$`, the two agree: see `PublishReady.HeadStepAsWrittenWithoutDollar` and `ImportSpec.ControlsWithoutDollarVerbatim`.
