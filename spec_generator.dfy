/**
 * The lab-spec generator: `validateSpec` checks a parsed JSON lab spec in a
 * fixed order (title, controls array, then each control's required fields)
 * and reports the first failure; `generateControlsHTML` renders one HTML
 * fragment per control and joins them with newlines.
 *
 * `JSON.parse` is an input (`ParseOutcome`); the typed view of a validated
 * spec (`AsLabSpec`) covers the fields whose JSON types match the declared
 * ones. `String(n)` of a number is exact for integers of magnitude at
 * most 2^53; the text of any other number is a parameter (`numberText`).
 */
module SpecGenerator {
  import opened Wrappers
  import opened Strings
  import opened Json
  import opened HtmlEscape

  // ---------------------------------------------------------------------
  // validateSpec
  // ---------------------------------------------------------------------

  /** The outcome of `JSON.parse(json)`: a value, or the thrown `SyntaxError`'s message. */
  datatype ParseOutcome = Parsed(value: Json) | ParseFailed(message: string)

  /** Why a spec is rejected. */
  datatype SpecError =
    | TitleInvalid
    | ControlsInvalid
      /** The first control lacking a truthy `id`, `type` or `label`. */
    | ControlIncomplete(control: Json)
      /** An exception caught by the `try`: its `message`. */
    | Caught(message: string)

  /** `{ valid, spec?, error? }`. */
  datatype Validation = Valid(spec: Json) | Invalid(error: SpecError)

  const ParseErrorPrefix: string := "JSON parse error: "
  const TitleError: string := "Missing or invalid \"title\" field."
  const ControlsError: string := "Missing or invalid \"controls\" array."
  const ControlErrorPrefix: string := "Control missing required fields " + "(id, type, label): "

  /** The `TypeError` message of V8 for reading `key` from `null`. */
  function NullReadMessage(key: string): string {
    "Cannot read properties of null (reading '" + key + "')"
  }

  /** `spec.title` is a non-empty string. */
  predicate TitleOk(spec: Json)
    requires !spec.JNull?
  {
    var t := Get(spec, "title");
    t.Some? && t.value.JStr? && |t.value.s| > 0
  }

  /** `Array.isArray(spec.controls)`. */
  predicate ControlsArray(spec: Json)
    requires !spec.JNull?
  {
    var c := Get(spec, "controls");
    c.Some? && c.value.JArr?
  }

  /** The check of one element of `spec.controls`: `None` when it passes. */
  function ControlCheck(ctrl: Json): Option<SpecError> {
    if ctrl.JNull? then Some(Caught(NullReadMessage("id")))
    else if !Present(Get(ctrl, "id")) || !Present(Get(ctrl, "type")) || !Present(Get(ctrl, "label"))
    then Some(ControlIncomplete(ctrl))
    else None
  }

  /** The `for ... of` scan with early return: the failure of the first control that fails. */
  function FirstControlError(items: seq<Json>): (r: Option<SpecError>)
    ensures r.None? <==> forall i :: 0 <= i < |items| ==> ControlCheck(items[i]).None?
    ensures r.Some? ==> exists i :: 0 <= i < |items| && r == ControlCheck(items[i])
                          && forall j :: 0 <= j < i ==> ControlCheck(items[j]).None?
  {
    if |items| == 0 then None
    else if ControlCheck(items[0]).Some? then ControlCheck(items[0])
    else
      var rest := FirstControlError(items[1..]);
      assert forall i :: 1 <= i < |items| ==> items[i] == items[1..][i - 1];
      rest
  }

  /** Everything `validateSpec` demands of a parsed value. */
  predicate WellFormedSpec(spec: Json) {
    && !spec.JNull?
    && TitleOk(spec)
    && ControlsArray(spec)
    && forall i :: 0 <= i < |Get(spec, "controls").value.items| ==>
         ControlCheck(Get(spec, "controls").value.items[i]).None?
  }

  /** `validateSpec(json)`, given what `JSON.parse(json)` produced. */
  function ValidateSpec(parsed: ParseOutcome): (r: Validation)
    ensures r.Valid? <==> parsed.Parsed? && WellFormedSpec(parsed.value)
    ensures r.Valid? ==> r.spec == parsed.value
    ensures parsed.ParseFailed? ==> r == Invalid(Caught(parsed.message))
    ensures parsed == Parsed(JNull) ==> r == Invalid(Caught(NullReadMessage("title")))
    // the title check comes first ...
    ensures parsed.Parsed? && !parsed.value.JNull? && !TitleOk(parsed.value) ==> r == Invalid(TitleInvalid)
    // ... then the controls array ...
    ensures parsed.Parsed? && !parsed.value.JNull? && TitleOk(parsed.value) && !ControlsArray(parsed.value)
      ==> r == Invalid(ControlsInvalid)
    // ... then the controls, the first failing one deciding the error
    ensures r.Invalid? && r.error.ControlIncomplete? ==>
      parsed.Parsed? && !parsed.value.JNull? && TitleOk(parsed.value) && ControlsArray(parsed.value)
    ensures parsed.Parsed? && !parsed.value.JNull? && TitleOk(parsed.value) && ControlsArray(parsed.value) && r.Invalid? ==>
      var items := Get(parsed.value, "controls").value.items;
      exists i :: 0 <= i < |items| && Some(r.error) == ControlCheck(items[i])
                  && forall j :: 0 <= j < i ==> ControlCheck(items[j]).None?
  {
    match parsed
    case ParseFailed(message) => Invalid(Caught(message))
    case Parsed(spec) =>
      if spec.JNull? then Invalid(Caught(NullReadMessage("title")))
      else if !TitleOk(spec) then Invalid(TitleInvalid)
      else if !ControlsArray(spec) then Invalid(ControlsInvalid)
      else match FirstControlError(Get(spec, "controls").value.items)
        case Some(e) => Invalid(e)
        case None => Valid(spec)
  }

  /**
   * The `error` text of an invalid result; `JSON.stringify` of the offending
   * control is a parameter. Exactly the caught exceptions carry the
   * `JSON parse error: ` prefix.
   */
  function ErrorText(e: SpecError, stringify: Json -> string): (r: string)
    ensures (|r| >= |ParseErrorPrefix| && r[..|ParseErrorPrefix|] == ParseErrorPrefix) <==> e.Caught?
  {
    match e
    case TitleInvalid => assert TitleError[0] != ParseErrorPrefix[0]; TitleError
    case ControlsInvalid => assert ControlsError[0] != ParseErrorPrefix[0]; ControlsError
    case ControlIncomplete(c) =>
      var r := ControlErrorPrefix + stringify(c);
      assert ControlErrorPrefix[0] == 'C' && ParseErrorPrefix[0] == 'J';
      assert r[0] == ControlErrorPrefix[0];
      r
    case Caught(message) => ParseErrorPrefix + message
  }

  // ---------------------------------------------------------------------
  // The typed spec (`LabSpec`, `LabSpecControl`)
  // ---------------------------------------------------------------------

  /** A JSON number together with the text `String(n)` gives for it. */
  datatype Number = Number(value: real, text: string)

  /** A `default` value of a control. */
  datatype Scalar = SStr(s: string) | SNum(n: Number) | SBool(b: bool) | SNull

  /** An entry of a select control's `options`. */
  datatype SelectOption = SelectOption(caption: string, value: string)

  /**
   * A `LabSpecControl`: `None` is an absent field. `min`, `max`, `step` and
   * `placeholder` are only read through `??`, so an explicit `null` is `None`
   * too; `options` is only read through `|| []`, so a missing list is `[]`.
   */
  datatype Control = Control(
    id: string,
    kind: string,
    caption: string,
    default: Option<Scalar>,
    min: Option<Number>,
    max: Option<Number>,
    step: Option<Number>,
    options: seq<SelectOption>,
    placeholder: Option<string>)

  /** A `LabSpec`; each flag is the truthiness of the field when present and not `null`. */
  datatype LabSpec = LabSpec(
    title: string,
    controls: seq<Control>,
    darkTheme: Option<bool>,
    includePresetManager: Option<bool>,
    includeExportButtons: Option<bool>)

  predicate IsInteger(n: real) {
    n == n.Floor as real
  }

  /**
   * 2^53: every integer up to this magnitude is a double whose shortest
   * round-trip digits are its exact decimal. Beyond it, `String(n)` prints
   * rounded digits padded with zeros (`String(2 ** 60)` is
   * `"1152921504606847000"`).
   */
  const ExactIntegerBound: real := 9007199254740992.0

  /**
   * The number `n` with its `String(n)` text: the decimal digits for an
   * integer of magnitude at most 2^53, `numberText(n)` for any other number.
   */
  function NumberOf(n: real, numberText: real -> string): Number {
    Number(n, if IsInteger(n) && -ExactIntegerBound <= n <= ExactIntegerBound then IntToString(n.Floor) else numberText(n))
  }

  /**
   * An integer up to 2^53 in magnitude is rendered by its own digits; a larger
   * one, such as 2^60, takes its text from `numberText`.
   */
  lemma NumberTextBeyondExact(numberText: real -> string, k: int)
    requires -9007199254740992 <= k <= 9007199254740992
    ensures NumberOf(k as real, numberText).text == IntToString(k)
    ensures NumberOf(1152921504606846976.0, numberText).text == numberText(1152921504606846976.0)
  {
    assert (k as real).Floor == k;
  }

  /** A number literal of the source, such as the `50` of `ctrl.default ?? 50`. */
  function Lit(n: nat): Number {
    Number(n as real, NatToString(n))
  }

  /** A field read through `??`: absent and `null` are both `None`. */
  function NonNull(p: Option<Json>): Option<Json> {
    if p.Some? && p.value.JNull? then None else p
  }

  function AsScalar(v: Json, numberText: real -> string): Option<Scalar> {
    match v
    case JNull => Some(SNull)
    case JBool(b) => Some(SBool(b))
    case JNum(n) => Some(SNum(NumberOf(n, numberText)))
    case JStr(s) => Some(SStr(s))
    case _ => None
  }

  /** An optional numeric field; `Some(None)` when absent or `null`, `None` when not a number. */
  function AsOptNumber(p: Option<Json>, numberText: real -> string): Option<Option<Number>> {
    match NonNull(p)
    case None => Some(None)
    case Some(JNum(n)) => Some(Some(NumberOf(n, numberText)))
    case Some(_) => None
  }

  function AsOptString(p: Option<Json>): Option<Option<string>> {
    match NonNull(p)
    case None => Some(None)
    case Some(JStr(s)) => Some(Some(s))
    case Some(_) => None
  }

  function AsString(p: Option<Json>): Option<string> {
    if p.Some? && p.value.JStr? then Some(p.value.s) else None
  }

  function AsOption(v: Json): Option<SelectOption> {
    if v.JNull? then None
    else match (AsString(Get(v, "label")), AsString(Get(v, "value")))
      case (Some(l), Some(x)) => Some(SelectOption(l, x))
      case _ => None
  }

  function AsOptions(items: seq<Json>): (r: Option<seq<SelectOption>>)
    ensures r.Some? ==> |r.value| == |items|
  {
    if |items| == 0 then Some([])
    else match (AsOption(items[0]), AsOptions(items[1..]))
      case (Some(o), Some(os)) => Some([o] + os)
      case _ => None
  }

  /** `ctrl.options || []`. */
  function AsOptionList(p: Option<Json>): Option<seq<SelectOption>> {
    if !Present(p) then Some([])
    else if p.value.JArr? then AsOptions(p.value.items)
    else None
  }

  function AsControl(v: Json, numberText: real -> string): Option<Control> {
    if v.JNull? then None
    else
      var id := AsString(Get(v, "id"));
      var kind := AsString(Get(v, "type"));
      var caption := AsString(Get(v, "label"));
      var default := if Get(v, "default").Some? then AsScalar(Get(v, "default").value, numberText).GetOr(SStr("")) else SStr("");
      var defaultOk := Get(v, "default").None? || AsScalar(Get(v, "default").value, numberText).Some?;
      var min := AsOptNumber(Get(v, "min"), numberText);
      var max := AsOptNumber(Get(v, "max"), numberText);
      var step := AsOptNumber(Get(v, "step"), numberText);
      var options := AsOptionList(Get(v, "options"));
      var placeholder := AsOptString(Get(v, "placeholder"));
      if id.Some? && kind.Some? && caption.Some? && defaultOk && min.Some? && max.Some? && step.Some?
         && options.Some? && placeholder.Some?
      then Some(Control(id.value, kind.value, caption.value,
                        if Get(v, "default").Some? then Some(default) else None,
                        min.value, max.value, step.value, options.value, placeholder.value))
      else None
  }

  function AsControls(items: seq<Json>, numberText: real -> string): (r: Option<seq<Control>>)
    ensures r.Some? ==> |r.value| == |items| && forall i :: 0 <= i < |items| ==> AsControl(items[i], numberText) == Some(r.value[i])
  {
    if |items| == 0 then Some([])
    else match (AsControl(items[0], numberText), AsControls(items[1..], numberText))
      case (Some(c), Some(cs)) =>
        assert forall i :: 1 <= i < |items| ==> items[i] == items[1..][i - 1];
        Some([c] + cs)
      case _ => None
  }

  function AsFlag(p: Option<Json>): Option<bool> {
    match NonNull(p)
    case None => None
    case Some(v) => Some(Truthy(v))
  }

  /**
   * The `as LabSpec` view of a parsed value: `None` when the title is not a
   * string, `controls` is not an array, or a control field has another JSON
   * type than the one `LabSpecControl` declares.
   */
  function AsLabSpec(spec: Json, numberText: real -> string): Option<LabSpec> {
    if spec.JNull? then None
    else match (AsString(Get(spec, "title")), Get(spec, "controls"))
      case (Some(t), Some(JArr(items))) =>
        (match AsControls(items, numberText)
         case Some(cs) =>
           Some(LabSpec(t, cs, AsFlag(Get(spec, "darkTheme")), AsFlag(Get(spec, "includePresetManager")),
                        AsFlag(Get(spec, "includeExportButtons"))))
         case None => None)
      case _ => None
  }

  /**
   * A validated spec read through its declared types keeps its title and
   * one control per array element, and none of the required strings is
   * empty.
   */
  lemma ValidatedSpecFields(parsed: ParseOutcome, numberText: real -> string, spec: LabSpec)
    requires ValidateSpec(parsed).Valid? && AsLabSpec(parsed.value, numberText) == Some(spec)
    ensures |spec.title| > 0 && Get(parsed.value, "title") == Some(JStr(spec.title))
    ensures |spec.controls| == |Get(parsed.value, "controls").value.items|
    ensures forall c :: c in spec.controls ==> |c.id| > 0 && |c.kind| > 0 && |c.caption| > 0
  {
    var items := Get(parsed.value, "controls").value.items;
    forall c | c in spec.controls
      ensures |c.id| > 0 && |c.kind| > 0 && |c.caption| > 0
    {
      var i :| 0 <= i < |spec.controls| && spec.controls[i] == c;
      assert AsControl(items[i], numberText) == Some(c);
      assert ControlCheck(items[i]).None?;
    }
  }

  // ---------------------------------------------------------------------
  // generateControlsHTML
  // ---------------------------------------------------------------------

  /** JavaScript truthiness of a `default`, `undefined` being `None`. */
  predicate ScalarTruthy(d: Option<Scalar>) {
    match d
    case None => false
    case Some(SStr(s)) => |s| > 0
    case Some(SNum(n)) => n.value != 0.0
    case Some(SBool(b)) => b
    case Some(SNull) => false
  }

  /** `String(x)` of a present value. */
  function Render(x: Scalar): string {
    match x
    case SStr(s) => s
    case SNum(n) => n.text
    case SBool(b) => if b then "true" else "false"
    case SNull => "null"
  }

  /** `String(ctrl.default)`, which is `"undefined"` for an absent default. */
  function DefaultString(d: Option<Scalar>): string {
    match d
    case None => "undefined"
    case Some(x) => Render(x)
  }

  /** `ctrl.default ?? fallback`. */
  function DefaultOr(d: Option<Scalar>, fallback: Scalar): Scalar {
    match d
    case None => fallback
    case Some(SNull) => fallback
    case Some(x) => x
  }

  /** `${n ?? ''}`. */
  function NumberOrEmpty(n: Option<Number>): string {
    match n
    case None => ""
    case Some(v) => v.text
  }

  const Indent8: string := "        "
  const GroupOpen: string := "        <div class=\"control-group\">\n"
  const GroupClose: string := "\n        </div>"
  const OptionSeparator: string := "\n            "

  /** The control types with a fragment of their own. */
  const KnownTypes: set<string> := {"text", "number", "range", "select", "checkbox", "color", "textarea"}

  /** A `control-group` div around `inner`. */
  function Group(inner: string): (r: string)
    ensures StartsWith(r, GroupOpen) && EndsWith(r, GroupClose) && StartsWith(r, Indent8)
  {
    assert GroupOpen[..|Indent8|] == Indent8;
    GroupOpen + inner + GroupClose
  }

  /** `<label for="id">label</label>` on its own line, the label escaped. */
  function LabelLine(c: Control): string {
    "          <label for=\"" + c.id + "\">" + Escape(c.caption) + "</label>\n"
  }

  function TextInner(c: Control): string {
    LabelLine(c)
    + "          <input type=\"text\" id=\"" + c.id + "\" value=\"" + Escape(Render(DefaultOr(c.default, SStr(""))))
    + "\" placeholder=\"" + Escape(c.placeholder.GetOr("")) + "\" />"
  }

  function NumberInner(c: Control): string {
    LabelLine(c)
    + "          <input type=\"number\" id=\"" + c.id + "\" value=\"" + Render(DefaultOr(c.default, SNum(Lit(0))))
    + "\" min=\"" + NumberOrEmpty(c.min) + "\" max=\"" + NumberOrEmpty(c.max)
    + "\" step=\"" + c.step.GetOr(Lit(1)).text + "\" />"
  }

  function RangeInner(c: Control): string {
    LabelLine(c)
    + "          <input type=\"range\" id=\"" + c.id + "\" value=\"" + Render(DefaultOr(c.default, SNum(Lit(50))))
    + "\" min=\"" + c.min.GetOr(Lit(0)).text + "\" max=\"" + c.max.GetOr(Lit(100)).text
    + "\" step=\"" + c.step.GetOr(Lit(1)).text + "\" />\n"
    + "          <span class=\"range-value\" id=\"" + c.id + "Value\">" + Render(DefaultOr(c.default, SNum(Lit(50))))
    + "</span>"
  }

  /** The part of an option tag before its optional ` selected`. */
  function OptionHead(o: SelectOption): string {
    "<option value=\"" + Escape(o.value) + "\""
  }

  /** ` selected` when the option's value is `String(default)`. */
  function SelectedMark(o: SelectOption, d: Option<Scalar>): string {
    if o.value == DefaultString(d) then " selected" else ""
  }

  /** The rest of an option tag, from its closing `>`. */
  function OptionTail(o: SelectOption): string {
    ">" + Escape(o.caption) + "</option>"
  }

  /** One `<option>` of a select whose default is `d`. */
  function OptionTag(o: SelectOption, d: Option<Scalar>): string {
    OptionHead(o) + SelectedMark(o, d) + OptionTail(o)
  }

  function OptionTags(os: seq<SelectOption>, d: Option<Scalar>): (r: seq<string>)
    ensures |r| == |os| && forall i :: 0 <= i < |os| ==> r[i] == OptionTag(os[i], d)
  {
    if |os| == 0 then [] else [OptionTag(os[0], d)] + OptionTags(os[1..], d)
  }

  function SelectInner(c: Control): string {
    LabelLine(c)
    + "          <select id=\"" + c.id + "\">\n            " + Join(OptionTags(c.options, c.default), OptionSeparator)
    + "\n          </select>"
  }

  /** The checkbox's inner text up to the place of its optional `checked`. */
  function CheckboxHead(c: Control): string {
    "          <label>\n            <input type=\"checkbox\" id=\"" + c.id + "\" "
  }

  /** `checked` when the default is truthy. */
  function CheckedMark(c: Control): string {
    if ScalarTruthy(c.default) then "checked" else ""
  }

  /** The rest of the checkbox's inner text, from the space before ` />`. */
  function CheckboxTail(c: Control): string {
    " />\n            " + Escape(c.caption) + "\n          </label>"
  }

  function CheckboxInner(c: Control): string {
    CheckboxHead(c) + CheckedMark(c) + CheckboxTail(c)
  }

  function ColorInner(c: Control): string {
    LabelLine(c)
    + "          <input type=\"color\" id=\"" + c.id + "\" value=\"" + Render(DefaultOr(c.default, SStr("#58a6ff")))
    + "\" />"
  }

  function TextareaInner(c: Control): string {
    LabelLine(c)
    + "          <textarea id=\"" + c.id + "\" rows=\"4\" placeholder=\"" + Escape(c.placeholder.GetOr(""))
    + "\">" + Escape(Render(DefaultOr(c.default, SStr("")))) + "</textarea>"
  }

  /** The comment that stands for a control of an unrecognised type, naming the type. */
  function UnknownComment(kind: string): (r: string)
    ensures StartsWith(r, Indent8) && EndsWith(r, " -->")
    ensures OccursAt(r, kind, |Indent8| + |"<!-- Unknown control type: "|)
  {
    var head := Indent8 + "<!-- Unknown control type: ";
    assert (head + kind + " -->")[..|Indent8|] == Indent8;
    OccursAtSeam(head, kind + " -->", kind);
    assert head + kind + " -->" == head + (kind + " -->");
    head + kind + " -->"
  }

  /** The HTML fragment of one control, by its `type`. */
  function Fragment(c: Control): (r: string)
    ensures c.kind in KnownTypes ==> StartsWith(r, GroupOpen) && EndsWith(r, GroupClose)
    ensures c.kind !in KnownTypes ==> r == UnknownComment(c.kind)
    ensures StartsWith(r, Indent8)
  {
    if c.kind == "text" then Group(TextInner(c))
    else if c.kind == "number" then Group(NumberInner(c))
    else if c.kind == "range" then Group(RangeInner(c))
    else if c.kind == "select" then Group(SelectInner(c))
    else if c.kind == "checkbox" then Group(CheckboxInner(c))
    else if c.kind == "color" then Group(ColorInner(c))
    else if c.kind == "textarea" then Group(TextareaInner(c))
    else UnknownComment(c.kind)
  }

  function Fragments(cs: seq<Control>): (r: seq<string>)
    ensures |r| == |cs| && forall i :: 0 <= i < |cs| ==> r[i] == Fragment(cs[i])
  {
    if |cs| == 0 then [] else [Fragment(cs[0])] + Fragments(cs[1..])
  }

  /** `generateControlsHTML(controls)`. */
  function ControlsHtml(cs: seq<Control>): string {
    Join(Fragments(cs), "\n")
  }

  /** No controls give the empty string; one control gives exactly its fragment. */
  lemma ControlsHtmlSmall(c: Control)
    ensures ControlsHtml([]) == ""
    ensures ControlsHtml([c]) == Fragment(c)
  {
  }

  /**
   * One fragment per control, in input order: the rendering of two lists
   * one after the other is the two renderings with one newline between.
   */
  lemma ControlsHtmlAppend(a: seq<Control>, b: seq<Control>)
    requires |a| > 0 && |b| > 0
    ensures ControlsHtml(a + b) == ControlsHtml(a) + "\n" + ControlsHtml(b)
  {
    FragmentsAppend(a, b);
    JoinAppend(Fragments(a), Fragments(b), "\n");
  }

  lemma {:induction false} FragmentsAppend(a: seq<Control>, b: seq<Control>)
    ensures Fragments(a + b) == Fragments(a) + Fragments(b)
  {
    if |a| > 0 {
      assert (a + b)[1..] == a[1..] + b;
      FragmentsAppend(a[1..], b);
    } else {
      assert a + b == b;
    }
  }

  /** `join` over a concatenation of two non-empty lists. */
  lemma {:induction false} JoinAppend(p: seq<string>, q: seq<string>, sep: string)
    requires |p| > 0 && |q| > 0
    ensures Join(p + q, sep) == Join(p, sep) + sep + Join(q, sep)
  {
    if |p| == 1 {
      assert (p + q)[1..] == q;
    } else {
      assert (p + q)[1..] == p[1..] + q;
      JoinAppend(p[1..], q, sep);
    }
  }

  /**
   * In every option tag, right after `<option value="…"` comes ` selected`
   * exactly when the option's value is `String(default)`.
   */
  lemma OptionSelectedIff(o: SelectOption, d: Option<Scalar>)
    ensures StartsWith(OptionTag(o, d), OptionHead(o))
    ensures OccursAt(OptionTag(o, d), " selected", |OptionHead(o)|) <==> o.value == DefaultString(d)
  {
    assert OptionTail(o)[0] == '>';
    MarkAfterHead(OptionHead(o), SelectedMark(o, d), OptionTail(o), o.value == DefaultString(d));
  }

  /** A mark that is ` selected` or nothing, followed by `>`, is found after the head exactly when present. */
  lemma MarkAfterHead(head: string, mark: string, tail: string, present: bool)
    requires mark == (if present then " selected" else "")
    requires |tail| > 0 && tail[0] == '>'
    ensures StartsWith(head + mark + tail, head)
    ensures OccursAt(head + mark + tail, " selected", |head|) <==> present
  {
    var rest := mark + tail;
    assert head + mark + tail == head + rest;
    assert (head + rest)[..|head|] == head;
    OccursAtSeam(head, rest, " selected");
    if present {
      assert rest[..9] == " selected";
    } else {
      assert rest[0] != " selected"[0];
    }
  }

  lemma CheckboxFragmentSplit(c: Control)
    requires c.kind == "checkbox"
    ensures Fragment(c) == (GroupOpen + CheckboxHead(c)) + (CheckedMark(c) + CheckboxTail(c) + GroupClose)
  {
    assert Fragment(c) == Group(CheckboxInner(c));
    Regroup(GroupOpen, CheckboxHead(c), CheckedMark(c), CheckboxTail(c), GroupClose);
  }

  lemma Regroup(a: string, b: string, m: string, t: string, z: string)
    ensures a + (b + m + t) + z == (a + b) + (m + t + z)
  {
  }

  /**
   * A checkbox carries `checked` right after its `id="…" ` exactly when the
   * default is truthy; otherwise ` />` follows directly.
   */
  lemma CheckboxCheckedIff(c: Control)
    requires c.kind == "checkbox"
    ensures StartsWith(Fragment(c), GroupOpen + CheckboxHead(c))
    ensures OccursAt(Fragment(c), "checked", |GroupOpen + CheckboxHead(c)|) <==> ScalarTruthy(c.default)
  {
    var f := Fragment(c);
    var head := GroupOpen + CheckboxHead(c);
    var rest := CheckedMark(c) + CheckboxTail(c) + GroupClose;
    CheckboxFragmentSplit(c);
    assert f[..|head|] == head;
    OccursAtSeam(head, rest, "checked");
    if ScalarTruthy(c.default) {
      assert rest[..7] == "checked";
    } else {
      assert CheckboxTail(c)[0] == ' ';
      assert rest[0] != "checked"[0];
    }
  }
}
