/** Rendering a saved form as the block list of the message that presents it
    (`select_form_to_run`), and the slug ids its input blocks carry. */
module Render {
  import opened Wrappers
  import opened FormWizard

  /** ASCII lower-casing of one character. */
  function LowerChar(c: char): (r: char) {
    if 'A' <= c <= 'Z' then (c as int + 32) as char else c
  }

  function Lower(s: string): (r: string)
    ensures |r| == |s|
    ensures forall i :: 0 <= i < |s| ==> r[i] == LowerChar(s[i])
  {
    if s == [] then [] else [LowerChar(s[0])] + Lower(s[1..])
  }

  /** Every occurrence of `from` becomes `to` (a global regex replace of one character). */
  function Replace(s: string, from: char, to: char): (r: string)
    ensures |r| == |s|
    ensures forall i :: 0 <= i < |s| ==> r[i] == (if s[i] == from then to else s[i])
  {
    if s == [] then [] else [if s[0] == from then to else s[0]] + Replace(s[1..], from, to)
  }

  /** The id derived from a name: lower-cased, then every space replaced by `_`. */
  function Slug(name: string): (r: string)
    ensures |r| == |name|
    ensures forall i :: 0 <= i < |r| ==> r[i] != ' '
    ensures forall i :: 0 <= i < |r| ==> r[i] == (if name[i] == ' ' then '_' else LowerChar(name[i]))
  {
    Replace(Lower(name), ' ', '_')
  }

  const InputSuffix: string := "_input"

  /** An option of a select or checkbox group: shown text and submitted value. */
  datatype Choice = Choice(text: string, value: string)

  datatype Element =
    | StaticSelect(choices: seq<Choice>)
    | DatePicker
    | Checkboxes(boxes: seq<Choice>)
    | PlainTextInput(multiline: bool)

  datatype Block =
    | Header(title: string, description: string)
    | IdContext(formId: string)
    | Input(blockId: string, actionId: string, caption: string, element: Element)
    | SubmitButton(formId: string)

  /** Why a field cannot be rendered: reading a property of `null`, or calling a
      method on a missing name, a missing options list or a `null` option,
      throws. */
  datatype RenderError = NullField | NameMissing | OptionsMissing | OptionNull

  /** The choices of a multiple-choice field: one per option, in order; a
      blank (`null`) option cannot be lower-cased. */
  function OptionChoices(options: seq<Text>): (r: Result<seq<Choice>, RenderError>)
    ensures r.Success? <==> OptionsGiven(options)
    ensures r.Failure? ==> r.error == OptionNull
    ensures r.Success? ==>
      && |r.value| == |options|
      && forall i :: 0 <= i < |options| ==>
           r.value[i].text == options[i].value && r.value[i].value == Slug(options[i].value)
  {
    if options == [] then Success([])
    else if options[0].None? then Failure(OptionNull)
    else
      match OptionChoices(options[1..])
      case Failure(e) => Failure(e)
      case Success(rest) => Success([Choice(options[0].value, Slug(options[0].value))] + rest)
  }

  /** One field's input block; the element kind follows the field kind. */
  function RenderField(f: Field): (r: Result<Block, RenderError>)
    ensures r == Failure(NullField) <==> f.Undefined?
    ensures r == Failure(NameMissing) <==> f.Field? && f.name.None?
    ensures r == Failure(OptionsMissing) <==>
      f.Field? && f.name.Some? && f.kind == MultipleChoice && f.options.None?
    ensures r == Failure(OptionNull) <==>
      f.Field? && f.name.Some? && f.kind == MultipleChoice && f.options.Some? && !OptionsGiven(f.options.value)
    ensures r.Success? ==>
      var name := f.name.value;
      && r.value.Input?
      && r.value.blockId == Slug(name) + InputSuffix
      && r.value.actionId == Slug(name)
      && r.value.caption == name
    ensures r.Success? ==>
      var e := r.value.element;
      && (e.StaticSelect? <==> f.kind == MultipleChoice)
      && (e.StaticSelect? ==>
            && |e.choices| == |f.options.value|
            && (forall i :: 0 <= i < |e.choices| ==>
                  e.choices[i] == Choice(f.options.value[i].value, Slug(f.options.value[i].value))))
      && (e.DatePicker? <==> f.kind == Date)
      && (e.Checkboxes? <==> f.kind == Checkbox)
      && (e.Checkboxes? ==> e.boxes == [Choice(f.name.value, "checked")])
      && (e.PlainTextInput? <==> f.kind !in {MultipleChoice, Date, Checkbox})
      && (e.PlainTextInput? ==> (e.multiline <==> f.kind == LongText))
  {
    match f
    case Undefined => Failure(NullField)
    case Field(kind, name, options) =>
      if name.None? then Failure(NameMissing)
      else
        var id := Slug(name.value);
        if kind == MultipleChoice then
          if options.None? then Failure(OptionsMissing)
          else
            match OptionChoices(options.value)
            case Failure(e) => Failure(e)
            case Success(choices) => Success(Input(id + InputSuffix, id, name.value, StaticSelect(choices)))
        else if kind == Date then
          Success(Input(id + InputSuffix, id, name.value, DatePicker))
        else if kind == Checkbox then
          Success(Input(id + InputSuffix, id, name.value, Checkboxes([Choice(name.value, "checked")])))
        else
          Success(Input(id + InputSuffix, id, name.value, PlainTextInput(kind == LongText)))
  }

  /** The input blocks of a field list, or the error of its first bad field. */
  function RenderFields(fields: seq<Field>): (r: Result<seq<Block>, RenderError>)
    ensures r.Success? <==> forall i :: 0 <= i < |fields| ==> RenderField(fields[i]).Success?
    ensures r.Success? ==>
      && |r.value| == |fields|
      && forall i :: 0 <= i < |fields| ==> r.value[i] == RenderField(fields[i]).value
    ensures r.Failure? ==>
      exists i :: 0 <= i < |fields| && RenderField(fields[i]) == Failure(r.error)
        && forall j :: 0 <= j < i ==> RenderField(fields[j]).Success?
  {
    if fields == [] then Success([])
    else
      match RenderField(fields[0])
      case Failure(e) => Failure(e)
      case Success(b) =>
        match RenderFields(fields[1..])
        case Failure(e) => Failure(e)
        case Success(bs) => Success([b] + bs)
  }

  /** The whole message: title and description, the form id, one input per
      field, and a submit button whose value is the form id. */
  function FormBlocks(form: Draft, formId: string): (r: Result<seq<Block>, RenderError>)
    ensures r.Success? <==> forall i :: 0 <= i < |form.fields| ==> RenderField(form.fields[i]).Success?
    ensures r.Failure? ==> RenderFields(form.fields) == Failure(r.error)
    ensures r.Success? ==>
      && |r.value| == |form.fields| + 3
      && r.value[0] == Header(form.title, form.description)
      && r.value[1] == IdContext(formId)
      && (forall i :: 0 <= i < |form.fields| ==> r.value[i + 2] == RenderField(form.fields[i]).value)
      && r.value[|r.value| - 1] == SubmitButton(formId)
  {
    match RenderFields(form.fields)
    case Failure(e) => Failure(e)
    case Success(inputs) =>
      Success([Header(form.title, form.description), IdContext(formId)] + inputs + [SubmitButton(formId)])
  }

  datatype LoadError = FormNotFound | Unrenderable(cause: RenderError)

  /** `select_form_to_run`: looks the chosen form up and renders it. */
  function SelectFormToRun(forms: map<string, Draft>, formId: string): (r: Result<seq<Block>, LoadError>)
    ensures r == Failure(FormNotFound) <==> formId !in forms
    ensures r.Failure? && r.error.Unrenderable? ==>
      formId in forms && RenderFields(forms[formId].fields) == Failure(r.error.cause)
    ensures r.Success? ==>
      && formId in forms
      && |r.value| == |forms[formId].fields| + 3
      && r.value[0] == Header(forms[formId].title, forms[formId].description)
      && r.value[1] == IdContext(formId)
      && r.value[|r.value| - 1] == SubmitButton(formId)
      && RenderFields(forms[formId].fields) == Success(r.value[2..|r.value| - 1])
  {
    if formId !in forms then Failure(FormNotFound)
    else
      match FormBlocks(forms[formId], formId)
      case Success(blocks) => Success(blocks)
      case Failure(e) => Failure(Unrenderable(e))
  }

  /** Every well-formed form renders: all its fields have names, and every
      multiple-choice field has options, none of them blank. */
  lemma WellFormedFormRenders(form: Draft, formId: string)
    requires WellFormed(form)
    ensures FormBlocks(form, formId).Success?
  {
  }

  /** The input blocks of a rendered form carry, in field order, block id
      slug(name) + "_input" and action id slug(name), neither with a space. */
  lemma RenderedIdsAreSlugs(form: Draft, formId: string, i: nat)
    requires FormBlocks(form, formId).Success?
    requires i < |form.fields|
    ensures var b := FormBlocks(form, formId).value[i + 2];
      && form.fields[i].Field? && form.fields[i].name.Some?
      && b.Input?
      && b.caption == form.fields[i].name.value
      && b.blockId == Slug(form.fields[i].name.value) + InputSuffix
      && b.actionId == Slug(form.fields[i].name.value)
      && ' ' !in b.actionId
      && ' ' !in b.blockId
  {
  }

  /** A field name left blank is stored as `null` and saved; the saved form
      then cannot be shown, because its name cannot be lower-cased. The run
      uses only matching confirm buttons. */
  lemma BlankNameMakesFormUnrenderable(id: string, user: string)
    ensures var s := Run(State(None, map[]),
                         [CreateForm(id, user), SelectFieldType(ShortText), ConfirmField(ShortText, None),
                          FinishForm(true)]);
      && id in s.forms
      && s.forms[id].fields == [Field(ShortText, None, None)]
      && SelectFormToRun(s.forms, id) == Failure(Unrenderable(NameMissing))
  {
    var s0 := State(None, map[]);
    var acts := [CreateForm(id, user), SelectFieldType(ShortText), ConfirmField(ShortText, None), FinishForm(true)];
    var s1 := Handle(s0, acts[0]).next;
    var s2 := Handle(s1, acts[1]).next;
    var s3 := Handle(s2, acts[2]).next;
    var s4 := Handle(s3, acts[3]).next;
    calc {
      Run(s0, acts);
      Run(s1, acts[1..]);
      { assert acts[1..][1..] == acts[2..]; }
      Run(s2, acts[2..]);
      { assert acts[2..][1..] == acts[3..]; }
      Run(s3, acts[3..]);
      { assert acts[3..][1..] == []; }
      Run(s4, []);
    }
  }
}
