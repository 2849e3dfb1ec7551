/** The form-builder wizard: the draft form (`tempForm`) and the handlers of
    `/create-form`, `continue_form_creation`, `field_type_select`,
    `confirm_field`, `add_option`, `finish_options`, `add_another_field` and
    `finish_form`, each as a pure transition over an explicit state. */
module FormWizard {
  import opened Wrappers

  // The field kinds offered by the type menu.
  const ShortText: string := "short_text"
  const LongText: string := "long_text"
  const MultipleChoice: string := "multiple_choice"
  const Checkbox: string := "checkbox"
  const Date: string := "date"

  /** The value of a text input: `None` when the user left it blank, which
      the platform sends as `null`. */
  type Text = Option<string>

  /** A field object. `Undefined` is JavaScript's `undefined`: the draft has no
      current field, or `finish_options` pushed a current field that was not
      there. A field's name is absent until it is confirmed (and `null` when it
      was confirmed blank), and only a multiple-choice field gets an options
      list, whose entries may be `null` too. */
  datatype Field =
    | Undefined
    | Field(kind: string, name: Text, options: Option<seq<Text>>)

  /** The form under construction; `current` is `currentField`. */
  datatype Draft = Draft(
    id: string,
    userId: string,
    title: string,
    description: string,
    fields: seq<Field>,
    submissionUrl: string,
    current: Field)

  /** The bot's state: the draft (`null` when none) and the saved forms by id. */
  datatype State = State(draft: Option<Draft>, forms: map<string, Draft>)

  /** What a handler answers; `Crashed` is a handler that threw. */
  datatype Reply =
    | Crashed
    | Prompted
    | FieldAdded(name: Text, kind: string)
    | OptionAdded(option: Text)
    | OptionsAdded(count: nat)
    | FormCreated(title: string, fieldCount: nat, saved: bool)

  datatype Step = Step(next: State, reply: Reply)

  /** One inbound event, with the values the user typed or picked. For
      `finish_form`, `written` is whether writing the form's file worked. */
  datatype Action =
    | CreateForm(formId: string, userId: string)
    | ContinueFormCreation(title: string, description: string, submissionUrl: string)
    | SelectFieldType(kind: string)
    | ConfirmField(buttonKind: string, fieldName: Text)
    | AddOption(option: Text)
    | FinishOptions
    | AddAnotherField
    | FinishForm(written: bool)

  /** No option of the list was left blank. */
  predicate OptionsGiven(options: seq<Text>) {
    forall i :: 0 <= i < |options| ==> options[i].Some?
  }

  /** A field as it should be once it sits in `fields`. */
  predicate StoredOk(f: Field) {
    && f.Field?
    && f.name.Some?
    && (f.options.Some? <==> f.kind == MultipleChoice)
    && (f.options.Some? ==> OptionsGiven(f.options.value))
  }

  /** A current field: none, freshly typed, or a named multiple-choice field
      collecting options. */
  predicate PendingOk(c: Field) {
    || c.Undefined?
    || (c.name.None? && c.options.None?)
    || (c.name.Some? && c.kind == MultipleChoice && c.options.Some? && OptionsGiven(c.options.value))
  }

  predicate WellFormed(d: Draft) {
    && (forall i :: 0 <= i < |d.fields| ==> StoredOk(d.fields[i]))
    && PendingOk(d.current)
  }

  predicate StateOk(s: State) {
    && (s.draft.Some? ==> WellFormed(s.draft.value))
    && (forall k :: k in s.forms ==> s.forms[k].id == k && WellFormed(s.forms[k]))
  }

  /** `d2` differs from `d1` at most in title, description and submission URL. */
  predicate OnlyHeaderChanged(d1: Draft, d2: Draft) {
    d2.(title := d1.title, description := d1.description, submissionUrl := d1.submissionUrl) == d1
  }

  /** `d2` differs from `d1` at most in its current field. */
  predicate OnlyCurrentChanged(d1: Draft, d2: Draft) {
    d2.(current := d1.current) == d1
  }

  /** `/create-form`: a new draft replaces whatever draft there was. */
  function OnCreateForm(s: State, formId: string, userId: string): (r: Step)
    ensures r.reply == Prompted && r.next.forms == s.forms
    ensures r.next.draft.Some?
    ensures var d := r.next.draft.value;
      && d.id == formId && d.userId == userId
      && d.title == "" && d.description == "" && d.submissionUrl == ""
      && d.fields == [] && d.current.Undefined?
    ensures WellFormed(r.next.draft.value)
  {
    Step(State(Some(Draft(formId, userId, "", "", [], "", Undefined)), s.forms), Prompted)
  }

  /** `continue_form_creation`: stores title, description and submission URL. */
  function OnContinueFormCreation(s: State, title: string, description: string, url: string): (r: Step)
    ensures r.reply.Crashed? <==> s.draft.None?
    ensures r.reply.Crashed? ==> r.next == s
    ensures !r.reply.Crashed? ==>
      && r.next.forms == s.forms
      && r.next.draft.Some?
      && r.next.draft.value.title == title
      && r.next.draft.value.description == description
      && r.next.draft.value.submissionUrl == url
      && OnlyHeaderChanged(s.draft.value, r.next.draft.value)
  {
    match s.draft
    case None => Step(s, Crashed)
    case Some(d) =>
      var d' := d.(title := title, description := description, submissionUrl := url);
      Step(s.(draft := Some(d')), Prompted)
  }

  /** `field_type_select`: starts a new current field of the chosen kind,
      dropping any field still pending. */
  function OnFieldTypeSelect(s: State, kind: string): (r: Step)
    ensures r.reply.Crashed? <==> s.draft.None?
    ensures r.reply.Crashed? ==> r.next == s
    ensures !r.reply.Crashed? ==>
      && r.next.forms == s.forms
      && r.next.draft.Some?
      && r.next.draft.value.current == Field(kind, None, None)
      && OnlyCurrentChanged(s.draft.value, r.next.draft.value)
  {
    match s.draft
    case None => Step(s, Crashed)
    case Some(d) => Step(s.(draft := Some(d.(current := Field(kind, None, None)))), Prompted)
  }

  /** `confirm_field`: names the current field; then either opens its options
      list (when the button says multiple choice) or pushes it onto `fields`. */
  function OnConfirmField(s: State, buttonKind: string, name: Text): (r: Step)
    ensures r.reply.Crashed? <==> s.draft.None? || s.draft.value.current.Undefined?
    ensures r.reply.Crashed? ==> r.next == s
    ensures !r.reply.Crashed? ==> r.next.forms == s.forms && r.next.draft.Some?
    ensures !r.reply.Crashed? && buttonKind == MultipleChoice ==>
      var d, d' := s.draft.value, r.next.draft.value;
      && r.reply == Prompted
      && d'.fields == d.fields
      && OnlyCurrentChanged(d, d')
      && d'.current.Field?
      && d'.current.kind == d.current.kind
      && d'.current.name == name
      && d'.current.options == Some([])
    ensures !r.reply.Crashed? && buttonKind != MultipleChoice ==>
      var d, d' := s.draft.value, r.next.draft.value;
      && r.reply == FieldAdded(name, buttonKind)
      && d'.fields == d.fields + [d.current.(name := name)]
      && d'.current.Undefined?
      && d'.(fields := d.fields, current := d.current) == d
  {
    match s.draft
    case None => Step(s, Crashed)
    case Some(d) =>
      if d.current.Undefined? then Step(s, Crashed)
      else
        var named := d.current.(name := name);
        if buttonKind == MultipleChoice then
          Step(s.(draft := Some(d.(current := named.(options := Some([]))))), Prompted)
        else
          Step(s.(draft := Some(d.(fields := d.fields + [named], current := Undefined))),
               FieldAdded(name, buttonKind))
  }

  /** `add_option`: appends the entered value to the current field's options. */
  function OnAddOption(s: State, option: Text): (r: Step)
    ensures r.reply.Crashed? <==>
      || s.draft.None?
      || s.draft.value.current.Undefined?
      || s.draft.value.current.options.None?
    ensures r.reply.Crashed? ==> r.next == s
    ensures !r.reply.Crashed? ==>
      var d := s.draft.value;
      && r.reply == OptionAdded(option)
      && r.next.forms == s.forms
      && r.next.draft.Some?
      && OnlyCurrentChanged(d, r.next.draft.value)
      && r.next.draft.value.current.Field?
      && r.next.draft.value.current.(options := d.current.options) == d.current
      && r.next.draft.value.current.options == Some(d.current.options.value + [option])
  {
    match s.draft
    case None => Step(s, Crashed)
    case Some(d) =>
      if d.current.Undefined? || d.current.options.None? then Step(s, Crashed)
      else
        var c := d.current.(options := Some(d.current.options.value + [option]));
        Step(s.(draft := Some(d.(current := c))), OptionAdded(option))
  }

  /** `finish_options`: pushes the current field, clears it, and reports the
      pushed field's option count. The push and the clearing happen even
      when the count cannot be read, in which case the handler throws. */
  function OnFinishOptions(s: State): (r: Step)
    ensures s.draft.None? ==> r == Step(s, Crashed)
    ensures s.draft.Some? ==>
      var d := s.draft.value;
      && r.next.forms == s.forms
      && r.next.draft.Some?
      && r.next.draft.value.fields == d.fields + [d.current]
      && r.next.draft.value.current.Undefined?
      && r.next.draft.value.(fields := d.fields, current := d.current) == d
    ensures !r.reply.Crashed? <==> s.draft.Some? && s.draft.value.current.Field? && s.draft.value.current.options.Some?
    ensures !r.reply.Crashed? ==>
      var pushed := r.next.draft.value.fields[|r.next.draft.value.fields| - 1];
      r.reply == OptionsAdded(|pushed.options.value|)
  {
    match s.draft
    case None => Step(s, Crashed)
    case Some(d) =>
      var d' := d.(fields := d.fields + [d.current], current := Undefined);
      var reply := if d.current.Field? && d.current.options.Some?
        then OptionsAdded(|d.current.options.value|) else Crashed;
      Step(s.(draft := Some(d')), reply)
  }

  /** `add_another_field`: only re-shows the type menu; it never reads the draft. */
  function OnAddAnotherField(s: State): (r: Step)
    ensures r.next == s && r.reply == Prompted
  {
    Step(s, Prompted)
  }

  /** `finish_form`: saves the draft under its own id and discards it. The
      saved forms are the files the other handlers read, so when writing the
      file fails (`written` false) no form is saved, although the reply still
      announces the form, with a note about the file. */
  function OnFinishForm(s: State, written: bool): (r: Step)
    ensures r.reply.Crashed? <==> s.draft.None?
    ensures r.reply.Crashed? ==> r.next == s
    ensures !r.reply.Crashed? ==>
      var d := s.draft.value;
      && r.next.draft.None?
      && r.reply == FormCreated(d.title, |d.fields|, written)
    ensures !r.reply.Crashed? && written ==>
      var d := s.draft.value;
      && r.next.forms.Keys == s.forms.Keys + {d.id}
      && r.next.forms[d.id] == d
      && (forall k :: k in s.forms && k != d.id ==> r.next.forms[k] == s.forms[k])
    ensures !written ==> r.next.forms == s.forms
  {
    match s.draft
    case None => Step(s, Crashed)
    case Some(d) =>
      var forms := if written then s.forms[d.id := d] else s.forms;
      Step(State(None, forms), FormCreated(d.title, |d.fields|, written))
  }

  /** Dispatches one event to its handler. */
  function Handle(s: State, a: Action): (r: Step) {
    match a
    case CreateForm(id, user) => OnCreateForm(s, id, user)
    case ContinueFormCreation(t, desc, url) => OnContinueFormCreation(s, t, desc, url)
    case SelectFieldType(kind) => OnFieldTypeSelect(s, kind)
    case ConfirmField(kind, name) => OnConfirmField(s, kind, name)
    case AddOption(o) => OnAddOption(s, o)
    case FinishOptions => OnFinishOptions(s)
    case AddAnotherField => OnAddAnotherField(s)
    case FinishForm(written) => OnFinishForm(s, written)
  }

  /** The state after a sequence of events, handled one at a time. */
  function Run(s: State, actions: seq<Action>): (r: State)
    decreases |actions|
  {
    if actions == [] then s else Run(Handle(s, actions[0]).next, actions[1..])
  }

  /** The confirm button carries the kind of the field being confirmed, as it
      does when the user presses the button of the latest prompt. */
  predicate ButtonMatches(s: State, a: Action) {
    a.ConfirmField? && s.draft.Some? && s.draft.value.current.Field? ==>
      a.buttonKind == s.draft.value.current.kind
  }

  /** The event submits a blank field name or a blank option. */
  predicate BlankInput(a: Action) {
    || (a.ConfirmField? && a.fieldName.None?)
    || (a.AddOption? && a.option.None?)
  }

  /** The event uses no stale confirm button, leaves no name or option blank,
      and does not make `finish_options` throw after its push. */
  predicate OrderlyStep(s: State, a: Action) {
    && ButtonMatches(s, a)
    && !BlankInput(a)
    && !(a.FinishOptions? && Handle(s, a).reply.Crashed?)
  }

  predicate OrderlyRun(s: State, actions: seq<Action>)
    decreases |actions|
  {
    actions == [] || (OrderlyStep(s, actions[0]) && OrderlyRun(Handle(s, actions[0]).next, actions[1..]))
  }

  /** Every handler except `finish_options` throws before touching the state. */
  lemma CrashLeavesStateUnchanged(s: State, a: Action)
    requires !a.FinishOptions?
    ensures Handle(s, a).reply.Crashed? ==> Handle(s, a).next == s
  {
  }

  /** Orderly events keep every stored field named, keep options lists, with
      no blank entry, on exactly the multiple-choice fields, and keep saved
      forms under their ids. */
  lemma StepKeepsStateOk(s: State, a: Action)
    requires StateOk(s)
    requires OrderlyStep(s, a)
    ensures StateOk(Handle(s, a).next)
  {
  }

  lemma {:induction false} RunKeepsStateOk(s: State, actions: seq<Action>)
    requires StateOk(s)
    requires OrderlyRun(s, actions)
    ensures StateOk(Run(s, actions))
    decreases |actions|
  {
    if actions != [] {
      StepKeepsStateOk(s, actions[0]);
      RunKeepsStateOk(Handle(s, actions[0]).next, actions[1..]);
    }
  }

  /** Apart from `/create-form`, no event removes or reorders fields: the old
      field list is a prefix of the new one, one longer at most, and the
      draft keeps its id and owner. */
  lemma StepAppendsOnly(s: State, a: Action)
    requires !a.CreateForm?
    ensures var n := Handle(s, a).next;
      n.draft.Some? ==>
        && s.draft.Some?
        && n.draft.value.id == s.draft.value.id
        && n.draft.value.userId == s.draft.value.userId
        && s.draft.value.fields <= n.draft.value.fields
        && |n.draft.value.fields| <= |s.draft.value.fields| + 1
  {
  }

  /** Fields grow exactly when the current field is consumed: a push always
      clears `currentField` and pushes it (renamed at most), and clearing a
      defined current field always pushes it. */
  lemma CurrentConsumedWhenPushed(s: State, a: Action)
    requires !a.CreateForm?
    requires s.draft.Some? && Handle(s, a).next.draft.Some?
    ensures var d, d' := s.draft.value, Handle(s, a).next.draft.value;
      && (|d'.fields| == |d.fields| + 1 ==>
            && d'.current.Undefined?
            && d'.fields[|d.fields|].Field? == d.current.Field?
            && (d.current.Field? ==> d'.fields[|d.fields|].(name := d.current.name) == d.current))
      && (d.current.Field? && d'.current.Undefined? ==> |d'.fields| == |d.fields| + 1)
      && (|d'.fields| == |d.fields| ==> d'.fields == d.fields)
  {
  }

  /** Over any run free of `/create-form` that ends with a draft, the starting
      draft's fields survive, unchanged and in order, as a prefix. */
  lemma {:induction false} RunAppendsOnly(s: State, actions: seq<Action>)
    requires forall i :: 0 <= i < |actions| ==> !actions[i].CreateForm?
    requires Run(s, actions).draft.Some?
    ensures s.draft.Some?
    ensures Run(s, actions).draft.value.id == s.draft.value.id
    ensures s.draft.value.fields <= Run(s, actions).draft.value.fields
    decreases |actions|
  {
    if actions != [] {
      var n := Handle(s, actions[0]).next;
      assert forall i :: 0 <= i < |actions[1..]| ==> !actions[1..][i].CreateForm? by {
        forall i | 0 <= i < |actions[1..]| ensures !actions[1..][i].CreateForm? {
          assert actions[1..][i] == actions[i + 1];
        }
      }
      RunAppendsOnly(n, actions[1..]);
      StepAppendsOnly(s, actions[0]);
    }
  }

  /** Pressing "finish options" before confirming a field still pushes the
      unnamed field, so the draft then holds a field without a name. */
  lemma FinishOptionsBeforeConfirmStoresUnnamedField(id: string, user: string)
    ensures var s := Run(State(None, map[]), [CreateForm(id, user), SelectFieldType(MultipleChoice)]);
      && Handle(s, FinishOptions).reply.Crashed?
      && Handle(s, FinishOptions).next.draft.Some?
      && Handle(s, FinishOptions).next.draft.value.fields == [Field(MultipleChoice, None, None)]
      && !StateOk(Handle(s, FinishOptions).next)
  {
    var s0 := State(None, map[]);
    var s1 := Handle(s0, CreateForm(id, user)).next;
    var s2 := Handle(s1, SelectFieldType(MultipleChoice)).next;
    var acts := [CreateForm(id, user), SelectFieldType(MultipleChoice)];
    calc {
      Run(s0, acts);
      Run(s1, acts[1..]);
      { assert acts[1..][1..] == []; }
      Run(s2, []);
    }
    assert !StoredOk(Handle(s2, FinishOptions).next.draft.value.fields[0]);
  }

  /** A confirm button of another kind than the current field (an earlier
      prompt's button) gives a date field an options list. */
  lemma StaleConfirmButtonGivesOptionsToDate(id: string, user: string, name: string)
    ensures var s := Run(State(None, map[]),
                         [CreateForm(id, user), SelectFieldType(Date), ConfirmField(MultipleChoice, Some(name))]);
      && !Handle(s, FinishOptions).reply.Crashed?
      && Handle(s, FinishOptions).next.draft.value.fields == [Field(Date, Some(name), Some([]))]
      && !StateOk(Handle(s, FinishOptions).next)
  {
    var s0 := State(None, map[]);
    var acts := [CreateForm(id, user), SelectFieldType(Date), ConfirmField(MultipleChoice, Some(name))];
    var s1 := Handle(s0, acts[0]).next;
    var s2 := Handle(s1, acts[1]).next;
    var s3 := Handle(s2, acts[2]).next;
    calc {
      Run(s0, acts);
      Run(s1, acts[1..]);
      { assert acts[1..][1..] == acts[2..]; }
      Run(s2, acts[2..]);
      { assert acts[2..][1..] == []; }
      Run(s3, []);
    }
    assert !StoredOk(Handle(s3, FinishOptions).next.draft.value.fields[0]);
  }
}
