/** Turning a submitted form back into named answers (`submit_form`): the
    field name is recovered from each block id, each element state becomes
    one value, and the submitter's identity is added last. */
module Submission {
  import opened Wrappers
  import opened FormWizard
  import opened Render

  /** The name under which a field's answer is sent. */
  function DecodedName(name: string): (r: string)
    ensures |r| == |name|
    ensures forall i :: 0 <= i < |name| ==>
      r[i] == (if name[i] == ' ' || name[i] == '_' then ' ' else LowerChar(name[i]))
  {
    Replace(Lower(name), '_', ' ')
  }

  predicate HasInputSuffix(s: string) {
    |s| >= |InputSuffix| && s[|s| - |InputSuffix|..] == InputSuffix
  }

  /** Removes one trailing "_input" (an end-anchored regex replace). */
  function StripInputSuffix(blockId: string): (r: string)
    ensures HasInputSuffix(blockId) ==> r + InputSuffix == blockId
    ensures !HasInputSuffix(blockId) ==> r == blockId
  {
    if HasInputSuffix(blockId) then blockId[..|blockId| - |InputSuffix|] else blockId
  }

  /** The field name read back from a block id: a trailing "_input" dropped,
      then every `_` turned into a space. */
  function DecodeFieldName(blockId: string): (r: string)
    ensures |r| == (if HasInputSuffix(blockId) then |blockId| - |InputSuffix| else |blockId|)
    ensures forall i :: 0 <= i < |r| ==> r[i] != '_'
    ensures forall i :: 0 <= i < |r| ==> r[i] == (if blockId[i] == '_' then ' ' else blockId[i])
  {
    Replace(StripInputSuffix(blockId), '_', ' ')
  }

  /** The rendered block id of a field decodes to the field's name lower-cased
      with every space and underscore turned into a space. */
  lemma RenderedIdDecodes(name: string)
    ensures DecodeFieldName(Slug(name) + InputSuffix) == DecodedName(name)
  {
  }

  /** The decoded name is not the original one: "Full Name" arrives starting
      with a lower-case "f". */
  lemma DecodedNameDiffersFromName()
    ensures DecodeFieldName(Slug("Full Name") + InputSuffix)[0] == 'f'
    ensures DecodeFieldName(Slug("Full Name") + InputSuffix) != "Full Name"
  {
  }

  /** Two different field names can share one decoded name, "a b" and "a_b" say. */
  lemma DistinctNamesCanCollide()
    ensures "a b" != "a_b"
    ensures DecodeFieldName(Slug("a b") + InputSuffix) == DecodeFieldName(Slug("a_b") + InputSuffix)
  {
  }

  /** The state of one submitted element. */
  datatype Answer =
    | SelectAnswer(selectedText: Option<string>)
    | DateAnswer(date: Option<string>)
    | CheckboxAnswer(selected: seq<string>)
    | TextAnswer(value: Option<string>)

  /** A submission fails when the form is unknown, or when a select has no
      option chosen (the handler reads a property of `null`). */
  datatype SubmitError = UnknownForm | NoOptionSelected

  const Yes: string := "Sí"
  const No: string := "No"

  /** The value sent for one answer; `None` is JSON `null`. */
  function AnswerValue(a: Answer): (r: Result<Option<string>, SubmitError>)
    ensures r.Failure? <==> a.SelectAnswer? && a.selectedText.None?
    ensures r.Failure? ==> r.error == NoOptionSelected
    ensures a.CheckboxAnswer? ==>
      && r.Success?
      && (r.value == Some(Yes) <==> |a.selected| > 0)
      && (r.value == Some(No) <==> |a.selected| == 0)
    ensures r.Success? && a.SelectAnswer? ==> r.value == a.selectedText
    ensures a.DateAnswer? ==> r == Success(a.date)
    ensures a.TextAnswer? ==> r == Success(a.value)
  {
    match a
    case SelectAnswer(text) => if text.None? then Failure(NoOptionSelected) else Success(text)
    case DateAnswer(date) => Success(date)
    case CheckboxAnswer(selected) => Success(Some(if |selected| > 0 then Yes else No))
    case TextAnswer(value) => Success(value)
  }

  /** One (name, value) pair per submitted block, in block order. */
  function Responses(entries: seq<(string, Answer)>): (r: Result<seq<(string, Option<string>)>, SubmitError>)
    ensures r.Success? <==> forall i :: 0 <= i < |entries| ==> AnswerValue(entries[i].1).Success?
    ensures r.Failure? ==> r.error == NoOptionSelected
    ensures r.Success? ==>
      && |r.value| == |entries|
      && forall i :: 0 <= i < |entries| ==>
           r.value[i] == (DecodeFieldName(entries[i].0), AnswerValue(entries[i].1).value)
  {
    if entries == [] then Success([])
    else
      match AnswerValue(entries[0].1)
      case Failure(e) => Failure(e)
      case Success(v) =>
        match Responses(entries[1..])
        case Failure(e) => Failure(e)
        case Success(rest) => Success([(DecodeFieldName(entries[0].0), v)] + rest)
  }

  /** Pair `i` is the last one with its name. */
  predicate IsLast<V>(rs: seq<(string, V)>, i: int) {
    0 <= i < |rs| && forall j :: i < j < |rs| ==> rs[j].0 != rs[i].0
  }

  /** The names that occur in a list of pairs. */
  function Names<V>(rs: seq<(string, V)>): (r: set<string>) {
    set i | 0 <= i < |rs| :: rs[i].0
  }

  /** `Object.assign` of one-entry objects: later pairs override earlier ones. */
  function Merge<V>(rs: seq<(string, V)>): (m: map<string, V>)
    ensures m.Keys == Names(rs)
    ensures forall i :: IsLast(rs, i) ==> m[rs[i].0] == rs[i].1
    decreases |rs|
  {
    if rs == [] then map[]
    else
      var n := |rs| - 1;
      var m := Merge(rs[..n])[rs[n].0 := rs[n].1];
      MergeStep(rs);
      assert forall i :: IsLast(rs, i) ==> m[rs[i].0] == rs[i].1 by {
        forall i | IsLast(rs, i)
          ensures m[rs[i].0] == rs[i].1
        {
          if i < n {
            assert rs[..n][i] == rs[i];
          }
        }
      }
      m
  }

  /** Dropping the last pair keeps the other names and every other last pair. */
  lemma MergeStep<V>(rs: seq<(string, V)>)
    requires rs != []
    ensures Names(rs) == Names(rs[..|rs| - 1]) + {rs[|rs| - 1].0}
    ensures forall i :: IsLast(rs, i) && i < |rs| - 1 ==> IsLast(rs[..|rs| - 1], i) && rs[i].0 != rs[|rs| - 1].0
  {
  }

  const UserNameKey: string := "userName"
  const UserEmailKey: string := "userEmail"
  const UserIdKey: string := "userSlackId"

  datatype SlackUser = SlackUser(id: string, name: string)

  /** The object posted to the submission URL: the merged answers, then the
      submitter's name, email (`null` when unknown) and id, which override any
      answer of the same name. */
  function SubmissionData(rs: seq<(string, Option<string>)>, user: SlackUser, email: Option<string>)
    : (m: map<string, Option<string>>)
    ensures m.Keys == Names(rs) + {UserNameKey, UserEmailKey, UserIdKey}
    ensures m[UserNameKey] == Some(user.name)
    ensures m[UserEmailKey] == email
    ensures m[UserIdKey] == Some(user.id)
    ensures forall i :: IsLast(rs, i) && rs[i].0 !in {UserNameKey, UserEmailKey, UserIdKey} ==>
      m[rs[i].0] == rs[i].1
  {
    Merge(rs)[UserNameKey := Some(user.name)][UserEmailKey := email][UserIdKey := Some(user.id)]
  }

  /** Pairs named by decoding the block ids of `entries`, one per entry,
      carry exactly the decoded block ids as names. */
  lemma DecodedNames<V>(entries: seq<(string, Answer)>, rs: seq<(string, V)>)
    requires |rs| == |entries|
    requires forall i :: 0 <= i < |rs| ==> rs[i].0 == DecodeFieldName(entries[i].0)
    ensures Names(rs) == (set i | 0 <= i < |entries| :: DecodeFieldName(entries[i].0))
  {
    var names := set i | 0 <= i < |entries| :: DecodeFieldName(entries[i].0);
    forall k | k in names
      ensures k in Names(rs)
    {
      var i :| 0 <= i < |entries| && DecodeFieldName(entries[i].0) == k;
      assert rs[i].0 == k;
    }
  }

  /** What `submit_form` posts, and where. */
  datatype Post = Post(url: string, data: map<string, Option<string>>)

  /** `submit_form`: loads the form, decodes the answers and builds the post. */
  function SubmitForm(forms: map<string, Draft>, formId: string, entries: seq<(string, Answer)>,
                      user: SlackUser, email: Option<string>): (r: Result<Post, SubmitError>)
    ensures r == Failure(UnknownForm) <==> formId !in forms
    ensures r.Success? <==> formId in forms && forall i :: 0 <= i < |entries| ==> AnswerValue(entries[i].1).Success?
    ensures r.Success? ==>
      && r.value.url == forms[formId].submissionUrl
      && r.value.data.Keys == (set i | 0 <= i < |entries| :: DecodeFieldName(entries[i].0))
                              + {UserNameKey, UserEmailKey, UserIdKey}
      && r.value.data[UserNameKey] == Some(user.name)
      && r.value.data[UserEmailKey] == email
      && r.value.data[UserIdKey] == Some(user.id)
    ensures r.Success? ==>
      var rs := Responses(entries).value;
      forall i :: IsLast(rs, i) && rs[i].0 !in {UserNameKey, UserEmailKey, UserIdKey} ==>
        r.value.data[rs[i].0] == rs[i].1
  {
    if formId !in forms then Failure(UnknownForm)
    else
      match Responses(entries)
      case Failure(e) => Failure(e)
      case Success(rs) =>
        DecodedNames(entries, rs);
        Success(Post(forms[formId].submissionUrl, SubmissionData(rs, user, email)))
  }

  /** A decoded rendered name is never one of the submitter keys, which all
      contain an upper-case letter; so for rendered forms the override never
      replaces an answer. */
  lemma RenderedNameIsNoUserKey(name: string)
    ensures DecodeFieldName(Slug(name) + InputSuffix) !in {UserNameKey, UserEmailKey, UserIdKey}
  {
    RenderedIdDecodes(name);
    var d := DecodedName(name);
    forall i | 0 <= i < |d|
      ensures !('A' <= d[i] <= 'Z')
    {
    }
    assert UserNameKey[4] == 'N' && UserEmailKey[4] == 'E' && UserIdKey[4] == 'S';
  }

  /** Answers spliced around one decodable answer all decode. */
  lemma SplicedAnswersDecode(before: seq<(string, Answer)>, blockId: string, answer: Answer,
                             after: seq<(string, Answer)>)
    requires forall j :: 0 <= j < |before| ==> AnswerValue(before[j].1).Success?
    requires AnswerValue(answer).Success?
    requires forall j :: 0 <= j < |after| ==> AnswerValue(after[j].1).Success?
    ensures Responses(before + [(blockId, answer)] + after).Success?
  {
    var entries := before + [(blockId, answer)] + after;
    forall j | 0 <= j < |entries|
      ensures AnswerValue(entries[j].1).Success?
    {
      if j < |before| {
        assert entries[j] == before[j];
      } else if j == |before| {
        assert entries[j] == (blockId, answer);
      } else {
        assert entries[j] == after[j - |before| - 1];
      }
    }
  }

  /** The spliced block's pair is the last with its name when no later block
      decodes to the same name. */
  lemma SplicedAnswerIsLast(before: seq<(string, Answer)>, blockId: string, answer: Answer,
                            after: seq<(string, Answer)>)
    requires forall j :: 0 <= j < |before| ==> AnswerValue(before[j].1).Success?
    requires AnswerValue(answer).Success?
    requires forall j :: 0 <= j < |after| ==>
      AnswerValue(after[j].1).Success? && DecodeFieldName(after[j].0) != DecodeFieldName(blockId)
    ensures var r := Responses(before + [(blockId, answer)] + after);
      && r.Success?
      && IsLast(r.value, |before|)
      && r.value[|before|] == (DecodeFieldName(blockId), AnswerValue(answer).value)
  {
    SplicedAnswersDecode(before, blockId, answer, after);
    var entries := before + [(blockId, answer)] + after;
    var i := |before|;
    var rs := Responses(entries).value;
    assert entries[i] == (blockId, answer);
    forall j | i < j < |rs|
      ensures rs[j].0 != rs[i].0
    {
      assert entries[j] == after[j - i - 1];
    }
  }

  /** End to end: the answer to the field rendered from `name` is posted under
      the name lower-cased with spaces and underscores as spaces, unless a
      later block decodes to the same name. */
  lemma AnswerPostedUnderDecodedName(forms: map<string, Draft>, formId: string,
                                     before: seq<(string, Answer)>, name: string, answer: Answer,
                                     after: seq<(string, Answer)>, user: SlackUser, email: Option<string>)
    requires formId in forms
    requires forall j :: 0 <= j < |before| ==> AnswerValue(before[j].1).Success?
    requires AnswerValue(answer).Success?
    requires forall j :: 0 <= j < |after| ==>
      AnswerValue(after[j].1).Success? && DecodeFieldName(after[j].0) != DecodedName(name)
    ensures var r := SubmitForm(forms, formId, before + [(Slug(name) + InputSuffix, answer)] + after, user, email);
      && r.Success?
      && DecodedName(name) in r.value.data
      && r.value.data[DecodedName(name)] == AnswerValue(answer).value
  {
    var blockId := Slug(name) + InputSuffix;
    RenderedIdDecodes(name);
    RenderedNameIsNoUserKey(name);
    SplicedAnswerIsLast(before, blockId, answer, after);
  }
}
