/** Sending a saved form to every member of a channel
    (`select_channel_for_form`) and counting the deliveries that worked and
    the ones that failed. */
module Broadcast {
  import opened Wrappers
  import opened FormWizard
  import opened Render

  /** The result of one chat-platform call. */
  datatype Delivery = Sent | Failed(message: string)

  /** What the platform does for one member: opening the direct conversation
      and posting the invitation text (`greeting`), then posting the form
      blocks (`formPost`). */
  datatype Attempt = Attempt(greeting: Delivery, formPost: Delivery)

  /** Why a member did not get the form: a platform error, or the form's
      blocks, built inside the per-member try, could not be rendered. */
  datatype Reason = PlatformError(message: string) | RenderFailed(cause: RenderError)

  /** One entry of `errors`: the member's email as looked up (`null` when
      unknown), the member id and the reason. */
  datatype FailureEntry = FailureEntry(userEmail: Option<string>, userId: string, reason: Reason)

  /** Why one member's delivery failed, if it did: the greeting is tried
      first, then the form is rendered, then it is posted. */
  function FailureOf(a: Attempt, blocks: Result<seq<Block>, RenderError>): (r: Option<Reason>)
    ensures r.None? <==> a.greeting.Sent? && blocks.Success? && a.formPost.Sent?
    ensures a.greeting.Failed? ==> r == Some(PlatformError(a.greeting.message))
    ensures a.greeting.Sent? && blocks.Failure? ==> r == Some(RenderFailed(blocks.error))
    ensures a.greeting.Sent? && blocks.Success? && a.formPost.Failed? ==> r == Some(PlatformError(a.formPost.message))
  {
    if a.greeting.Failed? then Some(PlatformError(a.greeting.message))
    else if blocks.Failure? then Some(RenderFailed(blocks.error))
    else if a.formPost.Failed? then Some(PlatformError(a.formPost.message))
    else None
  }

  /** Reference definition of the failures, in member order. */
  function Failures(members: seq<string>, attempts: seq<Attempt>, emails: seq<Option<string>>,
                    blocks: Result<seq<Block>, RenderError>): (r: seq<FailureEntry>)
    requires |attempts| == |members| && |emails| == |members|
    decreases |members|
  {
    if members == [] then []
    else
      var n := |members| - 1;
      var earlier := Failures(members[..n], attempts[..n], emails[..n], blocks);
      match FailureOf(attempts[n], blocks)
      case None => earlier
      case Some(reason) => earlier + [FailureEntry(emails[n], members[n], reason)]
  }

  /** Reference count of the members that got the form. */
  function Delivered(attempts: seq<Attempt>, blocks: Result<seq<Block>, RenderError>): (r: nat)
    decreases |attempts|
  {
    if attempts == [] then 0
    else
      var n := |attempts| - 1;
      Delivered(attempts[..n], blocks) + (if FailureOf(attempts[n], blocks).None? then 1 else 0)
  }

  /** The delivery loop: one attempt per member, counting successes and
      failures and recording each failure. */
  method Tally(members: seq<string>, attempts: seq<Attempt>, emails: seq<Option<string>>,
               blocks: Result<seq<Block>, RenderError>)
    returns (successCount: nat, failedCount: nat, errors: seq<FailureEntry>)
    requires |attempts| == |members| && |emails| == |members|
    ensures successCount + failedCount == |members|
    ensures failedCount == |errors|
    ensures errors == Failures(members, attempts, emails, blocks)
    ensures successCount == Delivered(attempts, blocks)
  {
    successCount, failedCount, errors := 0, 0, [];
    var i := 0;
    while i < |members|
      invariant 0 <= i <= |members|
      invariant successCount + failedCount == i
      invariant failedCount == |errors|
      invariant errors == Failures(members[..i], attempts[..i], emails[..i], blocks)
      invariant successCount == Delivered(attempts[..i], blocks)
    {
      assert members[..i + 1][..i] == members[..i];
      assert attempts[..i + 1][..i] == attempts[..i];
      assert emails[..i + 1][..i] == emails[..i];
      match FailureOf(attempts[i], blocks) {
        case None =>
          successCount := successCount + 1;
        case Some(reason) =>
          failedCount := failedCount + 1;
          errors := errors + [FailureEntry(emails[i], members[i], reason)];
      }
      i := i + 1;
    }
    assert members[..i] == members;
    assert attempts[..i] == attempts;
    assert emails[..i] == emails;
  }

  /** `idx` lists, in increasing order, the members the entries of `errs`
      are about, each of them a member whose delivery failed. */
  predicate FailedMembersAt(errs: seq<FailureEntry>, members: seq<string>, attempts: seq<Attempt>,
                            blocks: Result<seq<Block>, RenderError>, idx: seq<nat>)
    requires |attempts| == |members|
  {
    && |idx| == |errs|
    && (forall k :: 0 <= k < |idx| ==>
          (idx[k] < |members| && errs[k].userId == members[idx[k]]
           && FailureOf(attempts[idx[k]], blocks).Some?))
    && (forall k, l :: 0 <= k < l < |idx| ==> idx[k] < idx[l])
  }

  /** Every recorded failure names a member, in member order, and the
      failures number exactly the members that did not get the form. */
  lemma {:induction false} FailuresAreMembersInOrder(members: seq<string>, attempts: seq<Attempt>,
                                                     emails: seq<Option<string>>,
                                                     blocks: Result<seq<Block>, RenderError>)
    returns (idx: seq<nat>)
    requires |attempts| == |members| && |emails| == |members|
    ensures |Failures(members, attempts, emails, blocks)| + Delivered(attempts, blocks) == |members|
    ensures FailedMembersAt(Failures(members, attempts, emails, blocks), members, attempts, blocks, idx)
    decreases |members|
  {
    if members == [] {
      return [];
    }
    var n := |members| - 1;
    var earlierIdx := FailuresAreMembersInOrder(members[..n], attempts[..n], emails[..n], blocks);
    var earlier := Failures(members[..n], attempts[..n], emails[..n], blocks);
    var errs := Failures(members, attempts, emails, blocks);
    assert attempts[..n] == attempts[..|attempts| - 1];
    if FailureOf(attempts[n], blocks).Some? {
      idx := earlierIdx + [n];
      assert errs == earlier + [FailureEntry(emails[n], members[n], FailureOf(attempts[n], blocks).value)];
    } else {
      idx := earlierIdx;
      assert errs == earlier;
    }
  }

  /** When the form cannot be rendered, nobody gets it: every member fails. */
  lemma {:induction false} UnrenderableFormReachesNobody(attempts: seq<Attempt>, blocks: Result<seq<Block>, RenderError>)
    requires blocks.Failure?
    ensures Delivered(attempts, blocks) == 0
    decreases |attempts|
  {
    if attempts != [] {
      UnrenderableFormReachesNobody(attempts[..|attempts| - 1], blocks);
    }
  }

  /** What the handler answers. */
  datatype Outcome =
    | Threw
    | NoFormSelected
    | SendFailed
    | Stats(successCount: nat, failedCount: nat, errors: seq<FailureEntry>)

  /** `select_channel_for_form`: `formId` is the form chosen in the other menu
      (`None` when nothing is chosen, which throws before the check), and
      `members` the channel's members as listed by the platform. */
  method SelectChannelForForm(forms: map<string, Draft>, formId: Option<string>, members: seq<string>,
                              attempts: seq<Attempt>, emails: seq<Option<string>>)
    returns (out: Outcome)
    requires |attempts| == |members| && |emails| == |members|
    ensures out.Threw? <==> formId.None?
    ensures out.NoFormSelected? <==> formId == Some("")
    ensures out.SendFailed? <==> formId.Some? && formId.value != "" && formId.value !in forms
    ensures out.Stats? ==>
      && formId.Some? && formId.value in forms
      && out.successCount + out.failedCount == |members|
      && out.failedCount == |out.errors|
      && out.errors == Failures(members, attempts, emails, FormBlocks(forms[formId.value], formId.value))
      && out.successCount == Delivered(attempts, FormBlocks(forms[formId.value], formId.value))
      && (forall k :: 0 <= k < |out.errors| ==> out.errors[k].userId in members)
      && (out.successCount > 0 ==> RenderFields(forms[formId.value].fields).Success?)
  {
    if formId.None? {
      return Threw;
    }
    var id := formId.value;
    if id == "" {
      return NoFormSelected;
    }
    if id !in forms {
      return SendFailed;
    }
    var blocks := FormBlocks(forms[id], id);
    var s, f, errs := Tally(members, attempts, emails, blocks);
    var idx := FailuresAreMembersInOrder(members, attempts, emails, blocks);
    if blocks.Failure? {
      UnrenderableFormReachesNobody(attempts, blocks);
    }
    out := Stats(s, f, errs);
  }
}
