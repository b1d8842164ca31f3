/**
  Following a submission through its phases, and answering the validations it meets
  (agentbridge/adapters/seeyon_submit_phases.py, the Continue handler of
  agentbridge/adapters/seeyon_business_trip_submit.py).
  */
module SubmissionTracker {
  import opened Options

  const MAX_EVIDENCE_ITEMS: nat := 20

  // ----- Validations -----

  /** The hash of exactly these three fields, taken as injective. */
  datatype Fingerprint = Fingerprint(code: string, forceCheck: bool, message: string)

  datatype Validation = Validation(
    code: string, message: string, forceCheck: bool, canContinue: bool, frameUrl: string, activated: bool)
  {
    function Print(): Fingerprint {
      Fingerprint(code, forceCheck, message)
    }
  }

  function NonEmpty(message: string, fallback: string): string {
    if message == "" then fallback else message
  }

  function NativeValidation(kind: string, message: string): Validation {
    Validation(
      if kind == "confirm" then "NATIVE_CONFIRMATION" else "NATIVE_PAGE_BLOCKER",
      NonEmpty(message, "OA opened a " + kind + " dialog before submission."),
      kind != "confirm", kind == "confirm", "", false)
  }

  /** A prompt the page raised; it can be continued if it asks, or offers a Continue button. */
  function PromptValidation(asks: bool, hasContinue: bool, message: string, frameUrl: string): Validation {
    var canContinue := asks || hasContinue;
    Validation(
      if canContinue then "PRE_SUBMIT_CONFIRMATION" else "OA_PAGE_BLOCKER",
      NonEmpty(message, "OA stopped the submission with a page message."),
      !canContinue, canContinue, frameUrl, false)
  }

  function ConfirmationValidation(message: string, frameUrl: string): Validation {
    Validation("PRE_SUBMIT_CONFIRMATION", NonEmpty(message, "OA requested confirmation before saving the form."),
               false, true, frameUrl, false)
  }

  /** `forceCheck` is what code 3003 reports; every other code forces. */
  function Cap4Validation(code: string, message: string, forceCheck: bool): Validation {
    var force := code == "3003" ==> forceCheck;
    Validation(code, NonEmpty(message, "OA business validation " + code), force, code == "3003" && !force, "", false)
  }

  /** The fingerprint leaves `canContinue` out, yet fixes it: a validation can be continued iff it does not force. */
  lemma PrintFixesCanContinue(
      kind: string, message: string, asks: bool, hasContinue: bool, url: string, code: string, force: bool)
    ensures forall v <- [NativeValidation(kind, message), PromptValidation(asks, hasContinue, message, url),
                         ConfirmationValidation(message, url), Cap4Validation(code, message, force)] ::
              v.canContinue <==> !v.Print().forceCheck
  {
  }

  // ----- Evidence and actions -----

  datatype Phase = AffairLockCheck | TemplateCheck | Cap4FormSave | WorkflowSend

  datatype Kind = Response(phase: Phase) | PostSubmitDialog | NativeConfirmation | PreSubmitConfirmation

  datatype Entry = Entry(sequence: nat, kind: Kind, status: int, validated: Option<Fingerprint>)

  /** What is done to the page: a native dialog answered, or a Continue control clicked. */
  datatype Action =
    | Answered(kind: string, accepted: bool, validation: Option<Validation>)
    | Clicked(confirmed: Validation)

  predicate Numbered(evidence: seq<Entry>) {
    forall k :: 0 <= k < |evidence| ==> evidence[k].sequence == k + 1
  }

  predicate OncePerPrint(evidence: seq<Entry>) {
    forall j, k :: 0 <= j < k < |evidence| && evidence[j].validated.Some? ==>
      evidence[j].validated != evidence[k].validated
  }

  predicate SentIn(evidence: seq<Entry>) {
    exists k :: 0 <= k < |evidence| && evidence[k].kind == Response(WorkflowSend)
  }

  predicate ObservedIn(evidence: seq<Entry>, fingerprint: Fingerprint) {
    exists k :: 0 <= k < |evidence| && evidence[k].validated == Some(fingerprint)
  }

  /** What was clicked so far was continuable and authorized, and each fingerprint at most once. */
  predicate ClicksOnce(actions: seq<Action>, authorized: set<Fingerprint>) {
    && (forall k :: 0 <= k < |actions| && actions[k].Clicked? ==>
          actions[k].confirmed.canContinue && actions[k].confirmed.Print() in authorized)
    && forall j, k :: 0 <= j < k < |actions| && actions[j].Clicked? && actions[k].Clicked? ==>
         actions[j].confirmed.Print() != actions[k].confirmed.Print()
  }

  /** Confirm dialogs were accepted only if authorized. */
  predicate AcceptsAuthorized(actions: seq<Action>, authorized: set<Fingerprint>) {
    forall k :: 0 <= k < |actions| && actions[k].Answered? && actions[k].kind == "confirm" && actions[k].accepted ==>
      actions[k].validation.Some? && actions[k].validation.value.Print() in authorized
  }

  /** Every click but the last has been marked as continued, and the last one too unless it failed. */
  predicate ClicksMarked(actions: seq<Action>, continued: set<Fingerprint>) {
    forall k :: 0 <= k < |actions| && actions[k].Clicked? ==> actions[k].confirmed.Print() in continued
  }

  datatype Cap4Outcome = Unparsed | AcceptedSave | Refused(refusal: Validation)

  /** A control as the page shows it: whether it appears, how many are visible, whether the click goes through. */
  datatype PageView = PageView(frameUrls: seq<string>, appears: bool, visible: nat, clickable: bool)

  datatype Verdict = Continue | Blocked | ValidationRequired | OutcomeUnknown

  function Matching(urls: seq<string>, url: string): nat {
    if urls == [] then 0 else (if urls[0] == url then 1 else 0) + Matching(urls[1..], url)
  }

  /** The control can be told apart from everything else on the page. */
  predicate Reachable(page: PageView, frameUrl: string) {
    (frameUrl == "" || Matching(page.frameUrls, frameUrl) == 1) && page.appears && page.visible == 1
  }

  predicate IsPending(pending: Option<Validation>, validation: Validation) {
    pending.Some? && pending.value.Print() == validation.Print()
  }

  /** A validation that is already pending is not replaced, not even by its activated form. */
  function PendingAfter(pending: Option<Validation>, validation: Validation): Option<Validation> {
    if IsPending(pending, validation) then pending else Some(validation)
  }

  function EvidenceAfter(pending: Option<Validation>, evidence: seq<Entry>, validation: Validation, kind: Kind)
    : seq<Entry>
  {
    if IsPending(pending, validation) || ObservedIn(evidence, validation.Print()) || |evidence| >= MAX_EVIDENCE_ITEMS
    then evidence
    else evidence + [Entry(|evidence| + 1, kind, 0, Some(validation.Print()))]
  }

  /** A dialog that is not itself a validation: the page closing, or an alert after the final send. */
  predicate Passing(kind: string, evidence: seq<Entry>) {
    kind == "beforeunload" || (kind == "alert" && SentIn(evidence))
  }

  class Tracker {
    const authorized: set<Fingerprint>
    var evidence: seq<Entry>
    var pending: Option<Validation>
    var continued: set<Fingerprint>
    ghost var actions: seq<Action>

    ghost predicate Valid()
      reads this
    {
      && |evidence| <= MAX_EVIDENCE_ITEMS
      && Numbered(evidence)
      && OncePerPrint(evidence)
      && ClicksOnce(actions, authorized)
      && AcceptsAuthorized(actions, authorized)
    }

    constructor (authorized: set<Fingerprint>)
      ensures Valid() && evidence == [] && pending == None && continued == {} && actions == []
      ensures this.authorized == authorized
    {
      this.authorized := authorized;
      evidence, pending, continued, actions := [], None, {}, [];
    }

    method ObserveResponse(post: bool, phase: Option<Phase>, status: int, outcome: Cap4Outcome)
      requires Valid()
      modifies this`evidence, this`pending
      ensures Valid()
      ensures var seen := post && phase.Some? && |old(evidence)| < MAX_EVIDENCE_ITEMS;
              && evidence == (if seen
                              then old(evidence) + [Entry(|old(evidence)| + 1, Response(phase.value), status, None)]
                              else old(evidence))
              && pending == (if seen && phase.value == Cap4FormSave && outcome.Refused? then Some(outcome.refusal)
                             else old(pending))
    {
      if post && phase.Some? && |evidence| < MAX_EVIDENCE_ITEMS {
        var entry := Entry(|evidence| + 1, Response(phase.value), status, None);
        if phase.value == Cap4FormSave && outcome.Refused? {
          pending := Some(outcome.refusal);
        }
        evidence := evidence + [entry];
      }
    }

    method RecordValidation(validation: Validation, kind: Kind)
      requires Valid()
      modifies this`evidence, this`pending
      ensures Valid()
      ensures pending == PendingAfter(old(pending), validation)
      ensures evidence == EvidenceAfter(old(pending), old(evidence), validation, kind)
    {
      if pending.None? || pending.value.Print() != validation.Print() {
        pending := Some(validation);
        if !ObservedIn(evidence, validation.Print()) && |evidence| < MAX_EVIDENCE_ITEMS {
          evidence := evidence + [Entry(|evidence| + 1, kind, 0, Some(validation.Print()))];
        }
      }
    }

    /**
      A native dialog.  A confirm dialog is accepted if and only if its fingerprint is authorized, whether or
      not it was accepted before.
      */
    method ObserveDialog(kind: string, message: string)
      requires Valid()
      modifies this`evidence, this`pending, this`actions
      ensures Valid()
      ensures var validation := NativeValidation(kind, message);
              var allowed := kind == "confirm" && validation.Print() in authorized;
              if Passing(kind, old(evidence)) then
                && actions == old(actions) + [Answered(kind, true, None)]
                && pending == old(pending)
                && evidence == (if kind == "beforeunload" || |old(evidence)| >= MAX_EVIDENCE_ITEMS then old(evidence)
                                else old(evidence) + [Entry(|old(evidence)| + 1, PostSubmitDialog, 0, None)])
              else
                && actions == old(actions) + [Answered(kind, allowed || kind == "alert", Some(validation))]
                && pending == PendingAfter(old(pending), validation.(activated := allowed))
                && evidence == EvidenceAfter(old(pending), old(evidence), validation, NativeConfirmation)
    {
      if Passing(kind, evidence) {
        actions := actions + [Answered(kind, true, None)];
        if kind != "beforeunload" && |evidence| < MAX_EVIDENCE_ITEMS {
          evidence := evidence + [Entry(|evidence| + 1, PostSubmitDialog, 0, None)];
        }
      } else {
        AnswerDialog(kind, NativeValidation(kind, message));
      }
    }

    /** A native dialog that is a validation: answered first, recorded afterwards. */
    method AnswerDialog(kind: string, validation: Validation)
      requires Valid() && (validation.canContinue <==> kind == "confirm")
      modifies this`evidence, this`pending, this`actions
      ensures Valid()
      ensures var allowed := kind == "confirm" && validation.Print() in authorized;
              && actions == old(actions) + [Answered(kind, allowed || kind == "alert", Some(validation))]
              && pending == PendingAfter(old(pending), if allowed then validation.(activated := true) else validation)
              && evidence == EvidenceAfter(old(pending), old(evidence), validation, NativeConfirmation)
    {
      var allowed := validation.canContinue && validation.Print() in authorized;
      actions := actions + [Answered(kind, allowed || kind == "alert", Some(validation))];
      RecordValidation(if allowed then validation.(activated := true) else validation, NativeConfirmation);
    }

    method ObservePageConfirmation(validation: Option<Validation>)
      requires Valid()
      modifies this`evidence, this`pending
      ensures Valid()
      ensures validation.None? ==> evidence == old(evidence) && pending == old(pending)
      ensures validation.Some? ==>
                && pending == PendingAfter(old(pending), validation.value)
                && evidence == EvidenceAfter(old(pending), old(evidence), validation.value, PreSubmitConfirmation)
    {
      if validation.Some? {
        RecordValidation(validation.value, PreSubmitConfirmation);
      }
    }

    method MarkContinued()
      requires Valid()
      modifies this`pending, this`continued
      ensures Valid() && pending == None
      ensures continued == old(continued) + (if old(pending).Some? then {old(pending).value.Print()} else {})
    {
      if pending.Some? {
        continued := continued + {pending.value.Print()};
      }
      pending := None;
    }

    /**
      The Continue handler.  It clicks exactly when the pending validation can be continued, is authorized,
      was never continued, was not already activated, and its one control can be reached; it returns
      normally only with nothing pending.
      */
    method HandleBusinessValidation(page: PageView) returns (verdict: Verdict)
      requires Valid() && ClicksMarked(actions, continued)
      modifies this`pending, this`continued, this`actions
      ensures Valid()
      ensures verdict == Continue <==> old(pending).None? || pending.None?
      ensures verdict == Continue ==> pending.None? && ClicksMarked(actions, continued)
      ensures verdict != Continue ==> pending == old(pending) && continued == old(continued)
      ensures old(pending).None? ==> actions == old(actions) && continued == old(continued)
      ensures old(pending).Some? ==>
                var v := old(pending).value;
                var due := v.canContinue && v.Print() in authorized && v.Print() !in old(continued);
                && verdict == (if !v.canContinue then Blocked
                               else if v.Print() !in authorized then ValidationRequired
                               else if v.Print() in old(continued) then Blocked
                               else if v.activated || (Reachable(page, v.frameUrl) && page.clickable) then Continue
                               else OutcomeUnknown)
                && (verdict == Continue ==> continued == old(continued) + {v.Print()})
                && actions == (if due && !v.activated && Reachable(page, v.frameUrl)
                               then old(actions) + [Clicked(v)] else old(actions))
    {
      verdict := Continue;
      if pending.Some? {
        var v := pending.value;
        if !v.canContinue {
          verdict := Blocked;
        } else if v.Print() !in authorized {
          verdict := ValidationRequired;
        } else if v.Print() in continued {
          verdict := Blocked;
        } else if v.activated {
          MarkContinued();
        } else if !Reachable(page, v.frameUrl) {
          verdict := OutcomeUnknown;
        } else {
          actions := actions + [Clicked(v)];
          if page.clickable {
            MarkContinued();
          } else {
            verdict := OutcomeUnknown;
          }
        }
      }
    }
  }

  // ----- Whole submissions -----

  datatype Event =
    | HttpResponse(post: bool, phase: Option<Phase>, status: int, outcome: Cap4Outcome)
    | NativeDialog(kind: string, message: string)
    | PageConfirmation(validation: Option<Validation>)
    | Handler(page: PageView)

  /** What `f` finds in a sequence, in order. */
  function Collect<T>(s: seq<T>, f: T -> Option<Fingerprint>): seq<Fingerprint> {
    if s == [] then [] else Collect(s[..|s| - 1], f) + Found(f(s[|s| - 1]))
  }

  function Found(found: Option<Fingerprint>): seq<Fingerprint> {
    if found.Some? then [found.value] else []
  }

  lemma CollectNext<T>(s: seq<T>, next: T, f: T -> Option<Fingerprint>)
    ensures Collect(s + [next], f) == Collect(s, f) + Found(f(next))
  {
    assert (s + [next])[..|s|] == s;
  }

  lemma CollectPrefix<T>(s: seq<T>, i: nat, f: T -> Option<Fingerprint>)
    requires i < |s|
    ensures Collect(s[..i + 1], f) == Collect(s[..i], f) + Found(f(s[i]))
  {
    assert s[..i + 1] == s[..i] + [s[i]];
    CollectNext(s[..i], s[i], f);
  }

  /** The fingerprint of a confirm dialog that was accepted. */
  function Accepted(): Action -> Option<Fingerprint> {
    (action: Action) =>
      if action.Answered? && action.kind == "confirm" && action.accepted && action.validation.Some?
      then Some(action.validation.value.Print()) else None
  }

  /** The authorized fingerprint of a native confirm dialog that the page opens. */
  function Asked(authorized: set<Fingerprint>): Event -> Option<Fingerprint> {
    (event: Event) =>
      if event.NativeDialog? && event.kind == "confirm"
         && NativeValidation("confirm", event.message).Print() in authorized
      then Some(NativeValidation("confirm", event.message).Print()) else None
  }

  /** `f` finds `found` at two places. */
  ghost predicate FoundTwice<T>(s: seq<T>, f: T -> Option<Fingerprint>, found: Fingerprint) {
    exists j, k :: 0 <= j < k < |s| && f(s[j]) == f(s[k]) == Some(found)
  }

  function Count(prints: seq<Fingerprint>, found: Fingerprint): nat {
    multiset(prints)[found]
  }

  lemma CountLast<T>(s: seq<T>, f: T -> Option<Fingerprint>, found: Fingerprint)
    requires s != []
    ensures Count(Collect(s, f), found)
            == Count(Collect(s[..|s| - 1], f), found) + if f(s[|s| - 1]) == Some(found) then 1 else 0
  {
  }

  lemma {:induction false} CollectedOnce<T>(s: seq<T>, f: T -> Option<Fingerprint>, found: Fingerprint)
    ensures Count(Collect(s, f), found) >= 1 <==> exists k :: 0 <= k < |s| && f(s[k]) == Some(found)
  {
    if s != [] {
      CountLast(s, f, found);
      CollectedOnce(s[..|s| - 1], f, found);
      assert forall k :: 0 <= k < |s| - 1 ==> s[..|s| - 1][k] == s[k];
    }
  }

  lemma {:induction false} CollectedTwice<T>(s: seq<T>, f: T -> Option<Fingerprint>, found: Fingerprint)
    ensures Count(Collect(s, f), found) >= 2 <==> FoundTwice(s, f, found)
  {
    if s != [] {
      var before := s[..|s| - 1];
      CountLast(s, f, found);
      CollectedTwice(before, f, found);
      CollectedOnce(before, f, found);
      FoundTwiceLast(s, f, found);
    }
  }

  lemma FoundTwiceLast<T>(s: seq<T>, f: T -> Option<Fingerprint>, found: Fingerprint)
    requires s != []
    ensures var before := s[..|s| - 1];
            FoundTwice(s, f, found) <==>
              || FoundTwice(before, f, found)
              || (f(s[|s| - 1]) == Some(found) && exists k :: 0 <= k < |before| && f(before[k]) == Some(found))
  {
    var before := s[..|s| - 1];
    assert forall k :: 0 <= k < |before| ==> before[k] == s[k];
    if j, k :| 0 <= j < k < |s| && f(s[j]) == f(s[k]) == Some(found) {
      assert f(before[j]) == Some(found);
    }
    if j, k :| 0 <= j < k < |before| && f(before[j]) == f(before[k]) == Some(found) {
      assert f(s[j]) == f(s[k]) == Some(found);
    }
    if k :| f(s[|s| - 1]) == Some(found) && 0 <= k < |before| && f(before[k]) == Some(found) {
      assert f(s[k]) == f(s[|s| - 1]) == Some(found);
    }
  }

  /** What `f` finds twice in `s` is just what `g` finds twice in `t`. */
  ghost predicate SameRepeats<T, U>(s: seq<T>, f: T -> Option<Fingerprint>, t: seq<U>, g: U -> Option<Fingerprint>) {
    forall found :: FoundTwice(s, f, found) <==> FoundTwice(t, g, found)
  }

  /** What is found in the same order is found twice in both or in neither. */
  lemma RepeatsAreKept<T, U>(s: seq<T>, f: T -> Option<Fingerprint>, t: seq<U>, g: U -> Option<Fingerprint>)
    requires Collect(s, f) == Collect(t, g)
    ensures SameRepeats(s, f, t, g)
  {
    forall found ensures FoundTwice(s, f, found) <==> FoundTwice(t, g, found) {
      CollectedTwice(s, f, found);
      CollectedTwice(t, g, found);
    }
  }

  /** One event, where the handler is called only if no call of it has raised. */
  method Observe(tracker: Tracker, event: Event, verdict: Verdict) returns (next: Verdict)
    requires tracker.Valid() && (verdict == Continue ==> ClicksMarked(tracker.actions, tracker.continued))
    modifies tracker
    ensures tracker.Valid() && (next == Continue ==> ClicksMarked(tracker.actions, tracker.continued))
    ensures Collect(tracker.actions, Accepted())
            == Collect(old(tracker.actions), Accepted()) + Found(Asked(tracker.authorized)(event))
  {
    next := verdict;
    ghost var before := tracker.actions;
    match event
    case HttpResponse(post, phase, status, outcome) => tracker.ObserveResponse(post, phase, status, outcome);
    case NativeDialog(kind, message) => tracker.ObserveDialog(kind, message);
    case PageConfirmation(validation) => tracker.ObservePageConfirmation(validation);
    case Handler(page) =>
      if verdict == Continue {
        next := tracker.HandleBusinessValidation(page);
      }
    if tracker.actions != before {
      CollectNext(before, tracker.actions[|before|], Accepted());
    }
  }

  /**
    Any stream of events.  The handler is called no more once it has raised, though the observers stay
    installed.  Continue is clicked only for continuable, authorized fingerprints and at most once for each;
    the confirm dialogs accepted are exactly the authorized ones opened, in order and as often, so that one
    fingerprint is accepted twice if and only if two dialogs of that authorized fingerprint are opened;
    the evidence is numbered 1 to at most 20, with at most one entry for each validation fingerprint.
    */
  method Submit(tracker: Tracker, events: seq<Event>) returns (verdict: Verdict)
    requires tracker.Valid() && tracker.actions == [] && tracker.evidence == []
    modifies tracker
    ensures ClicksOnce(tracker.actions, tracker.authorized)
    ensures AcceptsAuthorized(tracker.actions, tracker.authorized)
    ensures Collect(tracker.actions, Accepted()) == Collect(events, Asked(tracker.authorized))
    ensures SameRepeats(tracker.actions, Accepted(), events, Asked(tracker.authorized))
    ensures |tracker.evidence| <= MAX_EVIDENCE_ITEMS && Numbered(tracker.evidence) && OncePerPrint(tracker.evidence)
  {
    verdict := Continue;
    for i := 0 to |events|
      invariant tracker.Valid()
      invariant verdict == Continue ==> ClicksMarked(tracker.actions, tracker.continued)
      invariant Collect(tracker.actions, Accepted()) == Collect(events[..i], Asked(tracker.authorized))
    {
      verdict := Observe(tracker, events[i], verdict);
      CollectPrefix(events, i, Asked(tracker.authorized));
    }
    assert events[..|events|] == events;
    RepeatsAreKept(tracker.actions, Accepted(), events, Asked(tracker.authorized));
  }

  /**
    A confirm dialog that comes back is accepted again, by any tracker without history that has it authorized:
    continuing is remembered for clicks, not for native dialogs.
    */
  method NativeDialogAcceptedTwice(tracker: Tracker, message: string, page: PageView) returns (events: seq<Event>)
    requires tracker.Valid() && tracker.actions == [] && tracker.evidence == []
    requires NativeValidation("confirm", message).Print() in tracker.authorized
    modifies tracker
    ensures var dialog := NativeDialog("confirm", message);
            events == [dialog, Handler(page), dialog, Handler(page)]
    ensures SameRepeats(tracker.actions, Accepted(), events, Asked(tracker.authorized))
    ensures FoundTwice(tracker.actions, Accepted(), NativeValidation("confirm", message).Print())
  {
    var dialog := NativeDialog("confirm", message);
    events := [dialog, Handler(page), dialog, Handler(page)];
    var _ := Submit(tracker, events);
    ghost var asked, authorized := Asked(tracker.authorized), NativeValidation("confirm", message).Print();
    assert asked(events[0]) == asked(events[2]) == Some(authorized);
  }

  /** The handler lets the first of the two dialogs pass, and stops the submission only after the second. */
  method HandlerStopsAfterwards(tracker: Tracker, message: string, page: PageView)
    returns (first: Verdict, second: Verdict)
    requires tracker.Valid() && tracker.actions == [] && tracker.pending == None && tracker.continued == {}
    requires NativeValidation("confirm", message).Print() in tracker.authorized
    modifies tracker
    ensures var answer := Answered("confirm", true, Some(NativeValidation("confirm", message)));
            tracker.actions == [answer, answer]
    ensures first == Continue && second == Blocked
  {
    tracker.ObserveDialog("confirm", message);
    first := tracker.HandleBusinessValidation(page);
    tracker.ObserveDialog("confirm", message);
    second := tracker.HandleBusinessValidation(page);
  }
}
