/** The two-step research-task wizard: verify an influencer by handle, then configure and
    submit a research task for it. The pure parts (error classifiers, field clamps, the
    journal toggle, the button guards, request construction) are functions; the state the
    component and its verification step hold across events is the class ResearchWizard. */
module ResearchTaskForm {
  import opened Wrappers
  import opened Text
  import opened ApiTypes

  datatype TimeRange = LastWeek | LastMonth | LastYear | AllTime

  /** The value a time-range option carries, and the `timeRange` string a request sends. */
  function TimeRangeValue(t: TimeRange): (v: string)
    ensures v == "all" <==> t == AllTime
    ensures t != AllTime ==> |v| > 5 && v[..5] == "last-"
  {
    match t
    case LastWeek => "last-week"
    case LastMonth => "last-month"
    case LastYear => "last-year"
    case AllTime => "all"
  }

  /** The time-range buttons, in the order they are drawn. */
  const TimeRangeOptions: seq<TimeRange> := [LastWeek, LastMonth, LastYear, AllTime]

  /** Every range has a button, and the buttons carry the values "last-week",
      "last-month", "last-year" and "all", in that order. */
  lemma TimeRangeOptionValues()
    ensures forall t: TimeRange :: t in TimeRangeOptions
    ensures |TimeRangeOptions| == 4
    ensures TimeRangeValue(TimeRangeOptions[0]) == "last-week" && TimeRangeValue(TimeRangeOptions[1]) == "last-month"
    ensures TimeRangeValue(TimeRangeOptions[2]) == "last-year" && TimeRangeValue(TimeRangeOptions[3]) == "all"
  {
    forall t: TimeRange ensures t in TimeRangeOptions {
      assert t == TimeRangeOptions[0] || t == TimeRangeOptions[1] || t == TimeRangeOptions[2] || t == TimeRangeOptions[3];
    }
  }

  /** The option values are distinct, so the highlighted time-range button (the one whose
      value equals the draft's) is exactly the one last chosen. */
  lemma HighlightedOptionIsSelected(chosen: TimeRange, option: TimeRange)
    ensures TimeRangeValue(option) == TimeRangeValue(chosen) <==> option == chosen
  {
  }

  /** The journals offered as checkboxes. */
  const Journals: seq<string> := [
    "PubMed Central", "Nature", "Science", "Cell", "The Lancet", "JAMA Network",
    "New England Journal of Medicine"]

  /** Seven checkboxes, each journal offered once, starting with the two selected by
      default. */
  lemma JournalOptions()
    ensures |Journals| == 7 && NoDuplicates(Journals)
    ensures Journals[0] == "PubMed Central" && Journals[1] == "Nature"
  {
  }

  /** The configuration draft; `maxTokens` is sent as `max_tokens`. */
  datatype ResearchFormData = ResearchFormData(
    timeRange: TimeRange,
    claimsCount: int,
    maxTokens: int,
    selectedJournals: seq<string>,
    notes: string)

  /** The ranges every field handler keeps the numeric fields in. */
  predicate DraftInRange(d: ResearchFormData) {
    1 <= d.claimsCount <= 100 && d.maxTokens >= 1024
  }

  /** The draft the form starts with: in range, and submittable as it stands. */
  function InitialDraft(): (d: ResearchFormData)
    ensures DraftInRange(d)
    ensures d.timeRange == LastMonth && TimeRangeValue(d.timeRange) == "last-month" && d.notes == ""
    ensures |d.selectedJournals| > 0 && NoDuplicates(d.selectedJournals)
    ensures forall i :: 0 <= i < |d.selectedJournals| ==> d.selectedJournals[i] in Journals
  {
    ResearchFormData(LastMonth, 50, 2048, ["PubMed Central", "Nature"], "")
  }

  const UnexpectedVerifyMessage: string := "An unexpected error occurred. Please try again later."
  const UnexpectedSubmitMessage: string := "An unexpected error occurred"
  const NoInfluencerSelected: string := "No influencer selected"

  predicate IsNotFound(e: ErrorValue) {
    e.Axios? && e.response.Some? && e.response.value.status == 404
  }

  /** The verification step's error line. Only a 404 from the backend shows the server's
      own message (an absent message shows nothing); every other failure shows the fixed
      fallback, and no failure shows nothing. */
  function VerifyErrorMessage(error: Option<ErrorValue>): (m: string)
    ensures error.None? ==> m == ""
    ensures error.Some? && IsNotFound(error.value) ==> m == error.value.response.value.data.message.GetOr("")
    ensures error.Some? && !IsNotFound(error.value) ==> m == UnexpectedVerifyMessage
  {
    match error
    case None => ""
    case Some(Axios(Some(response))) =>
      if response.status == 404 then response.data.message.GetOr("") else UnexpectedVerifyMessage
    case Some(_) => UnexpectedVerifyMessage
  }

  /** The text of a non-404 failure never reaches the user. */
  lemma VerifyMessageHidesErrorText(x: string, y: string, r: HttpResponse)
    requires r.status != 404
    ensures VerifyErrorMessage(Some(PlainError(x))) == VerifyErrorMessage(Some(PlainError(y)))
    ensures VerifyErrorMessage(Some(Axios(Some(r)))) == VerifyErrorMessage(Some(Other))
  {
  }

  /** The submission error heading: a non-empty server message for a backend failure, the
      message of any other `Error`, and the fallback otherwise. */
  function SubmitErrorMessage(e: ErrorValue): (m: string)
    ensures e.Axios? && e.response.Some? && e.response.value.data.message.GetOr("") != "" ==>
      m == e.response.value.data.message.value
    ensures e.Axios? && (e.response.None? || e.response.value.data.message.GetOr("") == "") ==>
      m == UnexpectedSubmitMessage
    ensures e.PlainError? ==> m == e.message
    ensures e.Other? ==> m == UnexpectedSubmitMessage
  {
    match e
    case Axios(response) =>
      var message := if response.Some? then response.value.data.message.GetOr("") else "";
      if message != "" then message else UnexpectedSubmitMessage
    case PlainError(message) => message
    case Other => UnexpectedSubmitMessage
  }

  /** The submission error's detail text: only a backend response body supplies one. */
  function SubmitErrorDetails(e: ErrorValue): (d: Option<string>)
    ensures d.Some? <==> e.Axios? && e.response.Some? && e.response.value.data.details.Some?
    ensures d.Some? ==> d.value == e.response.value.data.details.value
  {
    if e.Axios? && e.response.Some? then e.response.value.data.details else None
  }

  /** `parseInt(value) || fallback`: NaN (None) and 0 are both falsy. */
  function ParsedOr(parsed: Option<int>, fallback: int): (n: int)
    ensures parsed.Some? && parsed.value != 0 ==> n == parsed.value
    ensures parsed.None? || parsed.value == 0 ==> n == fallback
  {
    if parsed.Some? && parsed.value != 0 then parsed.value else fallback
  }

  function Min(a: int, b: int): int { if a <= b then a else b }
  function Max(a: int, b: int): int { if a >= b then a else b }

  /** The claims-count handler: always within [1, 100], keeping values already in range. */
  function ClampClaimsCount(parsed: Option<int>): (n: int)
    ensures 1 <= n <= 100
    ensures parsed.Some? && 1 <= parsed.value <= 100 ==> n == parsed.value
    ensures parsed.Some? && parsed.value > 100 ==> n == 100
    ensures parsed.None? || parsed.value < 1 ==> n == 1
  {
    Min(100, Max(1, ParsedOr(parsed, 1)))
  }

  /** The max-tokens handler: at least 1024, keeping larger values exactly (no step rounding). */
  function ClampMaxTokens(parsed: Option<int>): (n: int)
    ensures n >= 1024
    ensures parsed.Some? && parsed.value >= 1024 ==> n == parsed.value
    ensures parsed.None? || parsed.value < 1024 ==> n == 1024
  {
    Max(1024, ParsedOr(parsed, 1024))
  }

  /** `r` is `s` with some entries dropped and the rest in their original order. */
  predicate IsSubsequence(r: seq<string>, s: seq<string>)
    decreases |s|
  {
    if r == [] then true
    else if s == [] then false
    else if r[|r| - 1] == s[|s| - 1] then IsSubsequence(r[..|r| - 1], s[..|s| - 1])
    else IsSubsequence(r, s[..|s| - 1])
  }

  /** Appending one entry to `s` keeps `r` a subsequence, whether `r` takes it or not. */
  lemma SubsequenceExtend(r: seq<string>, s: seq<string>, x: string, take: bool)
    requires IsSubsequence(r, s)
    requires !take ==> x !in r
    ensures IsSubsequence(r + (if take then [x] else []), s + [x])
  {
    var t := s + [x];
    assert t[..|t| - 1] == s;
    if take {
      var u := r + [x];
      assert u[..|u| - 1] == r;
    } else {
      assert r + [] == r;
      assert r != [] ==> r[|r| - 1] != x;
    }
  }

  /** `selected.filter(j => j !== journal)`: every other entry, with its multiplicity and
      in its original order. */
  function WithoutJournal(selected: seq<string>, journal: string): (r: seq<string>)
    ensures forall x :: x in r <==> x in selected && x != journal
    ensures multiset(r) == multiset(selected)[journal := 0]
    ensures IsSubsequence(r, selected)
    ensures journal !in selected ==> r == selected
  {
    if selected == [] then []
    else
      var init := selected[..|selected| - 1];
      var last := selected[|selected| - 1];
      assert selected == init + [last];
      var rest := WithoutJournal(init, journal);
      assert multiset(selected) == multiset(init) + multiset{last};
      SubsequenceExtend(rest, init, last, last != journal);
      if last == journal then
        assert rest + [] == rest;
        rest
      else
        assert multiset(rest + [last]) == multiset(rest) + multiset{last};
        rest + [last]
  }

  /** Filtering keeps a list free of repeats. */
  lemma {:induction false} WithoutJournalKeepsNoDuplicates(selected: seq<string>, journal: string)
    requires NoDuplicates(selected)
    ensures NoDuplicates(WithoutJournal(selected, journal))
  {
    if selected != [] {
      var init := selected[..|selected| - 1];
      var last := selected[|selected| - 1];
      assert NoDuplicates(init) by {
        forall i, j | 0 <= i < j < |init| ensures init[i] != init[j] {
          assert init[i] == selected[i] && init[j] == selected[j];
        }
      }
      WithoutJournalKeepsNoDuplicates(init, journal);
      assert last !in init by {
        forall i | 0 <= i < |init| ensures init[i] != last {
          assert init[i] == selected[i];
        }
      }
    }
  }

  /** A journal checkbox change: checking appends the journal, unchecking removes every
      occurrence of it. */
  function ToggledJournals(selected: seq<string>, journal: string, checked: bool): (r: seq<string>)
    ensures checked ==> r == selected + [journal]
    ensures !checked ==> journal !in r && multiset(r) == multiset(selected)[journal := 0]
    ensures !checked ==> IsSubsequence(r, selected)
    ensures !checked ==> forall x :: x != journal ==> (x in r <==> x in selected)
  {
    if checked then selected + [journal] else WithoutJournal(selected, journal)
  }

  /** Checking a journal that was not selected and unchecking it again restores the list. */
  lemma CheckThenUncheckRestores(selected: seq<string>, journal: string)
    requires journal !in selected
    ensures ToggledJournals(ToggledJournals(selected, journal, true), journal, false) == selected
  {
    var s := selected + [journal];
    assert s[..|s| - 1] == selected;
  }

  /** A controlled checkbox reports `checked` exactly when the journal was not selected;
      such changes never introduce a duplicate. */
  lemma ControlledToggleKeepsNoDuplicates(selected: seq<string>, journal: string, checked: bool)
    requires NoDuplicates(selected) && checked == (journal !in selected)
    ensures NoDuplicates(ToggledJournals(selected, journal, checked))
  {
    if !checked {
      WithoutJournalKeepsNoDuplicates(selected, journal);
    }
  }

  /** The Verify button: enabled exactly when the handle has a non-space character and no
      verification is in flight. */
  function VerifyEnabled(handle: string, isPending: bool): (b: bool)
    ensures b <==> !isPending && !AllSpace(handle)
  {
    Trim(handle) != "" && !isPending
  }

  /** The Start Research button: enabled exactly when no submission is in flight and
      some journal is selected. */
  function SubmitEnabled(isSubmitting: bool, d: ResearchFormData): (b: bool)
    ensures b <==> !isSubmitting && d.selectedJournals != []
  {
    !(isSubmitting || |d.selectedJournals| == 0)
  }

  datatype ResearchTaskRequest = ResearchTaskRequest(
    influencerId: int,
    timeRange: TimeRange,
    claimsCount: int,
    maxTokens: int,
    selectedJournals: seq<string>,
    notes: string)

  /** The draft fields a request carries. */
  function DraftOf(r: ResearchTaskRequest): ResearchFormData {
    ResearchFormData(r.timeRange, r.claimsCount, r.maxTokens, r.selectedJournals, r.notes)
  }

  /** The mutation body: the verified influencer's id plus the draft fields unchanged, or
      the error thrown when no influencer is verified. */
  function BuildRequest(verified: Option<InfluencerVerifyResponse>, d: ResearchFormData): (r: Result<ResearchTaskRequest, ErrorValue>)
    ensures verified.None? ==> r == Failure(PlainError(NoInfluencerSelected))
    ensures verified.Some? ==> r.Success? && r.value.influencerId == verified.value.id && DraftOf(r.value) == d
  {
    match verified
    case None => Failure(PlainError(NoInfluencerSelected))
    case Some(v) => Success(ResearchTaskRequest(v.id, d.timeRange, d.claimsCount, d.maxTokens, d.selectedJournals, d.notes))
  }

  /** With no influencer, the panel reads "No influencer selected" and has no details. */
  lemma MissingInfluencerMessage(d: ResearchFormData)
    ensures var e := BuildRequest(None, d).error;
      SubmitErrorMessage(e) == NoInfluencerSelected && SubmitErrorDetails(e).None?
  {
  }

  /** The route pushed after a successful submission: `/research/${verified?.id}`. */
  function ResearchRoute(verified: Option<InfluencerVerifyResponse>): (route: string)
    ensures |route| > 10 && route[..10] == "/research/"
    ensures verified.Some? && verified.value.id >= 0 ==> IsDecimalOf(route[10..], verified.value.id)
    ensures verified.Some? && verified.value.id < 0 ==>
      route[10] == '-' && IsDecimalOf(route[11..], -verified.value.id)
    ensures verified.None? ==> route[10..] == "undefined"
  {
    var tail := if verified.Some? then IntToString(verified.value.id) else "undefined";
    var route := "/research/" + tail;
    assert route[10..] == tail && route[11..] == tail[1..];
    route
  }

  /** The state of one mutation as the component sees it. */
  datatype Attempt = Idle | Pending | Failed(error: ErrorValue) | Succeeded

  datatype ErrorPanel = ErrorPanel(message: string, details: Option<string>)

  /** What the wizard shows: the handle form, or the verified card with the configuration. */
  datatype StepView =
    | VerificationStep(handle: string, message: string, canVerify: bool)
    | Configuration(name: string, description: string, tags: seq<string>, draft: ResearchFormData,
                    canSubmit: bool, panel: Option<ErrorPanel>)

  class ResearchWizard {
    /** The verification step's own state; while step 2 is shown that component is
        unmounted, and it starts again from an empty handle and an idle mutation. */
    var handle: string
    var verify: Attempt
    /** The parent's state. */
    var verified: Option<InfluencerVerifyResponse>
    var draft: ResearchFormData
    var submit: Attempt

    ghost predicate Valid()
      reads this
    {
      DraftInRange(draft) && !verify.Succeeded? &&
      (verified.Some? ==> handle == "" && verify == Idle)
    }

    constructor ()
      ensures Valid()
      ensures handle == "" && verify == Idle && verified == None
      ensures draft == InitialDraft() && submit == Idle
    {
      handle := "";
      verify := Idle;
      verified := None;
      draft := InitialDraft();
      submit := Idle;
    }

    /** The verification step's error line over the wizard state: empty unless the last
        attempt failed, and then the classified message of that failure. */
    function VerifyMessage(): (m: string)
      reads this
      ensures !verify.Failed? ==> m == ""
      ensures verify.Failed? && !IsNotFound(verify.error) ==> m == UnexpectedVerifyMessage
      ensures verify.Failed? && IsNotFound(verify.error) ==>
        m == verify.error.response.value.data.message.GetOr("")
    {
      VerifyErrorMessage(if verify.Failed? then Some(verify.error) else None)
    }

    function SubmitPanel(): (p: Option<ErrorPanel>)
      reads this
      ensures p.Some? <==> submit.Failed?
      ensures p.Some? ==> p.value.message == SubmitErrorMessage(submit.error)
      ensures p.Some? && p.value.details.Some? ==> p.value.details == SubmitErrorDetails(submit.error) && p.value.details.value != ""
      ensures p.Some? ==> (p.value.details.Some? <==>
        SubmitErrorDetails(submit.error).Some? && SubmitErrorDetails(submit.error).value != "")
    {
      if submit.Failed? then
        var d := SubmitErrorDetails(submit.error);
        Some(ErrorPanel(SubmitErrorMessage(submit.error), if d.Some? && d.value != "" then d else None))
      else None
    }

    /** Step 2 appears exactly when an influencer is verified; step 1 shows the handle as
        typed, and step 2's card shows the influencer's name, description and at most
        three tags. */
    function View(): (v: StepView)
      reads this
      ensures v.Configuration? <==> verified.Some?
      ensures v.VerificationStep? ==> v.handle == handle
      ensures v.Configuration? ==> v.name == verified.value.mainName && v.description == verified.value.description
      ensures v.VerificationStep? ==> v.canVerify == VerifyEnabled(handle, verify.Pending?) && v.message == VerifyMessage()
      ensures v.Configuration? ==> v.tags == ShownTags(verified.value.contentTags) && v.draft == draft
      ensures v.Configuration? ==> v.canSubmit == SubmitEnabled(submit.Pending?, draft) && v.panel == SubmitPanel()
    {
      match verified
      case None => VerificationStep(handle, VerifyMessage(), VerifyEnabled(handle, verify.Pending?))
      case Some(v) => Configuration(v.mainName, v.description, ShownTags(v.contentTags), draft,
                                    SubmitEnabled(submit.Pending?, draft), SubmitPanel())
    }

    /** Typing in the handle field stores the text and clears a failed verification. */
    method EditHandle(text: string)
      requires Valid() && verified.None?
      modifies this
      ensures Valid()
      ensures handle == text
      ensures verify == if old(verify).Failed? then Idle else old(verify)
      ensures old(verify).Failed? ==> VerifyMessage() == ""
      ensures verified == old(verified) && draft == old(draft) && submit == old(submit)
    {
      handle := text;
      if verify.Failed? {
        verify := Idle;
      }
    }

    /** Clicking Verify: when enabled, sends the handle as typed and starts the attempt. */
    method ClickVerify() returns (sent: Option<string>)
      requires Valid() && verified.None?
      modifies this
      ensures Valid()
      ensures sent.Some? <==> !old(verify).Pending? && !AllSpace(old(handle))
      ensures sent.Some? ==> sent.value == old(handle) && !AllSpace(sent.value) && verify == Pending
      ensures sent.None? ==> verify == old(verify)
      ensures handle == old(handle) && verified == old(verified) && draft == old(draft) && submit == old(submit)
    {
      if VerifyEnabled(handle, verify.Pending?) {
        sent := Some(handle);
        verify := Pending;
      } else {
        sent := None;
      }
    }

    /** The verification settles: success hands the identity to the parent (and the step's
        own state is discarded); failure keeps the handle and records the error. */
    method VerifySettled(outcome: Result<InfluencerVerifyResponse, ErrorValue>)
      requires Valid() && verified.None? && verify.Pending?
      modifies this
      ensures Valid()
      ensures outcome.Success? ==> verified == Some(outcome.value) && handle == "" && verify == Idle
      ensures outcome.Failure? ==> verified == None && handle == old(handle) && verify == Failed(outcome.error)
      ensures draft == old(draft) && submit == old(submit)
    {
      match outcome
      case Success(identity) =>
        verified := Some(identity);
        handle := "";
        verify := Idle;
      case Failure(e) =>
        verify := Failed(e);
    }

    /** "Change": forgets the verified influencer and shows a fresh verification step; the
        draft and the submission state are kept. */
    method Change()
      requires Valid() && verified.Some?
      modifies this
      ensures Valid()
      ensures verified == None && handle == "" && verify == Idle
      ensures draft == old(draft) && submit == old(submit)
    {
      verified := None;
    }

    method SelectTimeRange(t: TimeRange)
      requires Valid()
      modifies this
      ensures Valid()
      ensures draft == old(draft).(timeRange := t)
      ensures handle == old(handle) && verify == old(verify) && verified == old(verified) && submit == old(submit)
    {
      draft := draft.(timeRange := t);
    }

    method ChangeClaimsCount(parsed: Option<int>)
      requires Valid()
      modifies this
      ensures Valid()
      ensures draft == old(draft).(claimsCount := ClampClaimsCount(parsed))
      ensures handle == old(handle) && verify == old(verify) && verified == old(verified) && submit == old(submit)
    {
      draft := draft.(claimsCount := ClampClaimsCount(parsed));
    }

    method ChangeMaxTokens(parsed: Option<int>)
      requires Valid()
      modifies this
      ensures Valid()
      ensures draft == old(draft).(maxTokens := ClampMaxTokens(parsed))
      ensures handle == old(handle) && verify == old(verify) && verified == old(verified) && submit == old(submit)
    {
      draft := draft.(maxTokens := ClampMaxTokens(parsed));
    }

    method ToggleJournal(journal: string, checked: bool)
      requires Valid()
      modifies this
      ensures Valid()
      ensures draft == old(draft).(selectedJournals := ToggledJournals(old(draft.selectedJournals), journal, checked))
      ensures handle == old(handle) && verify == old(verify) && verified == old(verified) && submit == old(submit)
    {
      draft := draft.(selectedJournals := ToggledJournals(draft.selectedJournals, journal, checked));
    }

    method ChangeNotes(text: string)
      requires Valid()
      modifies this
      ensures Valid()
      ensures draft == old(draft).(notes := text)
      ensures handle == old(handle) && verify == old(verify) && verified == old(verified) && submit == old(submit)
    {
      draft := draft.(notes := text);
    }

    /** Clicking Start Research: when enabled, sends the request built from the verified id
        and the draft; with no verified influencer the attempt fails at once. */
    method ClickSubmit() returns (sent: Option<ResearchTaskRequest>)
      requires Valid()
      modifies this
      ensures Valid()
      ensures sent.Some? ==> old(SubmitEnabled(submit.Pending?, draft)) && |sent.value.selectedJournals| > 0
      ensures !old(SubmitEnabled(submit.Pending?, draft)) ==> sent.None? && submit == old(submit)
      ensures old(SubmitEnabled(submit.Pending?, draft)) && old(verified).None? ==>
        sent.None? && submit == Failed(PlainError(NoInfluencerSelected))
      ensures old(SubmitEnabled(submit.Pending?, draft)) && old(verified).Some? ==>
        sent == Some(BuildRequest(old(verified), old(draft)).value) && submit == Pending
      ensures handle == old(handle) && verify == old(verify) && verified == old(verified) && draft == old(draft)
    {
      sent := None;
      if SubmitEnabled(submit.Pending?, draft) {
        match BuildRequest(verified, draft)
        case Success(request) =>
          sent := Some(request);
          submit := Pending;
        case Failure(e) =>
          submit := Failed(e);
      }
    }

    /** The submission settles: success navigates to the research route of the influencer
        verified at that moment, once; failure records the error for the panel. */
    method SubmitSettled(outcome: Result<(), ErrorValue>) returns (route: Option<string>)
      requires Valid() && submit.Pending?
      modifies this
      ensures Valid()
      ensures outcome.Success? ==> submit == Succeeded && route == Some(ResearchRoute(verified))
      ensures outcome.Failure? ==> submit == Failed(outcome.error) && route.None?
      ensures handle == old(handle) && verify == old(verify) && verified == old(verified) && draft == old(draft)
    {
      match outcome
      case Success(_) =>
        submit := Succeeded;
        route := Some(ResearchRoute(verified));
      case Failure(e) =>
        submit := Failed(e);
        route := None;
    }
  }
}
