/** Event sequences through the research-task wizard, proved from the class's contracts
    alone. */
module WizardScenarios {
  import opened Wrappers
  import opened ApiTypes
  import opened ResearchTaskForm
  import opened Text

  /** A 404 with message "not found" shows exactly that text; the next keystroke clears
      it before any new request can be sent. */
  method NotFoundThenEdit() returns (shown: string, afterEdit: string, resent: Option<string>)
    ensures shown == "not found" && afterEdit == ""
    ensures resent == Some("dr x")
  {
    var w := new ResearchWizard();
    w.EditHandle("dr");
    assert !IsJsSpace("dr"[0]);
    var sent := w.ClickVerify();
    assert sent == Some("dr");
    var body := ApiError(Some("not found"), None, None, Some(404));
    w.VerifySettled(Failure(Axios(Some(HttpResponse(404, body)))));
    shown := w.VerifyMessage();
    w.EditHandle("dr x");
    assert !IsJsSpace("dr x"[0]);
    afterEdit := w.VerifyMessage();
    resent := w.ClickVerify();
  }

  /** A handle of blanks never produces a request, however often Verify is clicked. */
  method BlankHandleSendsNothing() returns (first: Option<string>, second: Option<string>)
    ensures first.None? && second.None?
  {
    var w := new ResearchWizard();
    w.EditHandle(" \t ");
    assert AllSpace(" \t ") by {
      assert " \t "[1..] == "\t " && "\t "[1..] == " " && " "[1..] == "";
    }
    first := w.ClickVerify();
    second := w.ClickVerify();
  }

  /** A fresh wizard taken through a successful verification of `identity`. */
  method VerifiedWizard(identity: InfluencerVerifyResponse) returns (w: ResearchWizard)
    ensures fresh(w) && w.Valid()
    ensures w.verified == Some(identity) && w.draft == InitialDraft() && w.submit == Idle
  {
    w := new ResearchWizard();
    w.EditHandle("a");
    assert !IsJsSpace("a"[0]);
    var sent := w.ClickVerify();
    w.VerifySettled(Success(identity));
  }

  /** Unchecking "Nature" in the initial selection leaves "PubMed Central". */
  lemma UncheckSecondDefault()
    ensures WithoutJournal(InitialDraft().selectedJournals, "Nature") == ["PubMed Central"]
  {
    var initial := InitialDraft().selectedJournals;
    assert initial[..1] == ["PubMed Central"];
  }

  /** In a two-entry selection, unchecking the second entry and checking another journal
      replaces the second entry by it. */
  lemma SwapSecond(a: string, b: string, c: string)
    requires a != b
    ensures ToggledJournals(ToggledJournals([a, b], b, false), c, true) == [a, c]
  {
    var pair := [a, b];
    assert pair[..1] == [a];
    var unchecked := WithoutJournal(pair, b);
    assert unchecked == [a];
  }

  lemma SwapJournals()
    ensures ToggledJournals(ToggledJournals(InitialDraft().selectedJournals, "Nature", false), "Science", true)
      == ["PubMed Central", "Science"]
  {
    SwapSecond("PubMed Central", "Nature", "Science");
  }

  /** Unchecking Nature and checking Science in the initial selection. */
  method SwapNatureForScience(w: ResearchWizard)
    requires w.Valid() && w.draft.selectedJournals == InitialDraft().selectedJournals
    modifies w
    ensures w.Valid()
    ensures w.draft == old(w.draft).(selectedJournals := ["PubMed Central", "Science"])
    ensures w.handle == old(w.handle) && w.verify == old(w.verify)
    ensures w.verified == old(w.verified) && w.submit == old(w.submit)
  {
    SwapJournals();
    w.ToggleJournal("Nature", false);
    w.ToggleJournal("Science", true);
  }

  /** The draft after choosing last year, 25 claims, and swapping Nature for Science. */
  method ConfiguredWizard(identity: InfluencerVerifyResponse) returns (w: ResearchWizard)
    ensures fresh(w) && w.Valid()
    ensures w.verified == Some(identity) && w.submit == Idle
    ensures w.draft == ResearchFormData(LastYear, 25, 2048, ["PubMed Central", "Science"], "")
  {
    w := VerifiedWizard(identity);
    w.SelectTimeRange(LastYear);
    w.ChangeClaimsCount(Some(25));
    assert w.draft == InitialDraft().(timeRange := LastYear, claimsCount := 25);
    SwapNatureForScience(w);
  }

  /** Verify, configure, submit, succeed: the request carries the verified id and the
      draft, and the route names that id. */
  method ConfigureAndSubmit(identity: InfluencerVerifyResponse) returns (request: Option<ResearchTaskRequest>, route: Option<string>)
    ensures request.Some? && request.value.influencerId == identity.id
    ensures request.value.timeRange == LastYear && request.value.claimsCount == 25
    ensures request.value.selectedJournals == ["PubMed Central", "Science"]
    ensures route == Some(ResearchRoute(Some(identity)))
  {
    var w := ConfiguredWizard(identity);
    request := w.ClickSubmit();
    route := w.SubmitSettled(Success(()));
  }

  /** Unchecking every journal disables Start Research: clicking it sends nothing. */
  method EmptySelectionBlocksSubmit(identity: InfluencerVerifyResponse) returns (request: Option<ResearchTaskRequest>)
    ensures request.None?
  {
    var w := VerifiedWizard(identity);
    w.ToggleJournal("PubMed Central", false);
    w.ToggleJournal("Nature", false);
    request := w.ClickSubmit();
  }

  /** A submission still in flight when "Change" is clicked settles afterwards: nothing
      fences it off, and the route it yields names no influencer. */
  method LateSubmitAfterChange(identity: InfluencerVerifyResponse) returns (request: Option<ResearchTaskRequest>, route: Option<string>)
    ensures request.Some? && request.value.influencerId == identity.id
    ensures route == Some("/research/undefined")
  {
    var w := VerifiedWizard(identity);
    request := w.ClickSubmit();
    w.Change();
    route := w.SubmitSettled(Success(()));
    assert w.verified.None?;
    var text := ResearchRoute(None);
    assert text == text[..10] + text[10..];
    assert text == "/research/undefined";
  }

  /** "Change" keeps the configuration: a later verification submits the same draft. */
  method ChangeKeepsDraft(first: InfluencerVerifyResponse, second: InfluencerVerifyResponse) returns (request: Option<ResearchTaskRequest>)
    ensures request.Some? && request.value.influencerId == second.id && request.value.claimsCount == 100
  {
    var w := VerifiedWizard(first);
    w.ChangeClaimsCount(Some(150));
    w.Change();
    w.EditHandle("b");
    assert !IsJsSpace("b"[0]);
    var sent := w.ClickVerify();
    w.VerifySettled(Success(second));
    request := w.ClickSubmit();
  }
}
