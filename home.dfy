/**
 The home page (src/app/page.js): when a request may be sent, where it goes and with which
 payload, which field of the answer becomes the result, how a saved query refills the form,
 which nudge is offered after a result, and the micro-prompt payload overrides. The server's
 answers are parameters; `formatText` is not part of this model, so a result is held as the
 text handed to it.
 */
module Home {

  import opened Wrappers
  import opened Strings
  import Tags
  import opened Settings
  import SavedQueryList

  /** `canSubmit`. */
  predicate CanSubmit(mode: string, question: string, url: string, text: string, activeInputTab: string)
    ensures CanSubmit(mode, question, url, text, activeInputTab) ==>
              (activeInputTab == "url" && url != "") || (activeInputTab == "text" && text != "")
    ensures CanSubmit(mode, question, url, text, activeInputTab) && mode == "Ask" ==> question != ""
  {
    var hasContent := if activeInputTab == "url" then url != "" else if activeInputTab == "text" then text != "" else false;
    if mode == "Ask" then question != "" && hasContent else hasContent
  }

  /** The form can be sent exactly when the active tab has content, and in Ask mode a
      question is given too. */
  lemma SubmitRules(mode: string, question: string, url: string, text: string, activeInputTab: string)
    ensures activeInputTab == "url" ==>
              (CanSubmit(mode, question, url, text, activeInputTab) <==> url != "" && (mode == "Ask" ==> question != ""))
    ensures activeInputTab == "text" ==>
              (CanSubmit(mode, question, url, text, activeInputTab) <==> text != "" && (mode == "Ask" ==> question != ""))
    ensures activeInputTab != "url" && activeInputTab != "text" ==> !CanSubmit(mode, question, url, text, activeInputTab)
  {
  }

  /** Content on the other tab does not count. */
  lemma OtherTabIgnored(mode: string, question: string, url: string, text: string)
    ensures CanSubmit(mode, question, url, "", "url") == CanSubmit(mode, question, url, text, "url")
    ensures CanSubmit(mode, question, "", text, "text") == CanSubmit(mode, question, url, text, "text")
  {
  }

  /** The endpoint of a mode; any other mode goes to the summariser. */
  function Endpoint(mode: string): (r: string)
    ensures mode == "Ask" ==> r == "/api/qa"
    ensures mode == "Outline" ==> r == "/api/outline"
    ensures mode == "Citations" ==> r == "/api/citations"
    ensures mode != "Ask" && mode != "Outline" && mode != "Citations" ==> r == "/api/summarize"
  {
    var e0 := "/api/summarize";
    var e1 := if mode == "Ask" then "/api/qa" else e0;
    var e2 := if mode == "Outline" then "/api/outline" else e1;
    if mode == "Citations" then "/api/citations" else e2
  }

  /** The JSON body of a request; `None` is a key left `undefined`. */
  datatype Payload = Payload(
    url: Option<string>,
    text: Option<string>,
    language: string,
    interests: seq<string>,
    community: string,
    outputStyle: string,
    languageStyle: string,
    explainTerms: bool,
    keepTechnicalTerms: bool,
    question: Option<string>,
    includeExamples: Option<bool>)

  /** `x || undefined` for a string. */
  function Defined(x: string): (r: Option<string>)
    ensures r.None? <==> x == ""
    ensures r.Some? ==> r.value == x
  {
    if x == "" then None else Some(x)
  }

  /** The payload of `handleSubmit`: the inputs, the learner's settings and the page's
      style switches; the question travels only in Ask mode. */
  function BasePayload(mode: string, url: string, text: string, question: string, s: Settings,
                       languageStyle: string, explainTerms: bool, keepTechnicalTerms: bool): (p: Payload)
    ensures p.question.Some? <==> mode == "Ask"
    ensures p.question.Some? ==> p.question.value == question
    ensures p.url == Defined(url) && p.text == Defined(text) && p.includeExamples.None?
    ensures p.language == s.language && p.interests == s.interests && p.community == s.community
    ensures p.outputStyle == s.outputStyle && p.languageStyle == languageStyle
  {
    Payload(Defined(url), Defined(text), s.language, s.interests, s.community, s.outputStyle,
            languageStyle, explainTerms, keepTechnicalTerms,
            if mode == "Ask" then Some(question) else None, None)
  }

  /** The prompt ids the `switch` of `onPromptAction` handles. */
  const OverriddenIds: set<string> := {
    "summarize-shorter", "summarize-connect", "summarize-example", "ask-example", "ask-simplify",
    "outline-questions"}

  /** The prompt-specific changes of the payload. */
  function PromptPayload(promptId: string, p: Payload, s: Settings): (r: Payload)
    ensures promptId !in OverriddenIds ==> r == p
    ensures r.url == p.url && r.text == p.text && r.question == p.question
    ensures r.language == p.language && r.community == p.community
    ensures r.explainTerms == p.explainTerms && r.keepTechnicalTerms == p.keepTechnicalTerms
    ensures promptId == "summarize-shorter" ==> r == p.(outputStyle := "bullets", languageStyle := "everyday")
    ensures promptId in {"summarize-example", "ask-example"} ==>
              r == p.(languageStyle := "everyday", includeExamples := Some(true))
    ensures promptId == "ask-simplify" ==> r == p.(languageStyle := "everyday")
    ensures promptId == "outline-questions" ==> r == p.(outputStyle := "bullets")
  {
    if promptId == "summarize-shorter" then p.(outputStyle := "bullets", languageStyle := "everyday")
    // `settings.interests || "general"`: the interests are a list, and a list is truthy.
    else if promptId == "summarize-connect" then p.(interests := s.interests)
    else if promptId == "summarize-example" || promptId == "ask-example" then
      p.(languageStyle := "everyday", includeExamples := Some(true))
    else if promptId == "ask-simplify" then p.(languageStyle := "everyday")
    else if promptId == "outline-questions" then p.(outputStyle := "bullets")
    else p
  }

  /** "Connect it" on a summary sends the payload unchanged: the interests are always a
      list, so the `"general"` fallback is never taken. */
  lemma ConnectChangesNothing(mode: string, url: string, text: string, question: string, s: Settings,
                              languageStyle: string, explainTerms: bool, keepTechnicalTerms: bool)
    ensures var p := BasePayload(mode, url, text, question, s, languageStyle, explainTerms, keepTechnicalTerms);
            PromptPayload("summarize-connect", p, s) == p
  {
  }

  /** The fields of an answer the page reads. */
  datatype Answer = Answer(
    summary: Option<string>,
    answer: Option<string>,
    outline: Option<string>,
    formatted: Option<string>,
    suggestions: Option<string>)

  /** A mode other than the three whose answer has a field of its own. */
  predicate NotNamedMode(mode: string)
  {
    mode != "Summarize" && mode != "Ask" && mode != "Outline"
  }

  /** The text of the result (`out || ""`): the field of the mode; for citations the
      formatted list, else the suggestions, else `dump`, the pretty-printed answer. */
  function ResultText(mode: string, a: Answer, dump: string): (r: string)
    ensures mode == "Summarize" ==> r == OrElse(a.summary, "")
    ensures mode == "Ask" ==> r == OrElse(a.answer, "")
    ensures mode == "Outline" ==> r == OrElse(a.outline, "")
    ensures NotNamedMode(mode) && OrElse(a.formatted, "") != "" ==> r == a.formatted.value
    ensures NotNamedMode(mode) && OrElse(a.formatted, "") == "" && OrElse(a.suggestions, "") != "" ==>
              r == a.suggestions.value
    ensures NotNamedMode(mode) && OrElse(a.formatted, "") == "" && OrElse(a.suggestions, "") == "" ==>
              r == dump
  {
    var out :=
      if mode == "Summarize" then a.summary
      else if mode == "Ask" then a.answer
      else if mode == "Outline" then a.outline
      else Some(OrElse(a.formatted, OrElse(a.suggestions, dump)));
    OrElse(out, "")
  }

  /** How a request ended: an answer with its pretty-printed form, a response that is not
      ok with its `error`, or a thrown error with `String(err?.message || err)`. */
  datatype Outcome = Answered(answer: Answer, dump: string) | Refused(error: Option<string>) | Threw(message: string)

  /** What the page stores as the mode's result after a request. */
  function OutcomeText(mode: string, o: Outcome): (r: string)
    ensures o.Refused? ==> r == (if o.error.Some? && o.error.value != "" then o.error.value else "Request failed")
    ensures o.Threw? ==> r == (if o.message != "" then o.message else "Something went wrong.")
  {
    match o
    case Answered(a, dump) => ResultText(mode, a, dump)
    case Refused(error) => OrElse(error, "Request failed")
    case Threw(message) => OrElse(Some(message), "Something went wrong.")
  }

  /** The reading-level effect: "standard" reads academic, anything else everyday. */
  function LanguageStyleFor(defaultReadingLevel: string): (r: string)
    ensures r == "academic" <==> defaultReadingLevel == "standard"
    ensures r == "everyday" <==> defaultReadingLevel != "standard"
  {
    if defaultReadingLevel == "standard" then "academic" else "everyday"
  }

  /** The same effect sends a signed-in learner who has not onboarded to the wizard, judged
      on what the settings context hands out. */
  predicate RedirectsToOnboarding(v: ContextView, status: SessionStatus)
  {
    !v.isLoading && status == Authenticated && !v.settings.hasOnboarded
  }

  /** As written, the context stops reporting `isLoading` once the session is known, so a
      signed-in learner whose settings are still the defaults is sent to the wizard before the
      stored record, which may well say `hasOnboarded`, has arrived. */
  lemma RedirectBeforeSettingsLoad(userId: Option<string>)
    ensures RedirectsToOnboarding(ExposedViewAsWritten(Authenticated, userId, DefaultSettings), Authenticated)
  {
  }

  /** With `isLoading` covering the settings, no redirect happens while they load, and once
      they are loaded the redirect depends only on the learner's own record. */
  lemma NoRedirectWhileSettingsLoad(status: SessionStatus, userId: Option<string>, s: Settings, settingsLoading: bool)
    ensures settingsLoading ==> !RedirectsToOnboarding(ExposedView(status, userId, s, settingsLoading), status)
    ensures !settingsLoading ==>
              (RedirectsToOnboarding(ExposedView(status, userId, s, settingsLoading), status)
               <==> status == Authenticated && !s.hasOnboarded)
  {
  }

  /** The index of the first tag of `tags[k..]` whose nudge should show. */
  function FirstShown(s: Settings, tags: seq<string>, k: nat): (r: Option<nat>)
    requires k <= |tags|
    ensures r.Some? ==> k <= r.value < |tags|
    decreases |tags| - k
  {
    if k == |tags| then None
    else if ShouldShowNudge(s, tags[k]) then Some(k)
    else FirstShown(s, tags, k + 1)
  }

  /** `FirstShown` finds the first passing tag, and finds none only when none passes. */
  lemma {:induction false} FirstShownFinds(s: Settings, tags: seq<string>, k: nat)
    requires k <= |tags|
    ensures var r := FirstShown(s, tags, k);
            && (r.Some? ==> k <= r.value < |tags| && ShouldShowNudge(s, tags[r.value])
                            && forall j :: k <= j < r.value ==> !ShouldShowNudge(s, tags[j]))
            && (r.None? ==> forall j :: k <= j < |tags| ==> !ShouldShowNudge(s, tags[j]))
    decreases |tags| - k
  {
    if k < |tags| && !ShouldShowNudge(s, tags[k]) {
      FirstShownFinds(s, tags, k + 1);
    }
  }

  /** The nudge shown after a check: the first tag that passes, else the one shown before. */
  function NudgeAfter(s: Settings, shown: Option<string>): (r: Option<string>)
    ensures r != shown ==> r.Some? && r.value in Tags.NudgeOrder && ShouldShowNudge(s, r.value)
    ensures (exists t :: t in Tags.NudgeOrder && ShouldShowNudge(s, t)) ==> r.Some? && ShouldShowNudge(s, r.value)
  {
    FirstShownFinds(s, Tags.NudgeOrder, 0);
    match FirstShown(s, Tags.NudgeOrder, 0)
    case Some(k) => Some(Tags.NudgeOrder[k])
    case None => shown
  }

  /** After a check the first tag in the fixed order that passes is shown; when none
      passes, the nudge shown before stays. */
  lemma NudgeAfterSpec(s: Settings, shown: Option<string>)
    ensures (exists k :: 0 <= k < |Tags.NudgeOrder| && ShouldShowNudge(s, Tags.NudgeOrder[k])) ==>
              exists k :: 0 <= k < |Tags.NudgeOrder| && NudgeAfter(s, shown) == Some(Tags.NudgeOrder[k])
                          && ShouldShowNudge(s, Tags.NudgeOrder[k])
                          && forall j :: 0 <= j < k ==> !ShouldShowNudge(s, Tags.NudgeOrder[j])
    ensures (forall j :: 0 <= j < |Tags.NudgeOrder| ==> !ShouldShowNudge(s, Tags.NudgeOrder[j])) ==>
              NudgeAfter(s, shown) == shown
  {
    FirstShownFinds(s, Tags.NudgeOrder, 0);
  }

  class HomePage {

    var mode: string
    var url: string
    var text: string
    var question: string
    var activeInputTab: string
    var languageStyle: string
    var explainTerms: bool
    var keepTechnicalTerms: bool
    /** `results[mode]`. */
    var results: map<string, string>
    var showNudge: Option<string>
    var showMicroPrompt: bool
    var loading: bool

    constructor ()
      ensures mode == "Summarize" && url == "" && text == "" && question == "" && activeInputTab == "url"
      ensures languageStyle == "everyday" && explainTerms && !keepTechnicalTerms
      ensures results == map["Summarize" := "", "Ask" := "", "Outline" := "", "Citations" := ""]
      ensures showNudge.None? && !showMicroPrompt && !loading
    {
      mode := "Summarize";
      url := "";
      text := "";
      question := "";
      activeInputTab := "url";
      languageStyle := "everyday";
      explainTerms := true;
      keepTechnicalTerms := false;
      results := map["Summarize" := "", "Ask" := "", "Outline" := "", "Citations" := ""];
      showNudge := None;
      showMicroPrompt := false;
      loading := false;
    }

    /** `handleLoadQuery(savedQuery)`: the mode always, the url when there is one, and the
        query into the question in Ask mode or into the text otherwise, when there is one. */
    method HandleLoadQuery(q: SavedQueryList.SavedQuery)
      modifies this`mode, this`url, this`question, this`text
      ensures mode == q.mode
      ensures url == (if OrElse(q.url, "") != "" then q.url.value else old(url))
      ensures q.query != "" && q.mode == "Ask" ==> question == q.query && text == old(text)
      ensures q.query != "" && q.mode != "Ask" ==> text == q.query && question == old(question)
      ensures q.query == "" ==> question == old(question) && text == old(text)
    {
      mode := q.mode;
      if q.url.Some? && q.url.value != "" {
        url := q.url.value;
      }
      if q.query != "" {
        if q.mode == "Ask" {
          question := q.query;
        } else {
          text := q.query;
        }
      }
    }

    /** The reading-level effect, on the settings the context hands out; the result says
        whether the page redirects to onboarding. A signed-in learner whose record does not
        say `hasOnboarded` is redirected, whether or not their settings have finished loading. */
    method ReadingLevelChanged(store: SettingsStore) returns (redirect: bool)
      modifies this`languageStyle
      ensures languageStyle == LanguageStyleFor(store.View().settings.defaultReadingLevel)
      ensures redirect <==> RedirectsToOnboarding(store.View(), store.status)
      ensures redirect <==> store.status == Authenticated && !store.settings.hasOnboarded
    {
      var v := store.View();
      languageStyle := LanguageStyleFor(v.settings.defaultReadingLevel);
      redirect := !v.isLoading && store.status == Authenticated && !v.settings.hasOnboarded;
    }

    /** `checkForNudges()`: the first tag, in the fixed order, whose nudge should show;
        when there is none the nudge shown so far stays. */
    method CheckForNudges(store: SettingsStore)
      modifies this`showNudge
      ensures showNudge == NudgeAfter(store.settings, old(showNudge))
    {
      var i := 0;
      while i < |Tags.NudgeOrder|
        invariant 0 <= i <= |Tags.NudgeOrder|
        invariant FirstShown(store.settings, Tags.NudgeOrder, 0) == FirstShown(store.settings, Tags.NudgeOrder, i)
        invariant showNudge == old(showNudge)
      {
        if store.ShouldShow(Tags.NudgeOrder[i]) {
          showNudge := Some(Tags.NudgeOrder[i]);
          break;
        }
        i := i + 1;
      }
    }

    /** `handleNudgeApply` and `handleNudgeDismiss` both hide the nudge. */
    method HandleNudgeDone(tag: string)
      modifies this`showNudge
      ensures showNudge.None?
    {
      showNudge := None;
    }

    /** The endpoint and payload of `handleSubmit` for the form as it stands. */
    function SubmitRequest(s: Settings): (r: (string, Payload))
      reads this
      ensures r.0 == Endpoint(mode)
      ensures r.1.question.Some? <==> mode == "Ask"
      ensures r.1.url == Defined(url) && r.1.text == Defined(text)
      ensures r.1.language == s.language && r.1.interests == s.interests && r.1.community == s.community
      ensures r.1.outputStyle == s.outputStyle && r.1.languageStyle == languageStyle
    {
      (Endpoint(mode), BasePayload(mode, url, text, question, s, languageStyle, explainTerms, keepTechnicalTerms))
    }

    /** `handleSubmit`: nothing while a request runs or when the form cannot be sent;
        otherwise the request, then the mode's result and, after an answer, the nudge check. */
    method HandleSubmit(store: SettingsStore, outcome: Outcome) returns (request: Option<(string, Payload)>)
      modifies this`results, this`showNudge, this`showMicroPrompt, this`loading
      ensures !CanSubmit(mode, question, url, text, activeInputTab) || old(loading) ==>
                && request.None? && results == old(results) && showNudge == old(showNudge)
                && showMicroPrompt == old(showMicroPrompt) && loading == old(loading)
      ensures CanSubmit(mode, question, url, text, activeInputTab) && !old(loading) ==>
                && request == Some(SubmitRequest(store.View().settings))
                && results == old(results)[mode := OutcomeText(mode, outcome)]
                && !loading
                && showNudge == (if outcome.Answered? then NudgeAfter(store.settings, old(showNudge)) else old(showNudge))
                && showMicroPrompt == (if outcome.Answered? then false else old(showMicroPrompt))
    {
      if !CanSubmit(mode, question, url, text, activeInputTab) || loading {
        return None;
      }
      request := Some(SubmitRequest(store.View().settings));
      Respond(store, outcome);
    }

    /** The part of `handleSubmit` after the guard, once the request has settled: the outcome
        becomes the mode's result, an answer hides the micro-prompt bubble and runs the nudge
        check, and `loading` ends. */
    method Respond(store: SettingsStore, outcome: Outcome)
      modifies this`results, this`showNudge, this`showMicroPrompt, this`loading
      ensures results == old(results)[mode := OutcomeText(mode, outcome)] && !loading
      ensures showNudge == (if outcome.Answered? then NudgeAfter(store.settings, old(showNudge)) else old(showNudge))
      ensures showMicroPrompt == (if outcome.Answered? then false else old(showMicroPrompt))
    {
      results := results[mode := OutcomeText(mode, outcome)];
      if outcome.Answered? {
        showMicroPrompt := false;
        CheckForNudges(store);
      }
      loading := false;
    }

    /** `onPromptAction(promptId, action)`: the request of the mode with the prompt's changes
        to the payload; its outcome replaces the mode's result. */
    method HandlePromptAction(store: SettingsStore, promptId: string, outcome: Outcome) returns (request: (string, Payload))
      modifies this`results
      ensures request.0 == Endpoint(mode)
      ensures request.1 == PromptPayload(promptId, BasePayload(mode, url, text, question, store.View().settings,
                                                                languageStyle, explainTerms, keepTechnicalTerms), store.View().settings)
      ensures results == old(results)[mode := OutcomeText(mode, outcome)]
    {
      var base := BasePayload(mode, url, text, question, store.View().settings, languageStyle, explainTerms, keepTechnicalTerms);
      request := (Endpoint(mode), PromptPayload(promptId, base, store.View().settings));
      results := results[mode := OutcomeText(mode, outcome)];
    }

    /** `onPromptSkip`: the micro-prompt bubble is hidden. */
    method HandlePromptSkip(promptId: string)
      modifies this`showMicroPrompt
      ensures !showMicroPrompt
    {
      showMicroPrompt := false;
    }
  }

}
