/** The top-level component of src/App.tsx: the form, the configuration, the
    generated bullets and the handlers that move between them. React's state
    setters become field updates of one object; the network is `fetch`, and the
    id and time `addRun` draws are parameters. */
module App {
  import opened ApiTypes
  import opened JsStrings
  import opened Http
  import opened StorageKeys
  import opened BrowserStorage
  import opened SecureStorage
  import History
  import Proxy

  datatype Tab = InputTab | HistoryTab | ApiTab

  /** GeneratedBulletPoint: one bullet on screen, with its copy flag. */
  datatype GeneratedBulletPoint = GeneratedBulletPoint(id: string, text: string, copied: bool)

  const DEFAULT_BULLET_POINT_COUNT: int := 5
  const EMPTY_FORM: ResumeBulletPointParameters := ResumeBulletPointParameters("", "", "", "", "", 5)
  const MISSING_KEY_ERROR: string := "Please configure your API key first"
  const GENERATION_FAILED: string := "Failed to generate bullet points"

  /** The initial `apiConfig`: the saved configuration, else Anthropic with no
      key and its first model. */
  function InitialConfig(saved: Option<SavedAPIConfig>): (c: UserAPIConfig)
    ensures c.maxTokens.None?
    ensures saved.Some? ==> c.provider == saved.value.provider && c.apiKey == saved.value.apiKey
    ensures saved.Some? ==> c.model == Some(saved.value.model)
    ensures saved.None? ==> c == UserAPIConfig(ANTHROPIC, "", Some("claude-3-5-sonnet-20241022"), None)
  {
    match saved
    case Some(s) => UserAPIConfig(s.provider, s.apiKey, Some(s.model), None)
    case None => UserAPIConfig(ANTHROPIC, "", Some("claude-3-5-sonnet-20241022"), None)
  }

  /** A configuration saved with a key is the one the next start begins with,
      its key decrypted. */
  lemma StartsWithSavedConfig(items: map<string, Stored>, saved: SavedAPIConfig)
    ensures var c := InitialConfig(LoadedConfig(items[API_CONFIG_KEY := ConfigRecord(Sealed(saved))]));
      c.provider == saved.provider && c.apiKey == saved.apiKey && c.model == Some(saved.model)
  {
    SaveThenLoad(items, saved);
  }

  /** The bullets as listed after a success: ids "1", "2", ... in order, none copied. */
  function Numbered(bullets: seq<string>): (r: seq<GeneratedBulletPoint>)
    ensures |r| == |bullets|
    ensures forall k | 0 <= k < |r| :: r[k].text == bullets[k] && !r[k].copied
    ensures forall k | 0 <= k < |r| :: r[k].id == NatToString(k + 1)
  {
    seq(|bullets|, k requires 0 <= k < |bullets| => GeneratedBulletPoint(NatToString(k + 1), bullets[k], false))
  }

  /** No two listed bullets share an id. */
  lemma NumberedIdsDistinct(bullets: seq<string>, p: int, q: int)
    requires 0 <= p < q < |bullets|
    ensures Numbered(bullets)[p].id != Numbered(bullets)[q].id
  {
    if NatToString(p + 1) == NatToString(q + 1) {
      NatToStringInjective(p + 1, q + 1);
    }
  }

  /** `response.error` is truthy: present and not empty. */
  predicate Failed(response: GenerateResponse) {
    response.error.Some? && response.error.value != ""
  }

  /** The message the `catch` of the handler shows. */
  function FailureMessage(thrown: Exception): (m: string)
    ensures thrown.Error? ==> m == thrown.message
    ensures thrown.NonError? ==> m == GENERATION_FAILED
  {
    match thrown
    case Error(message) => message
    case NonError => GENERATION_FAILED
  }

  /** The `map` of `copyToClipboard` and of its timer: the bullets with `id` get
      the flag, every other field and bullet stays. */
  function MarkCopied(list: seq<GeneratedBulletPoint>, id: string, flag: bool): (r: seq<GeneratedBulletPoint>)
    ensures |r| == |list|
    ensures forall k | 0 <= k < |r| :: r[k].id == list[k].id && r[k].text == list[k].text
    ensures forall k | 0 <= k < |r| :: r[k].copied == (if list[k].id == id then flag else list[k].copied)
  {
    seq(|list|, k requires 0 <= k < |list| => if list[k].id == id then list[k].(copied := flag) else list[k])
  }

  /** An id no bullet carries changes nothing. */
  lemma MarkAbsent(list: seq<GeneratedBulletPoint>, id: string, flag: bool)
    requires forall k | 0 <= k < |list| :: list[k].id != id
    ensures MarkCopied(list, id, flag) == list
  {
  }

  /** Copying a freshly listed bullet marks that bullet and no other; the timer
      then clears the mark again. */
  lemma CopyMarksOne(bullets: seq<string>, k: int)
    requires 0 <= k < |bullets|
    ensures var marked := MarkCopied(Numbered(bullets), NatToString(k + 1), true);
      forall j | 0 <= j < |bullets| :: marked[j].copied <==> j == k
    ensures MarkCopied(MarkCopied(Numbered(bullets), NatToString(k + 1), true), NatToString(k + 1), false) ==
      Numbered(bullets)
  {
    var list := Numbered(bullets);
    forall j | 0 <= j < |bullets| && j != k ensures list[j].id != NatToString(k + 1) {
      if j < k { NumberedIdsDistinct(bullets, j, k); } else { NumberedIdsDistinct(bullets, k, j); }
    }
  }

  /** isFormValid: the four texts of the job and the experience, and a key. */
  predicate IsFormValid(form: ResumeBulletPointParameters, config: UserAPIConfig) {
    form.jobTitle != "" && form.company != "" && form.jobDescription != "" &&
    form.workExperience != "" && config.apiKey != ""
  }

  /** A form is valid exactly when the title, company, description, experience
      and key are all filled in, whatever the skills and the count. */
  lemma FormValidity(form: ResumeBulletPointParameters, config: UserAPIConfig, skills: string, count: int)
    ensures IsFormValid(form, config) <==>
      form.jobTitle != "" && form.company != "" && form.jobDescription != "" &&
      form.workExperience != "" && config.apiKey != ""
    ensures IsFormValid(form.(skills := skills, bulletPointCount := count), config) <==> IsFormValid(form, config)
  {
  }

  /** The form `loadRunFromHistory` restores: the run's parameters, a count of
      zero replaced by five. */
  function RestoredForm(parameters: ResumeBulletPointParameters): (form: ResumeBulletPointParameters)
    ensures form.(bulletPointCount := parameters.bulletPointCount) == parameters
    ensures form.bulletPointCount == (if parameters.bulletPointCount == 0 then 5 else parameters.bulletPointCount)
    ensures form.bulletPointCount != 0
  {
    parameters.(bulletPointCount := if parameters.bulletPointCount == 0 then DEFAULT_BULLET_POINT_COUNT
                                    else parameters.bulletPointCount)
  }

  /** An unknown provider reaches the handler as a thrown error, whose message
      names the provider. */
  lemma UnknownProviderMessage(request: GenerateRequest, fetch: Fetch)
    requires request.apiConfig.provider != ANTHROPIC && request.apiConfig.provider != OPENAI
    ensures var o := Proxy.GenerateBulletPoints(request, fetch);
      o.Throw? && FailureMessage(o.thrown) == "Unsupported provider: " + request.apiConfig.provider
  {
    Proxy.UnsupportedProvider(request, fetch);
  }

  /** The error the handler shows for an outcome: the response's error or the
      thrown message; `None` on a success, which leaves the error as it was. */
  function ShownError(outcome: Outcome<GenerateResponse>): (e: Option<string>)
    ensures e.None? <==> outcome.Return? && !Failed(outcome.value)
    ensures outcome.Return? && Failed(outcome.value) ==> e == outcome.value.error
    ensures outcome.Throw? ==> e == Some(FailureMessage(outcome.thrown))
  {
    match outcome
    case Return(response) => if Failed(response) then response.error else None
    case Throw(thrown) => Some(FailureMessage(thrown))
  }

  /** The bullets the handler lists for an outcome: those of a success, numbered,
      and none otherwise. */
  function ShownBullets(outcome: Outcome<GenerateResponse>): (shown: seq<GeneratedBulletPoint>)
    ensures ShownError(outcome).Some? ==> shown == []
    ensures ShownError(outcome).None? ==> shown == Numbered(outcome.value.bulletPoints)
  {
    match outcome
    case Return(response) => if Failed(response) then [] else Numbered(response.bulletPoints)
    case Throw(_) => []
  }

  /** The stored items after the handler: exactly one run appended to the log on
      a success, stamped with `id` and `timestamp`, and nothing written otherwise. */
  function Logged(items: map<string, Stored>, request: GenerateRequest, outcome: Outcome<GenerateResponse>,
                  id: string, timestamp: int): (after: map<string, Stored>)
    ensures ShownError(outcome).Some? ==> after == items
    ensures ShownError(outcome).None? ==> after == items[HISTORY_KEY := HistoryRecord(History.Recent(
      History.GetHistory(items) + [History.Stamp(NewRun(request.parameters, request, outcome.value), id, timestamp)]))]
  {
    match outcome
    case Return(response) =>
      if Failed(response) then items
      else items[HISTORY_KEY := HistoryRecord(History.Recent(
        History.GetHistory(items) + [History.Stamp(NewRun(request.parameters, request, response), id, timestamp)]))]
    case Throw(_) => items
  }

  /** After a success the log's newest run is the one just generated, stamped
      with the drawn id and time, and at most one older run is pushed out. */
  lemma SuccessLogsOneRun(items: map<string, Stored>, request: GenerateRequest, response: GenerateResponse,
                          id: string, timestamp: int)
    requires !Failed(response)
    ensures var before := History.GetHistory(items);
      var after := History.GetHistory(Logged(items, request, Return(response), id, timestamp));
      |after| <= History.MAX_HISTORY_ITEMS && (|before| < History.MAX_HISTORY_ITEMS ==> |after| == |before| + 1) &&
      |after| > 0 &&
      after[|after| - 1] == History.Stamp(NewRun(request.parameters, request, response), id, timestamp)
  {
    History.AddedRunIsNewest(items, History.Stamp(NewRun(request.parameters, request, response), id, timestamp));
  }

  class AppState {
    var formData: ResumeBulletPointParameters
    var apiConfig: UserAPIConfig
    var generatedBulletPoints: seq<GeneratedBulletPoint>
    var isGenerating: bool
    var activeTab: Tab
    var error: string

    /** The first render: an empty form asking for five bullets and the
        configuration found in storage. */
    constructor(store: LocalStorage)
      ensures formData == EMPTY_FORM && apiConfig == InitialConfig(LoadedConfig(store.items))
      ensures generatedBulletPoints == [] && !isGenerating && activeTab == InputTab && error == ""
    {
      var saved := GetAPIConfig(store);
      formData := EMPTY_FORM;
      apiConfig := InitialConfig(saved);
      generatedBulletPoints := [];
      isGenerating := false;
      activeTab := InputTab;
      error := "";
    }

    /** What follows the `await` of the handler, given what the dispatcher
        produced: the error `ShownError` names, the bullets `ShownBullets` lists, the run logged on a
        success, and the busy flag cleared by the `finally`. */
    method Settle(store: LocalStorage, request: GenerateRequest, outcome: Outcome<GenerateResponse>,
                  id: string, timestamp: int)
      modifies this, store
      ensures !isGenerating
      ensures formData == old(formData) && apiConfig == old(apiConfig) && activeTab == old(activeTab)
      ensures error == ShownError(outcome).GetOr(old(error))
      ensures generatedBulletPoints == ShownBullets(outcome)
      ensures store.items == Logged(old(store.items), request, outcome, id, timestamp)
    {
      match outcome {
        case Return(response) =>
          if Failed(response) {
            error := response.error.value;
            generatedBulletPoints := [];
          } else {
            var bulletPoints: seq<GeneratedBulletPoint> := [];
            for index := 0 to |response.bulletPoints|
              invariant bulletPoints == Numbered(response.bulletPoints[..index])
            {
              bulletPoints := bulletPoints + [GeneratedBulletPoint(NatToString(index + 1), response.bulletPoints[index], false)];
            }
            assert response.bulletPoints[..|response.bulletPoints|] == response.bulletPoints;
            generatedBulletPoints := bulletPoints;
            assert this as object != store as object;
            History.AddRun(store, NewRun(request.parameters, request, response), id, timestamp);
          }
        case Throw(thrown) =>
          error := FailureMessage(thrown);
          generatedBulletPoints := [];
      }
      isGenerating := false;
    }

    /** generateBulletPointsHandler. Without a key it reports the missing key and
        opens the API tab, sending nothing; otherwise the error is cleared, the
        dispatcher is called and its outcome settled. */
    method GenerateBulletPointsHandler(store: LocalStorage, fetch: Fetch, id: string, timestamp: int)
      modifies this, store
      ensures old(apiConfig.apiKey) == "" ==>
        error == MISSING_KEY_ERROR && activeTab == ApiTab && store.items == old(store.items) &&
        generatedBulletPoints == old(generatedBulletPoints) && isGenerating == old(isGenerating)
      ensures formData == old(formData) && apiConfig == old(apiConfig)
      ensures old(apiConfig.apiKey) != "" ==> !isGenerating && activeTab == old(activeTab)
      ensures old(apiConfig.apiKey) != "" ==>
        var request := GenerateRequest(formData, apiConfig);
        var outcome := Proxy.GenerateBulletPoints(request, fetch);
        error == ShownError(outcome).GetOr("") && generatedBulletPoints == ShownBullets(outcome) &&
        store.items == Logged(old(store.items), request, outcome, id, timestamp)
    {
      if apiConfig.apiKey == "" {
        error := MISSING_KEY_ERROR;
        activeTab := ApiTab;
        return;
      }
      isGenerating := true;
      error := "";
      var request := GenerateRequest(formData, apiConfig);
      var outcome := Proxy.GenerateBulletPoints(request, fetch);
      Settle(store, request, outcome, id, timestamp);
    }

    /** copyToClipboard: the text of the first bullet with `id` goes to the
        clipboard and every bullet with that id is marked; an unknown id does
        nothing. */
    method CopyToClipboard(id: string) returns (written: Option<string>)
      modifies this
      ensures written.None? <==> forall k | 0 <= k < |old(generatedBulletPoints)| :: old(generatedBulletPoints)[k].id != id
      ensures written.Some? ==> exists k | 0 <= k < |old(generatedBulletPoints)| ::
        old(generatedBulletPoints)[k].id == id && written.value == old(generatedBulletPoints)[k].text &&
        forall j | 0 <= j < k :: old(generatedBulletPoints)[j].id != id
      ensures generatedBulletPoints == MarkCopied(old(generatedBulletPoints), id, true)
      ensures formData == old(formData) && apiConfig == old(apiConfig) && error == old(error)
      ensures activeTab == old(activeTab) && isGenerating == old(isGenerating)
    {
      var i := 0;
      while i < |generatedBulletPoints| && generatedBulletPoints[i].id != id
        invariant 0 <= i <= |generatedBulletPoints|
        invariant forall j | 0 <= j < i :: generatedBulletPoints[j].id != id
      {
        i := i + 1;
      }
      if i == |generatedBulletPoints| {
        MarkAbsent(generatedBulletPoints, id, true);
        return None;
      }
      written := Some(generatedBulletPoints[i].text);
      generatedBulletPoints := MarkCopied(generatedBulletPoints, id, true);
    }

    /** The timer two seconds after a copy: the mark is cleared. */
    method CopyFeedbackEnded(id: string)
      modifies this
      ensures generatedBulletPoints == MarkCopied(old(generatedBulletPoints), id, false)
      ensures formData == old(formData) && apiConfig == old(apiConfig) && error == old(error)
      ensures activeTab == old(activeTab) && isGenerating == old(isGenerating)
    {
      generatedBulletPoints := MarkCopied(generatedBulletPoints, id, false);
    }

    /** loadRunFromHistory: the run's form and provider and model, the current
        key kept, back on the input tab. */
    method LoadRunFromHistory(run: RunHistory)
      modifies this
      ensures formData == RestoredForm(run.parameters)
      ensures apiConfig == UserAPIConfig(run.request.apiConfig.provider, old(apiConfig.apiKey), run.request.apiConfig.model, None)
      ensures activeTab == InputTab
      ensures generatedBulletPoints == old(generatedBulletPoints) && error == old(error) && isGenerating == old(isGenerating)
    {
      formData := RestoredForm(run.parameters);
      apiConfig := UserAPIConfig(run.request.apiConfig.provider, apiConfig.apiKey, run.request.apiConfig.model, None);
      activeTab := InputTab;
    }
  }
}
