/** The App component's session state and its generate handler. The
    handler runs up to the client call (`BeginGenerate`), then, when the
    client answers, records the outcome (`FinishGenerate`); `HandleGenerate`
    runs both as one attempt. The client's answer is a parameter. */
module App {
  import opened Wrappers
  import opened Types
  import Modes
  import Gemini

  const MissingApiKey := "Please enter your Gemini API key"
  const MissingImage := "Please upload an image first"
  const MissingMode := "Please select a mode"
  const InvalidMode := "Invalid mode selected"

  /** The values of the component's state hooks. */
  datatype State = State(
    apiKey: string,
    selectedMode: Option<string>,
    currentImage: Option<File>,
    imagePreview: Option<string>,
    isGenerating: bool,
    error: Option<string>,
    generatedImages: seq<GeneratedImage>)

  /** The arguments of the client call: the prompt, the file and the key. */
  datatype ClientRequest = ClientRequest(prompt: string, image: File, apiKey: string)

  /** An attempt waiting for the client: the mode found and what was sent. */
  datatype Pending = Pending(mode: Mode, request: ClientRequest)

  /** The state when the handler reaches the client call (or returns early),
      and the call it is about to make. */
  datatype Begun = Begun(state: State, pending: Option<Pending>)

  /** The state after a whole attempt, and the client call made, if any. */
  datatype Outcome = Outcome(state: State, sent: Option<ClientRequest>)

  /** The initial hook values; the key comes from the environment ('' if unset). */
  function Initial(envApiKey: string): (r: State)
    ensures r.apiKey == envApiKey && !r.isGenerating && r.error.None? && r.generatedImages == []
    ensures r.selectedMode.None? && r.currentImage.None? && r.imagePreview.None?
  {
    State(envApiKey, None, None, None, false, None, [])
  }

  /** JavaScript truthiness of a `string | null`: null and '' are falsy. */
  predicate Truthy(s: Option<string>)
  {
    s.Some? && s.value != ""
  }

  /** The message of the first precondition that fails, in the order
      API key, image, mode; None when all hold. */
  function FailedPrecondition(s: State): (r: Option<string>)
    ensures r.None? <==> s.apiKey != "" && s.currentImage.Some? && Truthy(s.selectedMode)
    ensures s.apiKey == "" ==> r == Some(MissingApiKey)
    ensures s.apiKey != "" && s.currentImage.None? ==> r == Some(MissingImage)
    ensures s.apiKey != "" && s.currentImage.Some? && !Truthy(s.selectedMode) ==> r == Some(MissingMode)
  {
    if s.apiKey == "" then Some(MissingApiKey)
    else if s.currentImage.None? then Some(MissingImage)
    else if !Truthy(s.selectedMode) then Some(MissingMode)
    else None
  }

  /** The selected mode looked up in a mode table (requires a selection).
      The component passes the registry; the functions below take the table
      as a parameter so that their properties hold for any table. */
  function SelectedMode(s: State, modes: seq<Mode>): Option<Mode>
    requires s.selectedMode.Some?
  {
    Modes.FindMode(modes, s.selectedMode.value)
  }

  /** The handler up to the client call. */
  function Begin(s: State, modes: seq<Mode>): (r: Begun)
    ensures r.state.generatedImages == s.generatedImages
    ensures FailedPrecondition(s).Some? ==> r.pending.None? && r.state == s.(error := FailedPrecondition(s))
    ensures FailedPrecondition(s).None? ==> (r.pending.Some? <==> SelectedMode(s, modes).Some?)
    ensures FailedPrecondition(s).None? && r.pending.None? ==> r.state == s.(isGenerating := false, error := Some(InvalidMode))
    ensures r.pending.Some? ==>
      r.state == s.(isGenerating := true, error := None) &&
      r.pending.value.mode in modes &&
      r.pending.value.mode.id == s.selectedMode.value &&
      r.pending.value.request == ClientRequest(r.pending.value.mode.promptTemplate, s.currentImage.value, s.apiKey)
  {
    match FailedPrecondition(s)
    case Some(message) => Begun(s.(error := Some(message)), None)
    case None =>
      var inFlight := s.(isGenerating := true, error := None);
      match SelectedMode(s, modes)
      case None => Begun(inFlight.(error := Some(InvalidMode), isGenerating := false), None)
      case Some(mode) => Begun(inFlight, Some(Pending(mode, ClientRequest(mode.promptTemplate, s.currentImage.value, s.apiKey))))
  }

  /** The handler after the client answers: a success is prepended to the
      history, a failure's message is shown; the flag is cleared either way. */
  function Finish(s: State, p: Pending, reply: Result<string, string>, timestamp: Timestamp): (r: State)
    ensures !r.isGenerating
    ensures r == s.(isGenerating := false, error := r.error, generatedImages := r.generatedImages)
    ensures reply.Ok? ==>
      r.error == s.error &&
      |r.generatedImages| == |s.generatedImages| + 1 &&
      r.generatedImages[0] == GeneratedImage(reply.value, p.mode.promptTemplate, p.mode.name, timestamp) &&
      r.generatedImages[1..] == s.generatedImages
    ensures reply.Err? ==> r.error == Some(reply.error) && r.generatedImages == s.generatedImages
  {
    match reply
    case Ok(url) =>
      var newImage := GeneratedImage(url, p.mode.promptTemplate, p.mode.name, timestamp);
      s.(generatedImages := [newImage] + s.generatedImages, isGenerating := false)
    case Err(message) =>
      s.(error := Some(message), isGenerating := false)
  }

  /** One whole attempt, the client answering `reply` if it is called. */
  function Attempt(s: State, modes: seq<Mode>, reply: Result<string, string>, timestamp: Timestamp): (r: Outcome)
    ensures r.sent.Some? <==> FailedPrecondition(s).None? && SelectedMode(s, modes).Some?
    ensures r.sent.Some? ==> r.sent.value == ClientRequest(SelectedMode(s, modes).value.promptTemplate, s.currentImage.value, s.apiKey)
    ensures FailedPrecondition(s).Some? ==> r.state == s.(error := FailedPrecondition(s))
    ensures FailedPrecondition(s).None? ==> !r.state.isGenerating
    ensures r.sent.None? ==> r.state.generatedImages == s.generatedImages
    ensures r.sent.Some? && reply.Ok? ==>
      r.state.error.None? &&
      r.state.generatedImages ==
        [GeneratedImage(reply.value, SelectedMode(s, modes).value.promptTemplate, SelectedMode(s, modes).value.name, timestamp)] + s.generatedImages
    ensures r.sent.Some? && reply.Err? ==> r.state.error == Some(reply.error) && r.state.generatedImages == s.generatedImages
    ensures r.state.apiKey == s.apiKey && r.state.selectedMode == s.selectedMode
    ensures r.state.currentImage == s.currentImage && r.state.imagePreview == s.imagePreview
  {
    var b := Begin(s, modes);
    match b.pending
    case None => Outcome(b.state, None)
    case Some(p) => Outcome(Finish(b.state, p, reply, timestamp), Some(p.request))
  }

  /** The Generate button's enable condition. */
  predicate GenerateEnabled(s: State)
    ensures GenerateEnabled(s) ==> !s.isGenerating
    ensures GenerateEnabled(s) ==> FailedPrecondition(s) == None || FailedPrecondition(s) == Some(MissingApiKey)
    ensures !s.isGenerating && FailedPrecondition(s).None? ==> GenerateEnabled(s)
  {
    !s.isGenerating && s.currentImage.Some? && Truthy(s.selectedMode)
  }

  /** History only grows at the front: after any attempt the old history is
      a suffix of the new one, with at most one new entry. */
  lemma HistoryGrowsAtFront(s: State, modes: seq<Mode>, reply: Result<string, string>, timestamp: Timestamp)
    ensures var h := Attempt(s, modes, reply, timestamp).state.generatedImages;
      |s.generatedImages| <= |h| <= |s.generatedImages| + 1 &&
      h[|h| - |s.generatedImages|..] == s.generatedImages
  {
    var h := Attempt(s, modes, reply, timestamp).state.generatedImages;
    if |h| != |s.generatedImages| {
      assert h == [h[0]] + s.generatedImages;
    }
  }

  /** Two successful attempts A then B leave the history [B, A, ...]. */
  lemma TwoSuccessesNewestFirst(s: State, modes: seq<Mode>, a: string, b: string, t1: Timestamp, t2: Timestamp)
    requires FailedPrecondition(s).None? && SelectedMode(s, modes).Some?
    ensures var first := Attempt(s, modes, Ok(a), t1).state;
      var m := SelectedMode(s, modes).value;
      Attempt(first, modes, Ok(b), t2).state.generatedImages ==
        [GeneratedImage(b, m.promptTemplate, m.name, t2), GeneratedImage(a, m.promptTemplate, m.name, t1)] + s.generatedImages
  {
    var first := Attempt(s, modes, Ok(a), t1).state;
    assert FailedPrecondition(first).None? && SelectedMode(first, modes) == SelectedMode(s, modes);
  }

  /** Two successful attempts, with mode A selected for the first and mode B
      for the second, leave the history [B-record, A-record, ...]. */
  lemma TwoModesNewestFirst(s: State, modes: seq<Mode>, idB: string, a: string, b: string, t1: Timestamp, t2: Timestamp)
    requires FailedPrecondition(s).None? && SelectedMode(s, modes).Some?
    requires idB != "" && Modes.FindMode(modes, idB).Some?
    ensures var first := Attempt(s, modes, Ok(a), t1).state;
      var mA := SelectedMode(s, modes).value;
      var mB := Modes.FindMode(modes, idB).value;
      Attempt(first.(selectedMode := Some(idB)), modes, Ok(b), t2).state.generatedImages ==
        [GeneratedImage(b, mB.promptTemplate, mB.name, t2), GeneratedImage(a, mA.promptTemplate, mA.name, t1)] + s.generatedImages
  {
    var second := Attempt(s, modes, Ok(a), t1).state.(selectedMode := Some(idB));
    assert FailedPrecondition(second).None? && SelectedMode(second, modes) == Modes.FindMode(modes, idB);
  }

  /** While a call is in flight the Generate button is disabled. */
  lemma InFlightDisablesGenerate(s: State, modes: seq<Mode>)
    requires Begin(s, modes).pending.Some?
    ensures Begin(s, modes).state.isGenerating && !GenerateEnabled(Begin(s, modes).state)
  {
  }

  /** The handler itself ignores the in-flight flag: a second activation
      during a call starts another call. The disabled button is the only guard. */
  lemma HandlerIgnoresInFlight(s: State, modes: seq<Mode>)
    requires s.isGenerating && FailedPrecondition(s).None? && SelectedMode(s, modes).Some?
    ensures Begin(s, modes).pending.Some? && !GenerateEnabled(s)
  {
  }

  /** The button does not look at the key: an enabled button with no key
      fails with the key message and no call. */
  lemma EnabledWithoutKey(s: State, modes: seq<Mode>, reply: Result<string, string>, timestamp: Timestamp)
    requires GenerateEnabled(s) && s.apiKey == ""
    ensures Attempt(s, modes, reply, timestamp) == Outcome(s.(error := Some(MissingApiKey)), None)
  {
  }

  /** Selecting a registry mode from the selector always resolves. */
  lemma RegistrySelectionResolves(s: State, i: nat)
    requires i < |Modes.ImageGenerationModes|
    requires s.selectedMode == Some(Modes.ImageGenerationModes[i].id)
    ensures SelectedMode(s, Modes.ImageGenerationModes) == Some(Modes.ImageGenerationModes[i])
    ensures FailedPrecondition(s).None? <==> s.apiKey != "" && s.currentImage.Some?
  {
    Modes.RegistryLookup(i);
    Modes.RegistryIds();
    assert Modes.Ids(Modes.ImageGenerationModes)[i] == Modes.ImageGenerationModes[i].id;
  }

  /** An id not in the registry ends the attempt with "Invalid mode selected",
      no call and the history unchanged. */
  lemma UnknownModeRejected(s: State, modes: seq<Mode>, reply: Result<string, string>, timestamp: Timestamp)
    requires FailedPrecondition(s).None?
    requires s.selectedMode.value !in Modes.Ids(modes)
    ensures Attempt(s, modes, reply, timestamp) == Outcome(s.(error := Some(InvalidMode), isGenerating := false), None)
  {
    Modes.UnknownIdNotFound(modes, s.selectedMode.value);
  }

  /** With the Gemini client, an answer without candidates shows the generic
      failure message and leaves the history unchanged. */
  lemma GeminiNoCandidatesReported(
    s: State, modes: seq<Mode>, read: Result<string, string>, post: (string, Gemini.Request) -> Result<Gemini.Response, string>, timestamp: Timestamp)
    requires Begin(s, modes).pending.Some?
    requires read.Ok?
    requires var req := Begin(s, modes).pending.value.request;
      var resp := post(req.apiKey, Gemini.BuildRequest(req.prompt, req.image.mimeType, read.value, Gemini.NoConfig));
      resp.Ok? && resp.value.candidates in {None, Some([])}
    ensures var req := Begin(s, modes).pending.value.request;
      var reply := Gemini.GenerateImage(req.prompt, req.image, req.apiKey, Gemini.NoConfig, read, post);
      var r := Attempt(s, modes, reply, timestamp);
      r.sent == Some(req) && r.state.error == Some(Gemini.GenericFailure) && r.state.generatedImages == s.generatedImages
  {
    var req := Begin(s, modes).pending.value.request;
    Gemini.NoCandidatesIsGenericFailure(req.prompt, req.image, req.apiKey, Gemini.NoConfig, read.value, post);
  }

  /** The component: one field per state hook. */
  class Component {
    var apiKey: string
    var selectedMode: Option<string>
    var currentImage: Option<File>
    var imagePreview: Option<string>
    var isGenerating: bool
    var error: Option<string>
    var generatedImages: seq<GeneratedImage>

    function Snapshot(): State
      reads this
    {
      State(apiKey, selectedMode, currentImage, imagePreview, isGenerating, error, generatedImages)
    }

    constructor (envApiKey: string)
      ensures Snapshot() == Initial(envApiKey)
    {
      apiKey := envApiKey;
      selectedMode := None;
      currentImage := None;
      imagePreview := None;
      isGenerating := false;
      error := None;
      generatedImages := [];
    }

    /** The key field's change handler. */
    method ChangeApiKey(key: string)
      modifies this
      ensures Snapshot() == old(Snapshot()).(apiKey := key)
    {
      apiKey := key;
    }

    /** `handleImageUpload`: the file is stored at once. */
    method HandleImageUpload(file: File)
      modifies this
      ensures Snapshot() == old(Snapshot()).(currentImage := Some(file))
    {
      currentImage := Some(file);
    }

    /** The FileReader's `onloadend` for the preview: `result` is the data
        URL, or None (null) when the read failed or was aborted. */
    method PreviewLoaded(result: Option<string>)
      modifies this
      ensures Snapshot() == old(Snapshot()).(imagePreview := result)
    {
      imagePreview := result;
    }

    /** `handleModeSelect`: records the mode's id and nothing else. */
    method HandleModeSelect(mode: Mode)
      modifies this
      ensures Snapshot() == old(Snapshot()).(selectedMode := Some(mode.id))
    {
      selectedMode := Some(mode.id);
    }

    /** `handleGenerate` up to the client call. */
    method BeginGenerate() returns (pending: Option<Pending>)
      modifies this
      ensures Begun(Snapshot(), pending) == Begin(old(Snapshot()), Modes.ImageGenerationModes)
    {
      if apiKey == "" {
        error := Some(MissingApiKey);
        return None;
      }
      if currentImage.None? {
        error := Some(MissingImage);
        return None;
      }
      if selectedMode.None? || selectedMode.value == "" {
        error := Some(MissingMode);
        return None;
      }
      isGenerating := true;
      error := None;
      var mode := Modes.FindMode(Modes.ImageGenerationModes, selectedMode.value);
      if mode.None? {
        error := Some(InvalidMode);
        isGenerating := false;
        return None;
      }
      pending := Some(Pending(mode.value, ClientRequest(mode.value.promptTemplate, currentImage.value, apiKey)));
    }

    /** `handleGenerate` after the client call returns `reply`. */
    method FinishGenerate(p: Pending, reply: Result<string, string>, timestamp: Timestamp)
      modifies this
      ensures Snapshot() == Finish(old(Snapshot()), p, reply, timestamp)
    {
      match reply {
        case Ok(url) =>
          var newImage := GeneratedImage(url, p.mode.promptTemplate, p.mode.name, timestamp);
          generatedImages := [newImage] + generatedImages;
        case Err(message) =>
          error := Some(message);
      }
      isGenerating := false;
    }

    /** One whole `handleGenerate`; `sent` is the client call made, if any. */
    method HandleGenerate(reply: Result<string, string>, timestamp: Timestamp) returns (sent: Option<ClientRequest>)
      modifies this
      ensures Outcome(Snapshot(), sent) == Attempt(old(Snapshot()), Modes.ImageGenerationModes, reply, timestamp)
    {
      var pending := BeginGenerate();
      sent := None;
      if pending.Some? {
        sent := Some(pending.value.request);
        FinishGenerate(pending.value, reply, timestamp);
      }
    }
  }

  /** A session driven the way the page drives it: key from the environment,
      a file dropped, Ghibli picked and generated, then Disney picked and
      generated. The history is newest first. */
  method TwoGenerations(envApiKey: string, file: File, a: string, b: string, t1: Timestamp, t2: Timestamp)
    returns (history: seq<GeneratedImage>, error: Option<string>)
    requires envApiKey != ""
    ensures history == [
      GeneratedImage(b, Modes.DisneyPrompt, "Disney Mode", t2),
      GeneratedImage(a, Modes.GhibliPrompt, "Ghibli Mode", t1)]
    ensures error.None?
  {
    var page := new Component(envApiKey);
    page.HandleImageUpload(file);
    Modes.RegistryNames();
    page.HandleModeSelect(Modes.ImageGenerationModes[0]);
    ghost var start := page.Snapshot();
    RegistrySelectionResolves(start, 0);
    RegistrySelectionResolves(start.(selectedMode := Some("disney")), 1);
    TwoModesNewestFirst(start, Modes.ImageGenerationModes, "disney", a, b, t1, t2);
    var sent1 := page.HandleGenerate(Ok(a), t1);
    page.HandleModeSelect(Modes.ImageGenerationModes[1]);
    var sent2 := page.HandleGenerate(Ok(b), t2);
    history, error := page.generatedImages, page.error;
  }

  /** Without a key the client is never called and the key message is shown,
      whatever the client would have answered. */
  method GenerateWithoutKey(file: File, reply: Result<string, string>, timestamp: Timestamp)
    returns (sent: Option<ClientRequest>, error: Option<string>, history: seq<GeneratedImage>, generating: bool)
    ensures sent.None? && error == Some(MissingApiKey) && history == [] && !generating
  {
    var page := new Component("");
    page.HandleImageUpload(file);
    page.HandleModeSelect(Modes.ImageGenerationModes[1]);
    sent := page.HandleGenerate(reply, timestamp);
    error, history, generating := page.error, page.generatedImages, page.isGenerating;
  }
}
