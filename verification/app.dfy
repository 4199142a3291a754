/**
 * The application shell: the state the page keeps (the model library, the
 * selected model, the chat input and history, the in-flight flag, the
 * sidebar flag) and the handlers that change it.
 *
 * Sending a message awaits the generation service; the model splits the
 * handler at that `await` into `BeginSend`, which returns the request the
 * service is called with, and `CompleteSend`, which takes the service's
 * outcome as a value.
 */
module App {
  import opened Types
  import opened Js
  import Constants

  /** The one message the chat history starts with. */
  const WELCOME: string := "Welcome to the Neon GenAI Sculptor. Select a model or describe a new one to begin!"

  /** The reply appended when the service call throws. */
  const CONNECTION_ERROR: string := "I encountered an error connecting to the creative matrix. Please try again."

  /** The message the service itself returns, with the current model, when it fails inside. */
  const SERVICE_ERROR: string := "Unable to connect to the AI service. Please check your API Key configuration."

  /** What the service is asked: the selected model, the prompt and the whole library. */
  datatype Request = Request(current: ModelDef, prompt: string, library: seq<ModelDef>)

  /** How the awaited call ends: a model and a message, or an exception. */
  datatype Outcome = Resolved(model: ModelDef, message: string) | Rejected

  /**
   * The service's own failure path: it catches every error and resolves
   * with the model it was sent and a fixed message.
   */
  function ServiceFallback(req: Request): (r: Outcome)
    ensures r.Resolved? && r.model == req.current && r.message == SERVICE_ERROR
  {
    Resolved(req.current, SERVICE_ERROR)
  }

  /** The chat message a finished send appends: the service's message, or the fixed error text. */
  function Reply(outcome: Outcome): ChatMessage
  {
    match outcome
    case Resolved(_, message) => ChatMessage(Model, message)
    case Rejected => ChatMessage(Model, CONNECTION_ERROR)
  }

  // ---------------------------------------------------------------------
  // Parameter edit
  // ---------------------------------------------------------------------

  /** `{...m, params: {...m.params, [key]: value}}`. */
  function WithParam(m: ModelDef, key: string, value: ParamValue): (r: ModelDef)
    ensures r.name == m.name && r.typeTag == m.typeTag && r.thumbnail == m.thumbnail
    ensures r.params.Keys == m.params.Keys + {key}
    ensures r.params[key] == value
    ensures forall k :: k in m.params && k != key ==> r.params[k] == m.params[k]
  {
    m.(params := m.params[key := value])
  }

  /** Of two edits of the same key the later wins; edits of different keys commute. */
  lemma WithParamLastWins(m: ModelDef, key: string, key': string, v: ParamValue, v': ParamValue)
    ensures WithParam(WithParam(m, key, v), key, v') == WithParam(m, key, v')
    ensures key != key' ==> WithParam(WithParam(m, key, v), key', v') == WithParam(WithParam(m, key', v'), key, v)
  {
  }

  /** Writing back a key's current value changes nothing. */
  lemma WithParamRestores(m: ModelDef, key: string)
    requires key in m.params
    ensures WithParam(m, key, m.params[key]) == m
  {
  }

  // ---------------------------------------------------------------------
  // Upsert by name
  // ---------------------------------------------------------------------

  /** `models.findIndex(m => m.name === name)`: the first position with that name, or −1. */
  function FindIndex(models: seq<ModelDef>, name: string): (r: int)
    ensures -1 <= r < |models|
    ensures r >= 0 ==> models[r].name == name
    ensures r >= 0 ==> forall i :: 0 <= i < r ==> models[i].name != name
    ensures r == -1 <==> forall i :: 0 <= i < |models| ==> models[i].name != name
  {
    if models == [] then -1
    else if models[0].name == name then 0
    else
      var k := FindIndex(models[1..], name);
      if k < 0 then -1 else k + 1
  }

  /**
   * The list updater run after a resolved send: the first entry with the
   * returned model's name is replaced by it, in place; without such an
   * entry the model is appended.
   */
  function Upsert(models: seq<ModelDef>, m: ModelDef): (r: seq<ModelDef>)
    ensures var i := FindIndex(models, m.name);
            i >= 0 ==> |r| == |models| && r[i] == m && forall j :: 0 <= j < |r| && j != i ==> r[j] == models[j]
    ensures FindIndex(models, m.name) < 0 ==> r == models + [m]
  {
    var i := FindIndex(models, m.name);
    if i >= 0 then models[i := m] else models + [m]
  }

  /** After an upsert the list holds the model under its name, and the names are the old ones plus that name. */
  lemma UpsertNames(models: seq<ModelDef>, m: ModelDef)
    ensures m in Upsert(models, m)
    ensures Names(Upsert(models, m)) == Names(models) + {m.name}
  {
  }

  /** Upserting keeps the names of a list pairwise distinct. */
  lemma UpsertKeepsNamesDistinct(models: seq<ModelDef>, m: ModelDef)
    requires NamesDistinct(models)
    ensures NamesDistinct(Upsert(models, m))
  {
  }

  /** Upserting the same model twice is the same as upserting it once. */
  lemma UpsertIdempotent(models: seq<ModelDef>, m: ModelDef)
    ensures Upsert(Upsert(models, m), m) == Upsert(models, m)
  {
    var r := Upsert(models, m);
    var i := FindIndex(models, m.name);
    var k := FindIndex(r, m.name);
    if i >= 0 {
      assert r[i].name == m.name;
      assert k == i by {
        forall j | 0 <= j < i
          ensures r[j].name != m.name
        {
          assert r[j] == models[j];
        }
      }
      assert r[k := m] == r;
    } else {
      assert r[|models|].name == m.name;
      assert k == |models| by {
        forall j | 0 <= j < |models|
          ensures r[j].name != m.name
        {
          assert r[j] == models[j];
        }
      }
      assert r[k := m] == r;
    }
  }

  /** In a list with distinct names, upserting a model already in it changes nothing. */
  lemma UpsertPresent(models: seq<ModelDef>, m: ModelDef)
    requires NamesDistinct(models) && m in models
    ensures Upsert(models, m) == models
  {
  }

  // ---------------------------------------------------------------------
  // The page state
  // ---------------------------------------------------------------------

  class Sculptor {
    var models: seq<ModelDef>
    var selectedModel: ModelDef
    var sidebarOpen: bool
    var chatInput: string
    var isGenerating: bool
    var chatHistory: seq<ChatMessage>

    /** The history starts with the welcome message, and library names stay distinct. */
    ghost predicate Valid()
      reads this
    {
      |chatHistory| >= 1 && chatHistory[0] == ChatMessage(Model, WELCOME) && NamesDistinct(models)
    }

    /** The state on first render. */
    constructor()
      ensures models == Constants.INITIAL_MODELS && selectedModel == Constants.INITIAL_MODELS[0]
      ensures sidebarOpen && chatInput == "" && !isGenerating
      ensures chatHistory == [ChatMessage(Model, WELCOME)]
      ensures Valid()
    {
      Constants.SeedNamesDistinct();
      Constants.SeedTags();
      models := Constants.INITIAL_MODELS;
      selectedModel := Constants.INITIAL_MODELS[0];
      sidebarOpen := true;
      chatInput := "";
      isGenerating := false;
      chatHistory := [ChatMessage(Model, WELCOME)];
    }

    /** `handleSelectModel`: select the model; on a narrow viewport also close the sidebar. */
    method SelectModel(model: ModelDef, narrowViewport: bool)
      requires Valid()
      modifies this
      ensures Valid()
      ensures selectedModel == model
      ensures sidebarOpen == (old(sidebarOpen) && !narrowViewport)
      ensures models == old(models) && chatInput == old(chatInput)
      ensures isGenerating == old(isGenerating) && chatHistory == old(chatHistory)
    {
      selectedModel := model;
      if narrowViewport {
        sidebarOpen := false;
      }
    }

    /** `handleParamChange`: edit one parameter of the selected model only; the library entry is untouched. */
    method ChangeParam(key: string, value: ParamValue)
      requires Valid()
      modifies this
      ensures Valid()
      ensures selectedModel == WithParam(old(selectedModel), key, value)
      ensures models == old(models) && sidebarOpen == old(sidebarOpen) && chatInput == old(chatInput)
      ensures isGenerating == old(isGenerating) && chatHistory == old(chatHistory)
    {
      selectedModel := WithParam(selectedModel, key, value);
    }

    /** The chat box's change handler. */
    method EditInput(text: string)
      requires Valid()
      modifies this
      ensures Valid()
      ensures chatInput == text
      ensures models == old(models) && selectedModel == old(selectedModel) && sidebarOpen == old(sidebarOpen)
      ensures isGenerating == old(isGenerating) && chatHistory == old(chatHistory)
    {
      chatInput := text;
    }

    /** The mobile header's menu button. */
    method ToggleSidebar()
      requires Valid()
      modifies this
      ensures Valid()
      ensures sidebarOpen == !old(sidebarOpen)
      ensures models == old(models) && selectedModel == old(selectedModel) && chatInput == old(chatInput)
      ensures isGenerating == old(isGenerating) && chatHistory == old(chatHistory)
    {
      sidebarOpen := !sidebarOpen;
    }

    /**
     * `handleSendMessage` up to the `await`. Nothing happens when the input
     * is blank or a request is in flight; otherwise the input is cleared,
     * the user's text is appended to the history, the flag is set, and the
     * request for the service is returned.
     */
    method BeginSend() returns (req: Option<Request>)
      requires Valid()
      modifies this
      ensures Valid()
      ensures req.None? <==> AllWhiteSpace(old(chatInput)) || old(isGenerating)
      ensures req.None? ==>
                chatInput == old(chatInput) && chatHistory == old(chatHistory) && isGenerating == old(isGenerating)
      ensures req.Some? ==>
                && req.value == Request(old(selectedModel), old(chatInput), old(models))
                && chatInput == ""
                && chatHistory == old(chatHistory) + [ChatMessage(User, old(chatInput))]
                && isGenerating
      ensures models == old(models) && selectedModel == old(selectedModel) && sidebarOpen == old(sidebarOpen)
    {
      TrimEmptyIffBlank(chatInput);
      if Trim(chatInput) == "" || isGenerating {
        return None;
      }
      var userMsg := chatInput;
      chatInput := "";
      chatHistory := chatHistory + [ChatMessage(User, userMsg)];
      isGenerating := true;
      req := Some(Request(selectedModel, userMsg, models));
    }

    /**
     * `handleSendMessage` after the `await`. A resolved call selects the
     * returned model, upserts it into the library and appends its message;
     * a rejected one appends the fixed error text and changes nothing else.
     * Either way the flag is cleared.
     */
    method CompleteSend(outcome: Outcome)
      requires Valid() && isGenerating
      modifies this
      ensures Valid()
      ensures outcome.Resolved? ==>
                && selectedModel == outcome.model
                && models == Upsert(old(models), outcome.model)
                && chatHistory == old(chatHistory) + [ChatMessage(Model, outcome.message)]
      ensures outcome.Rejected? ==>
                && selectedModel == old(selectedModel)
                && models == old(models)
                && chatHistory == old(chatHistory) + [ChatMessage(Model, CONNECTION_ERROR)]
      ensures !isGenerating && chatInput == old(chatInput) && sidebarOpen == old(sidebarOpen)
    {
      match outcome {
        case Resolved(model, message) =>
          selectedModel := model;
          UpsertKeepsNamesDistinct(models, model);
          models := Upsert(models, model);
          chatHistory := chatHistory + [ChatMessage(Model, message)];
        case Rejected =>
          chatHistory := chatHistory + [ChatMessage(Model, CONNECTION_ERROR)];
      }
      isGenerating := false;
    }

    /**
     * The whole send with the service as a function of the request: a
     * blocked send changes nothing; otherwise the history grows by exactly
     * the user's text and the reply, the input is empty and nothing is in
     * flight afterwards.
     */
    method SendMessage(service: Request -> Outcome)
      requires Valid()
      modifies this
      ensures Valid()
      ensures old(chatHistory) <= chatHistory
      ensures sidebarOpen == old(sidebarOpen)
      ensures AllWhiteSpace(old(chatInput)) || old(isGenerating) ==>
                && chatHistory == old(chatHistory) && chatInput == old(chatInput)
                && models == old(models) && selectedModel == old(selectedModel)
                && isGenerating == old(isGenerating)
      ensures !(AllWhiteSpace(old(chatInput)) || old(isGenerating)) ==>
                var outcome := service(Request(old(selectedModel), old(chatInput), old(models)));
                && chatInput == "" && !isGenerating
                && chatHistory == old(chatHistory) + [ChatMessage(User, old(chatInput)), Reply(outcome)]
                && (outcome.Resolved? ==> models == Upsert(old(models), outcome.model) && selectedModel == outcome.model)
                && (outcome.Rejected? ==> models == old(models) && selectedModel == old(selectedModel))
    {
      var req := BeginSend();
      if req.Some? {
        CompleteSend(service(req.value));
      }
    }
  }

  /**
   * When the service falls back, the send re-selects the model that was
   * selected when the message was sent and writes that model into the
   * library: over the first entry of the same name, or at the end. Only a
   * library that already held that very model is left as it was.
   */
  lemma FallbackStoresSentModel(req: Request)
    ensures ServiceFallback(req).model == req.current
    ensures Reply(ServiceFallback(req)) == ChatMessage(Model, SERVICE_ERROR)
    ensures var i := FindIndex(req.library, req.current.name);
            i >= 0 ==> Upsert(req.library, ServiceFallback(req).model) == req.library[i := req.current]
    ensures FindIndex(req.library, req.current.name) < 0 ==>
              Upsert(req.library, ServiceFallback(req).model) == req.library + [req.current]
    ensures NamesDistinct(req.library) && req.current in req.library ==>
              Upsert(req.library, ServiceFallback(req).model) == req.library
  {
    if NamesDistinct(req.library) && req.current in req.library {
      UpsertPresent(req.library, req.current);
    }
  }

  /**
   * A parameter edit lives only in the selected model, but a send the
   * service falls back on saves it: the edited model replaces the library
   * entry it came from.
   */
  lemma FallbackSavesEdit(library: seq<ModelDef>, j: nat, key: string, value: ParamValue, prompt: string)
    requires NamesDistinct(library) && j < |library|
    ensures var edited := WithParam(library[j], key, value);
            Upsert(library, ServiceFallback(Request(edited, prompt, library)).model) == library[j := edited]
  {
    var edited := WithParam(library[j], key, value);
    assert FindIndex(library, edited.name) == j;
  }
}
