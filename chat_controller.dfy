/**
 * The chat controller's own bookkeeping (app/chat_controller.js): settings
 * loaded over their defaults, the choice of client and key per provider,
 * per-model token usage, error reporting, and the guards of `process`, the
 * step that records the user's query and calls the model.
 *
 * The DOM (settings fields, retry button, loading indicator), local storage
 * (its reads are parameters), the context builder and the model call (their
 * outcome is a parameter), the planner and the agent run are not modelled.
 * The three default model names come from a configuration file that is not
 * part of this model; they are parameters.
 */
module Controller {
  import opened Values
  import opened Seqs
  import opened ChatStore
  import Agents

  /** The keys of `DEFAULT_SETTINGS`. */
  datatype SettingKey =
    | ApiKey | AnthropicApiKey | OpenRouterApiKey | BaseUrl | SelectedModel | SelectedSmallModel
    | SelectedEmbeddingsModel | ApprovalRequired | MaxFilesToEmbed | CommandToOpenFile | Theme

  /** The keys in declaration order, the order `Object.keys` visits them. */
  const SettingKeys: seq<SettingKey> := [
    ApiKey, AnthropicApiKey, OpenRouterApiKey, BaseUrl, SelectedModel, SelectedSmallModel,
    SelectedEmbeddingsModel, ApprovalRequired, MaxFilesToEmbed, CommandToOpenFile, Theme]

  /** Where a key sits in the declaration order. */
  function KeyIndex(k: SettingKey): (i: nat)
    ensures i < |SettingKeys| && SettingKeys[i] == k
  {
    match k
    case ApiKey => 0
    case AnthropicApiKey => 1
    case OpenRouterApiKey => 2
    case BaseUrl => 3
    case SelectedModel => 4
    case SelectedSmallModel => 5
    case SelectedEmbeddingsModel => 6
    case ApprovalRequired => 7
    case MaxFilesToEmbed => 8
    case CommandToOpenFile => 9
    case Theme => 10
  }

  /** The default model names the configuration supplies. */
  datatype DefaultModels = DefaultModels(large: string, small: string, embeddings: string)

  /** `DEFAULT_SETTINGS[key]`. */
  function DefaultSetting(key: SettingKey, models: DefaultModels): Json {
    match key
    case ApiKey => JStr("")
    case AnthropicApiKey => JStr("")
    case OpenRouterApiKey => JStr("")
    case BaseUrl => JStr("")
    case SelectedModel => JStr(models.large)
    case SelectedSmallModel => JStr(models.small)
    case SelectedEmbeddingsModel => JStr(models.embeddings)
    case ApprovalRequired => JBool(true)
    case MaxFilesToEmbed => JNum(1000)
    case CommandToOpenFile => JStr("code")
    case Theme => JStr("dark")
  }

  /** A stored value when there is one (`undefined` is `None`), the default otherwise. */
  function Resolved(stored: Option<Json>, key: SettingKey, models: DefaultModels): Json {
    if stored.Some? then stored.value else DefaultSetting(key, models)
  }

  /** The settings `loadAllSettings` leaves: every key's stored value, or its default. */
  function LoadedSettings(models: DefaultModels, stored: SettingKey -> Option<Json>): (r: map<SettingKey, Json>)
    ensures forall k :: k in r && r[k] == Resolved(stored(k), k, models)
  {
    var r := map k | k in SettingKeys :: Resolved(stored(k), k, models);
    assert forall k :: k in r by {
      forall k ensures k in r {
        var _ := KeyIndex(k);
      }
    }
    r
  }

  /** The providers `createModel` distinguishes; every other option, or none found, uses the OpenAI client. */
  datatype Client = AnthropicClient | OpenAIClient

  /** A provider name: the two `createModel` tests for, or any other. */
  datatype Provider = Anthropic | OpenRouter | OtherProvider(name: string)

  /** An entry of the model options: a model name and its provider. */
  datatype ModelOption = ModelOption(model: string, provider: Provider)

  /** The arguments a client is constructed with. */
  datatype ModelConfig = ModelConfig(
    client: Client,
    model: string,
    apiKey: Json,
    baseUrl: Option<Json>,
    headers: Option<map<string, string>>)

  const OpenRouterUrl := "https://openrouter.ai/api/v1"

  /** The attribution headers OpenRouter receives. */
  const OpenRouterHeaders: map<string, string> :=
    map["HTTP-Referer" := "https://codecompanion.ai/", "X-Title" := "CodeCompanion"]

  const NoApiKeyMessage :=
    "No API key found for base model. Please add your API key under <a href=\"#\" onclick=\"document.getElementById('settingsToggle').click(); return false;\">Settings</a>"

  const AbortedMessage := "Request was aborted"

  /** A setting as a JSON value; a missing one reads as `undefined`, which is falsy. */
  function SettingOr(settings: map<SettingKey, Json>, key: SettingKey): Json {
    if key in settings then settings[key] else JNull
  }

  /** The provider of the first option for the model, if any. */
  function ProviderOf(options: seq<ModelOption>, selectedModel: string): Option<Provider> {
    if options == [] then None
    else if options[0].model == selectedModel then Some(options[0].provider)
    else ProviderOf(options[1..], selectedModel)
  }

  /** The first option whose model name matches. */
  predicate FirstMatch(options: seq<ModelOption>, selectedModel: string, i: int) {
    && 0 <= i < |options| && options[i].model == selectedModel
    && forall j :: 0 <= j < i ==> options[j].model != selectedModel
  }

  /** `find` gives the provider of the first matching option, and nothing when no option matches. */
  lemma {:induction false} ProviderOfFinds(options: seq<ModelOption>, selectedModel: string)
    ensures ProviderOf(options, selectedModel).None? <==>
      forall i :: 0 <= i < |options| ==> options[i].model != selectedModel
    ensures ProviderOf(options, selectedModel).Some? ==> exists i :: (FirstMatch(options, selectedModel, i)
      && options[i].provider == ProviderOf(options, selectedModel).value)
  {
    if options != [] && options[0].model != selectedModel {
      var rest := options[1..];
      ProviderOfFinds(rest, selectedModel);
      if ProviderOf(rest, selectedModel).Some? {
        var i :| FirstMatch(rest, selectedModel, i) && rest[i].provider == ProviderOf(rest, selectedModel).value;
        assert FirstMatch(options, selectedModel, i + 1);
      } else {
        assert forall i :: 1 <= i < |options| ==> options[i].model == rest[i - 1].model;
      }
    } else if options != [] {
      assert FirstMatch(options, selectedModel, 0);
    }
  }

  /**
   * `createModel`: Anthropic models use the Anthropic key and client with
   * no base URL; OpenRouter models use the OpenRouter key, its URL and the
   * attribution headers with the OpenAI client; everything else uses the
   * OpenAI key and the configured base URL. No client when the chosen key is
   * falsy.
   */
  function CreateModel(settings: map<SettingKey, Json>, options: seq<ModelOption>, selectedModel: string)
    : Option<ModelConfig>
  {
    var provider := ProviderOf(options, selectedModel);
    var config :=
      if provider == Some(Anthropic) then
        ModelConfig(AnthropicClient, selectedModel, SettingOr(settings, AnthropicApiKey), None, None)
      else if provider == Some(OpenRouter) then
        ModelConfig(OpenAIClient, selectedModel, SettingOr(settings, OpenRouterApiKey), Some(JStr(OpenRouterUrl)),
                    Some(OpenRouterHeaders))
      else
        ModelConfig(OpenAIClient, selectedModel, SettingOr(settings, ApiKey), Some(SettingOr(settings, BaseUrl)), None);
    if !Truthy(config.apiKey) then None else Some(config)
  }

  /** The routing `createModel` performs, provider by provider. */
  lemma CreateModelRouting(settings: map<SettingKey, Json>, options: seq<ModelOption>, selectedModel: string)
    returns (r: Option<ModelConfig>)
    ensures r == CreateModel(settings, options, selectedModel)
    ensures var p := ProviderOf(options, selectedModel);
      var key := if p == Some(Anthropic) then AnthropicApiKey
                 else if p == Some(OpenRouter) then OpenRouterApiKey else ApiKey;
      && (r.None? <==> !Truthy(SettingOr(settings, key)))
      && (r.Some? ==> r.value.apiKey == SettingOr(settings, key) && r.value.model == selectedModel)
    ensures r.Some? ==> (r.value.client == AnthropicClient <==> ProviderOf(options, selectedModel) == Some(Anthropic))
    ensures r.Some? && r.value.client == AnthropicClient ==> r.value.baseUrl.None? && r.value.headers.None?
    ensures r.Some? && ProviderOf(options, selectedModel) == Some(OpenRouter) ==>
      r.value.baseUrl == Some(JStr(OpenRouterUrl)) && r.value.headers == Some(OpenRouterHeaders)
    ensures (r.Some? && ProviderOf(options, selectedModel) != Some(Anthropic)
      && ProviderOf(options, selectedModel) != Some(OpenRouter)) ==>
      r.value.baseUrl == Some(SettingOr(settings, BaseUrl)) && r.value.headers.None?
  {
    r := CreateModel(settings, options, selectedModel);
  }

  /** `updateUsage` on a total map: falsy usage is ignored; otherwise it is added to the model's running total. */
  function AddUsage(usage: map<string, int>, amount: int, model: string): (r: map<string, int>)
    ensures amount == 0 ==> r == usage
    ensures amount != 0 ==> (r.Keys == usage.Keys + {model}
      && r[model] == (if model in usage then usage[model] else 0) + amount)
    ensures forall m :: m in usage && m != model ==> m in r && r[m] == usage[m]
  {
    if amount == 0 then usage
    else
      var current := if model in usage then usage[model] else 0;
      usage[model := if current != 0 then current + amount else amount]
  }

  /** One reported call: its token count and the model it was made with. */
  datatype UsageReport = UsageReport(amount: int, model: string)

  /** The reports applied in order. */
  function AddUsages(usage: map<string, int>, reports: seq<UsageReport>): map<string, int> {
    if reports == [] then usage
    else
      var last := reports[|reports| - 1];
      AddUsage(AddUsages(usage, reports[..|reports| - 1]), last.amount, last.model)
  }

  /** The tokens reported for one model. */
  function TokensFor(reports: seq<UsageReport>, model: string): int {
    if reports == [] then 0
    else
      var last := reports[|reports| - 1];
      TokensFor(reports[..|reports| - 1], model) + (if last.model == model then last.amount else 0)
  }

  /** Some report for the model carried a non-zero count. */
  predicate Reported(reports: seq<UsageReport>, model: string) {
    exists i :: 0 <= i < |reports| && reports[i].model == model && reports[i].amount != 0
  }

  /**
   * Starting from no usage, a model's entry is the sum of everything
   * reported for it, and it has an entry exactly when something non-zero
   * was reported for it.
   */
  lemma {:induction false} UsageIsSum(reports: seq<UsageReport>, model: string)
    ensures model in AddUsages(map[], reports) <==> Reported(reports, model)
    ensures model in AddUsages(map[], reports) ==> AddUsages(map[], reports)[model] == TokensFor(reports, model)
    ensures model !in AddUsages(map[], reports) ==> TokensFor(reports, model) == 0
  {
    if reports != [] {
      var init := reports[..|reports| - 1];
      var last := reports[|reports| - 1];
      UsageIsSum(init, model);
      ReportedSnoc(reports, model);
    }
  }

  lemma ReportedSnoc(reports: seq<UsageReport>, model: string)
    requires reports != []
    ensures Reported(reports, model) <==>
      Reported(reports[..|reports| - 1], model) || (reports[|reports| - 1].model == model && reports[|reports| - 1].amount != 0)
  {
    var init := reports[..|reports| - 1];
    if Reported(reports, model) {
      var k :| 0 <= k < |reports| && reports[k].model == model && reports[k].amount != 0;
      if k < |init| {
        assert init[k] == reports[k];
      }
    }
    if Reported(init, model) {
      var k :| 0 <= k < |init| && init[k].model == model && init[k].amount != 0;
      assert reports[k] == init[k];
    }
  }

  /** What `process` did. */
  datatype ProcessOutcome =
    | NoModel                                      // reported the missing key
    | Stopped                                      // a stop was requested
    | AlreadyProcessing                            // another call was running; the flag is cleared
    | Called(apiResponse: Option<Agents.ApiResponse>) // the reply handed to `runAgent`, none after an error

  /** The outcome of `process` from the state its guards read and the model's reply. */
  function ProcessOutcomeOf(hasModel: bool, stop: bool, processing: bool, reply: Result<Agents.ApiResponse>): ProcessOutcome {
    if !hasModel then NoModel
    else if stop then Stopped
    else if processing then AlreadyProcessing
    else Called(if reply.Ok? then Some(reply.value) else None)
  }

  /** The notice `handleError` shows: the fixed text after an abort, else the error's message. */
  function ErrorNoticeText(aborted: bool, message: string): string {
    if aborted then AbortedMessage else "Error occured. " + message
  }

  /** The id counter after `process` records `query`, from the counter `id0`. */
  function IdAfterQuery(query: string, renderUserMessage: bool, id0: int): int {
    if query == "" then id0 else if renderUserMessage then id0 + 2 else id0 + 1
  }

  /** The latest model-facing id after `process` records `query`. */
  function LastAfterQuery(query: string, id0: int, last0: int): int {
    if query == "" then last0 else id0 + 1
  }

  /** The display copy of a recorded query, linked to its model-facing copy. */
  function QueryFrontend(query: string, renderUserMessage: bool, id0: int): seq<FrontendMessage> {
    if query != "" && renderUserMessage then [FrontendMessage(id0 + 2, User, Str(query), id0 + 1)] else []
  }

  /** The error notice a failed model call leaves, from the counter `id` and latest model-facing id `last`. */
  function CallNotice(reply: Result<Agents.ApiResponse>, aborted: bool, id: int, last: int): seq<FrontendMessage> {
    if reply.Err? then [FrontendMessage(id + 1, ErrorRole, Str(ErrorNoticeText(aborted, reply.error)), last)] else []
  }

  /**
   * The display messages `process` appends: the missing-key notice without
   * a model; nothing when stopped; otherwise the rendered query and, when
   * the model was called and failed, the error notice.
   */
  function ProcessFrontend(query: string, renderUserMessage: bool, reply: Result<Agents.ApiResponse>,
                           hasModel: bool, stop: bool, processing: bool, aborted: bool, id0: int, last0: int): seq<FrontendMessage> {
    if !hasModel then [FrontendMessage(id0 + 1, ErrorRole, Str(NoApiKeyMessage), last0)]
    else if stop then []
    else
      var notice := CallNotice(reply, aborted, IdAfterQuery(query, renderUserMessage, id0), LastAfterQuery(query, id0, last0));
      QueryFrontend(query, renderUserMessage, id0) + (if processing then [] else notice)
  }

  /** Where `processNewUserMessage` sends a message. */
  datatype Route =
    | PlanFirst   // a new task: the planner runs, then `process()` without a query
    | Direct      // a follow-up: `process(userMessage)`

  /** A new chat, or one holding only images, starts with the planner. */
  function NewMessageRoute(chatIsEmpty: bool, onlyHasImages: bool): (r: Route)
    ensures r == PlanFirst <==> chatIsEmpty || onlyHasImages
  {
    if chatIsEmpty || onlyHasImages then PlanFirst else Direct
  }

  class ChatController {
    const models: DefaultModels
    const options: seq<ModelOption>
    var settings: map<SettingKey, Json>
    var usage: map<string, int>
    var stopProcess: bool
    var isProcessing: bool
    /** Whether the current abort controller's signal has fired. */
    var aborted: bool
    /** How many abort controllers have been created; a new one replaces the last. */
    var abortGeneration: nat
    var model: Option<ModelConfig>
    var smallModel: Option<ModelConfig>
    var chat: Chat

    ghost predicate Valid()
      reads this`chat, chat
    {
      chat.Valid()
    }

    /** The setting `key` holds its stored value, or its default. */
    ghost predicate LoadedAt(stored: SettingKey -> Option<Json>, key: SettingKey)
      reads this`settings
    {
      key in settings && settings[key] == Resolved(stored(key), key, models)
    }

    /** Every key holds its stored value or its default. */
    ghost predicate LoadedFrom(stored: SettingKey -> Option<Json>)
      reads this`settings
    {
      forall k :: LoadedAt(stored, k)
    }

    /**
     * The constructor: flags cleared, settings loaded, both models created,
     * an empty chat and no usage.
     */
    constructor (models: DefaultModels, options: seq<ModelOption>, stored: SettingKey -> Option<Json>)
      ensures Valid() && fresh(chat)
      ensures this.models == models && this.options == options
      ensures LoadedFrom(stored)
      ensures model == CreateModel(settings, options, AsText(SettingOr(settings, SelectedModel)))
      ensures smallModel == CreateModel(settings, options, AsText(SettingOr(settings, SelectedSmallModel)))
      ensures !stopProcess && !isProcessing && usage == map[] && !aborted
      ensures chat.frontendMessages == [] && chat.backendMessages == []
    {
      var loaded := LoadedSettings(models, stored);
      this.models := models;
      this.options := options;
      stopProcess := false;
      isProcessing := false;
      settings := loaded;
      usage := map[];
      aborted := false;
      abortGeneration := 1;
      model := CreateModel(loaded, options, AsText(SettingOr(loaded, SelectedModel)));
      smallModel := CreateModel(loaded, options, AsText(SettingOr(loaded, SelectedSmallModel)));
      chat := new Chat();
    }

    /** `loadSetting`: the stored value, or the default when nothing is stored; recorded under the key. */
    method LoadSetting(key: SettingKey, stored: Option<Json>) returns (value: Json)
      modifies this`settings
      ensures value == (if stored.Some? then stored.value else DefaultSetting(key, models))
      ensures settings == old(settings)[key := value]
    {
      settings := settings[key := if stored.Some? then stored.value else DefaultSetting(key, models)];
      value := settings[key];
    }

    /** `loadAllSettings`: starts afresh and loads every default key. */
    method LoadAllSettings(stored: SettingKey -> Option<Json>)
      modifies this`settings
      ensures LoadedFrom(stored)
    {
      settings := map[];
      var i := 0;
      while i < |SettingKeys|
        invariant 0 <= i <= |SettingKeys|
        invariant forall j :: 0 <= j < i ==> LoadedAt(stored, SettingKeys[j])
      {
        var _ := LoadSetting(SettingKeys[i], stored(SettingKeys[i]));
        i := i + 1;
      }
      forall k ensures LoadedAt(stored, k) {
        var j := KeyIndex(k);
      }
    }

    /** `initializeModel`: a fresh abort controller and both clients rebuilt from the settings. */
    method InitializeModel()
      modifies this`model, this`smallModel, this`aborted, this`abortGeneration
      ensures !aborted && abortGeneration == old(abortGeneration) + 1
      ensures model == CreateModel(settings, options, AsText(SettingOr(settings, SelectedModel)))
      ensures smallModel == CreateModel(settings, options, AsText(SettingOr(settings, SelectedSmallModel)))
    {
      aborted := false;
      abortGeneration := abortGeneration + 1;
      model := CreateModel(settings, options, AsText(SettingOr(settings, SelectedModel)));
      smallModel := CreateModel(settings, options, AsText(SettingOr(settings, SelectedSmallModel)));
    }

    /** `updateUsage`. */
    method UpdateUsage(amount: int, modelName: string)
      modifies this`usage
      ensures usage == AddUsage(old(usage), amount, modelName)
    {
      if amount == 0 {
        return;
      }
      usage := usage[modelName := if modelName in usage && usage[modelName] != 0 then usage[modelName] + amount else amount];
    }

    /**
     * `handleError`: an aborted request gets a fresh abort controller and
     * the aborted notice; any other error is reported with its message.
     * Either way a pending stop request is cleared.
     */
    method HandleError(message: string)
      requires Valid()
      modifies this`stopProcess, this`aborted, this`abortGeneration, chat`currentId, chat`frontendMessages
      ensures Valid()
      ensures !stopProcess
      ensures old(aborted) ==> !aborted && abortGeneration == old(abortGeneration) + 1
      ensures !old(aborted) ==> aborted == old(aborted) && abortGeneration == old(abortGeneration)
      ensures chat.frontendMessages == old(chat.frontendMessages) + [FrontendMessage(old(chat.currentId) + 1, ErrorRole,
        Str(ErrorNoticeText(old(aborted), message)), chat.lastBackendMessageId)]
    {
      if aborted {
        aborted := false;
        abortGeneration := abortGeneration + 1;
        var _ := chat.AddFrontendMessage(ErrorRole, Str(AbortedMessage));
      } else {
        var _ := chat.AddFrontendMessage(ErrorRole, Str("Error occured. " + message));
      }
      stopProcess := false;
    }

    /** Records a truthy query as a backend user message, and on the display when asked to. */
    method RecordQuery(query: string, renderUserMessage: bool)
      requires Valid()
      modifies chat
      ensures Valid()
      ensures query == "" ==> (chat.backendMessages == old(chat.backendMessages)
        && chat.frontendMessages == old(chat.frontendMessages) && chat.currentId == old(chat.currentId))
      ensures query != "" ==>
        chat.backendMessages == old(chat.backendMessages) + [Message(old(chat.currentId) + 1, User, Str(query), None, None, None)]
      ensures query != "" && renderUserMessage ==>
        chat.frontendMessages == old(chat.frontendMessages)
          + [FrontendMessage(old(chat.currentId) + 2, User, Str(query), old(chat.currentId) + 1)]
      ensures !renderUserMessage ==> chat.frontendMessages == old(chat.frontendMessages)
      ensures chat.frontendMessages == old(chat.frontendMessages) + QueryFrontend(query, renderUserMessage, old(chat.currentId))
      ensures chat.currentId == IdAfterQuery(query, renderUserMessage, old(chat.currentId))
      ensures chat.lastBackendMessageId == LastAfterQuery(query, old(chat.currentId), old(chat.lastBackendMessageId))
    {
      if query != "" {
        var _ := chat.AddBackendMessage(User, Str(query), None, None);
        if renderUserMessage {
          var _ := chat.AddFrontendMessage(User, Str(query));
        }
      }
    }

    /**
     * `process(query, renderUserMessage)`. Without a model the missing-key
     * error is shown; with a stop requested nothing happens; otherwise a
     * truthy query is recorded, and if another call is running its flag is
     * cleared and this one gives up. Else the model is called (`reply` is
     * what the call returned or threw), an error goes to `handleError`, the
     * flag is cleared, and the reply, if any, is handed to the agent.
     */
    method Process(query: string, renderUserMessage: bool, reply: Result<Agents.ApiResponse>)
      returns (outcome: ProcessOutcome)
      requires Valid()
      modifies this`stopProcess, this`isProcessing, this`aborted, this`abortGeneration, chat
      ensures Valid()
      ensures old(model).None? <==> outcome == NoModel
      ensures outcome == NoModel ==>
        chat.frontendMessages == old(chat.frontendMessages)
          + [FrontendMessage(old(chat.currentId) + 1, ErrorRole, Str(NoApiKeyMessage), old(chat.lastBackendMessageId))]
        && chat.backendMessages == old(chat.backendMessages)
      ensures old(model).Some? && old(stopProcess) <==> outcome == Stopped
      ensures outcome == Stopped ==>
        chat.frontendMessages == old(chat.frontendMessages) && chat.backendMessages == old(chat.backendMessages)
      ensures old(model).Some? && !old(stopProcess) ==>
        chat.backendMessages == old(chat.backendMessages)
          + (if query != "" then [Message(old(chat.currentId) + 1, User, Str(query), None, None, None)] else [])
      ensures old(model).Some? && !old(stopProcess) && old(isProcessing) <==> outcome == AlreadyProcessing
      ensures outcome.Called? ==> outcome.apiResponse == (if reply.Ok? then Some(reply.value) else None)
      ensures outcome.Called? && reply.Err? ==> !stopProcess
      ensures outcome == AlreadyProcessing || outcome.Called? ==> !isProcessing
      ensures (outcome.Called? && reply.Ok?) || outcome == AlreadyProcessing ==> stopProcess == old(stopProcess)
      ensures outcome == ProcessOutcomeOf(old(model).Some?, old(stopProcess), old(isProcessing), reply)
      ensures chat.frontendMessages == old(chat.frontendMessages)
        + ProcessFrontend(query, renderUserMessage, reply, old(model).Some?, old(stopProcess), old(isProcessing), old(aborted),
                          old(chat.currentId), old(chat.lastBackendMessageId))
      ensures outcome.Called? && reply.Err? ==> !aborted && abortGeneration == old(abortGeneration) + (if old(aborted) then 1 else 0)
      ensures !(outcome.Called? && reply.Err?) ==> aborted == old(aborted) && abortGeneration == old(abortGeneration)
    {
      if model.None? {
        var _ := chat.AddFrontendMessage(ErrorRole, Str(NoApiKeyMessage));
        return NoModel;
      }
      if stopProcess {
        return Stopped;
      }
      outcome := ProcessQuery(query, renderUserMessage, reply);
    }

    /**
     * The part of `process` past its two guards: the query is recorded,
     * then either another call is found running or the model is called.
     */
    method ProcessQuery(query: string, renderUserMessage: bool, reply: Result<Agents.ApiResponse>)
      returns (outcome: ProcessOutcome)
      requires Valid()
      modifies this`stopProcess, this`isProcessing, this`aborted, this`abortGeneration, chat
      ensures Valid() && !isProcessing
      ensures chat.backendMessages == old(chat.backendMessages)
        + (if query != "" then [Message(old(chat.currentId) + 1, User, Str(query), None, None, None)] else [])
      ensures outcome == AlreadyProcessing <==> old(isProcessing)
      ensures outcome == AlreadyProcessing || outcome.Called?
      ensures outcome.Called? ==> outcome.apiResponse == (if reply.Ok? then Some(reply.value) else None)
      ensures outcome.Called? && reply.Err? ==> !stopProcess
      ensures (outcome.Called? && reply.Ok?) || outcome == AlreadyProcessing ==> stopProcess == old(stopProcess)
      ensures chat.frontendMessages == old(chat.frontendMessages) + QueryFrontend(query, renderUserMessage, old(chat.currentId))
        + (if old(isProcessing) then []
           else CallNotice(reply, old(aborted), IdAfterQuery(query, renderUserMessage, old(chat.currentId)),
                           LastAfterQuery(query, old(chat.currentId), old(chat.lastBackendMessageId))))
      ensures outcome.Called? && reply.Err? ==> !aborted && abortGeneration == old(abortGeneration) + (if old(aborted) then 1 else 0)
      ensures !(outcome.Called? && reply.Err?) ==> aborted == old(aborted) && abortGeneration == old(abortGeneration)
    {
      RecordQuery(query, renderUserMessage);
      if query == "" {
        AfterPrefix(chat.backendMessages, []);
      }
      outcome := GuardedCall(reply);
      AppendAssoc(old(chat.frontendMessages), QueryFrontend(query, renderUserMessage, old(chat.currentId)),
        if old(isProcessing) then []
        else CallNotice(reply, old(aborted), IdAfterQuery(query, renderUserMessage, old(chat.currentId)),
                        LastAfterQuery(query, old(chat.currentId), old(chat.lastBackendMessageId))));
    }

    /**
     * The tail of `process` once the query is recorded: a call already
     * running makes this one clear the flag and give up; otherwise the
     * model is called.
     */
    method GuardedCall(reply: Result<Agents.ApiResponse>) returns (outcome: ProcessOutcome)
      requires Valid()
      modifies this`stopProcess, this`isProcessing, this`aborted, this`abortGeneration, chat`currentId, chat`frontendMessages
      ensures Valid() && !isProcessing
      ensures outcome == (if old(isProcessing) then AlreadyProcessing else Called(if reply.Ok? then Some(reply.value) else None))
      ensures outcome.Called? && reply.Err? ==> !stopProcess
      ensures (outcome.Called? && reply.Ok?) || outcome == AlreadyProcessing ==> stopProcess == old(stopProcess)
      ensures chat.frontendMessages == old(chat.frontendMessages)
        + (if old(isProcessing) then [] else CallNotice(reply, old(aborted), old(chat.currentId), old(chat.lastBackendMessageId)))
      ensures outcome.Called? && reply.Err? ==> !aborted && abortGeneration == old(abortGeneration) + (if old(aborted) then 1 else 0)
      ensures !(outcome.Called? && reply.Err?) ==> aborted == old(aborted) && abortGeneration == old(abortGeneration)
    {
      if isProcessing {
        isProcessing := false;
        return AlreadyProcessing;
      }
      var apiResponse := CallModel(reply);
      outcome := Called(apiResponse);
    }

    /**
     * The guarded call of `process`: the flag is set for its duration, and
     * a failure goes to `handleError`.
     */
    method CallModel(reply: Result<Agents.ApiResponse>) returns (apiResponse: Option<Agents.ApiResponse>)
      requires Valid()
      modifies this`stopProcess, this`isProcessing, this`aborted, this`abortGeneration, chat`currentId, chat`frontendMessages
      ensures Valid() && !isProcessing
      ensures apiResponse == (if reply.Ok? then Some(reply.value) else None)
      ensures reply.Err? ==> !stopProcess
      ensures reply.Ok? ==> stopProcess == old(stopProcess)
      ensures chat.frontendMessages == old(chat.frontendMessages) + CallNotice(reply, old(aborted), old(chat.currentId), old(chat.lastBackendMessageId))
      ensures reply.Ok? ==> chat.currentId == old(chat.currentId) && aborted == old(aborted) && abortGeneration == old(abortGeneration)
      ensures reply.Err? ==> !aborted && abortGeneration == old(abortGeneration) + (if old(aborted) then 1 else 0)
    {
      isProcessing := true;
      apiResponse := None;
      match reply {
        case Ok(r) =>
          apiResponse := Some(r);
        case Err(e) =>
          HandleError(e);
      }
      isProcessing := false;
    }

    /**
     * `processNewUserMessage`: a new task (empty chat, or only images) is
     * planned first and then processed without a query, so the message is
     * not recorded as a query; a follow-up is processed as the query.
     */
    method ProcessNewUserMessage(userMessage: string, onlyHasImages: bool, reply: Result<Agents.ApiResponse>)
      returns (route: Route, outcome: ProcessOutcome)
      requires Valid()
      modifies this`stopProcess, this`isProcessing, this`aborted, this`abortGeneration, chat
      ensures Valid()
      ensures route == NewMessageRoute(|old(chat.frontendMessages)| == 0, onlyHasImages)
      ensures route == PlanFirst ==> chat.backendMessages == old(chat.backendMessages)
      ensures route == Direct && userMessage != "" && old(model).Some? && !old(stopProcess) ==>
        chat.backendMessages == old(chat.backendMessages) + [Message(old(chat.currentId) + 1, User, Str(userMessage), None, None, None)]
      ensures outcome == ProcessOutcomeOf(old(model).Some?, old(stopProcess), old(isProcessing), reply)
      ensures chat.frontendMessages == old(chat.frontendMessages)
        + ProcessFrontend(if route == PlanFirst then "" else userMessage, true, reply, old(model).Some?, old(stopProcess),
                          old(isProcessing), old(aborted), old(chat.currentId), old(chat.lastBackendMessageId))
    {
      var isEmpty := chat.IsEmpty();
      route := NewMessageRoute(isEmpty, onlyHasImages);
      if route == PlanFirst {
        outcome := Process("", true, reply);
        AfterPrefix(old(chat.backendMessages), []);
      } else {
        outcome := Process(userMessage, true, reply);
      }
    }
  }

  /** A setting's text, as the model lookup compares it; anything else matches no model name. */
  function AsText(j: Json): string {
    if j.JStr? then j.s else ""
  }
}
