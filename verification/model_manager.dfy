/**
 * The model manager: catalog lookups, the models of enabled providers, the
 * selection state and its validation, provider configuration, cost estimates,
 * the recommended model for a task, and the configuration record built from the
 * user settings. The catalog and the configuration are parameters.
 */
module ModelManager {
  import opened Wrappers
  import opened Text
  import opened Types
  import opened Seqs
  import Defaults
  import Settings

  /** The in-memory model id and the value persisted in global state. */
  datatype ModelState = ModelState(current: string, persisted: Option<string>)

  /** How `setModel` ended: the selection changed, the provider is disabled, or it threw. */
  datatype SetModelOutcome = Selected | ProviderDisabled | UnknownModel(message: string)

  /** `getModelById(id)`: the first catalog entry with that id. */
  function GetModelById(catalog: seq<Model>, id: string): (r: Option<Model>)
    ensures r.Some? ==> r.value in catalog && r.value.id == id
    ensures r.None? <==> forall k :: 0 <= k < |catalog| ==> catalog[k].id != id
    ensures r.Some? ==> exists k :: 0 <= k < |catalog| && catalog[k] == r.value && forall j :: 0 <= j < k ==> catalog[j].id != id
  {
    Find(catalog, (m: Model) => m.id == id)
  }

  /** `config.models[p]?.enabled ?? false`. */
  predicate ProviderEnabled(config: ExtensionConfig, p: Provider) {
    p in config.models && config.models[p].enabled
  }

  /** The `filter` condition of `getAvailableModels`. */
  function EnabledIn(config: ExtensionConfig): Model -> bool {
    (m: Model) => ProviderEnabled(config, m.provider)
  }

  /** `getAvailableModels()`: the catalog entries whose provider is enabled, in catalog order. */
  function GetAvailableModels(catalog: seq<Model>, config: ExtensionConfig): (r: seq<Model>)
    ensures forall k :: 0 <= k < |r| ==> r[k] in catalog && ProviderEnabled(config, r[k].provider)
    ensures forall k :: 0 <= k < |catalog| && ProviderEnabled(config, catalog[k].provider) ==> catalog[k] in r
    ensures forall k ::
      (0 <= k < |catalog| && ProviderEnabled(config, catalog[k].provider)
       && (forall j :: 0 <= j < k ==> !ProviderEnabled(config, catalog[j].provider)))
      ==> r != [] && r[0] == catalog[k]
  {
    FilterHead(catalog, EnabledIn(config));
    Filter(catalog, EnabledIn(config))
  }

  /** The available models keep catalog order: they sit at strictly increasing catalog positions. */
  lemma AvailableInCatalogOrder(catalog: seq<Model>, config: ExtensionConfig) returns (idx: seq<nat>)
    ensures |idx| == |GetAvailableModels(catalog, config)|
    ensures forall k :: 0 <= k < |idx| ==> idx[k] < |catalog| && GetAvailableModels(catalog, config)[k] == catalog[idx[k]]
    ensures forall k, l :: 0 <= k < l < |idx| ==> idx[k] < idx[l]
  {
    idx := FilterIndices(catalog, EnabledIn(config));
  }

  /** `setModel(id)`: the new state and how the call ended. */
  function SetModel(catalog: seq<Model>, config: ExtensionConfig, st: ModelState, id: string)
    : (r: (ModelState, SetModelOutcome))
    ensures r.1 == Selected <==>
      exists k :: 0 <= k < |catalog| && catalog[k].id == id && GetModelById(catalog, id) == Some(catalog[k])
        && ProviderEnabled(config, catalog[k].provider)
    ensures r.1 == Selected ==> r.0 == ModelState(id, Some(id))
    ensures r.1 != Selected ==> r.0 == st
    ensures r.1.UnknownModel? <==> GetModelById(catalog, id).None?
    ensures r.1.UnknownModel? ==> r.1.message == "Model not found: " + id
  {
    match GetModelById(catalog, id)
    case None => (st, UnknownModel("Model not found: " + id))
    case Some(model) =>
      if !ProviderEnabled(config, model.provider) then (st, ProviderDisabled)
      else
        (ModelState(id, Some(id)), Selected)
  }

  /** `isProviderConfigured(p)`: enabled, and for vendors other than cursor and local, a non-empty key. */
  predicate IsProviderConfigured(config: ExtensionConfig, p: Provider) {
    ProviderEnabled(config, p) && (p == Cursor || p == Local || Truthy(config.models[p].apiKey))
  }

  /** `validateModel(id)`: None when valid, else the error message. */
  function ValidateModel(catalog: seq<Model>, config: ExtensionConfig, id: string): (r: Option<string>)
    ensures r == Some("Model not found") <==> GetModelById(catalog, id).None?
    ensures r.None? <==> GetModelById(catalog, id).Some? && IsProviderConfigured(config, GetModelById(catalog, id).value.provider)
    ensures r.Some? && GetModelById(catalog, id).Some? ==>
      r.value == "Provider " + GetModelById(catalog, id).value.provider.Id() + " not configured"
  {
    match GetModelById(catalog, id)
    case None => Some("Model not found")
    case Some(model) =>
      if !IsProviderConfigured(config, model.provider) then
        assert StartsWith("Provider " + model.provider.Id() + " not configured", "P");
        Some("Provider " + model.provider.Id() + " not configured")
      else None
  }

  /** `calculateCost(id, in, out)`: dollars for the token counts, None without a model or pricing. */
  function CalculateCost(catalog: seq<Model>, id: string, inputTokens: int, outputTokens: int): (r: Option<real>)
    ensures r.None? <==> GetModelById(catalog, id).None? || GetModelById(catalog, id).value.pricing.None?
    ensures r.Some? && inputTokens >= 0 && outputTokens >= 0
      && GetModelById(catalog, id).value.pricing.value.input >= 0.0
      && GetModelById(catalog, id).value.pricing.value.output >= 0.0
      ==> r.value >= 0.0
  {
    match GetModelById(catalog, id)
    case None => None
    case Some(model) =>
      match model.pricing
      case None => None
      case Some(p) =>
        var inputCost := (inputTokens as real / 1000000.0) * p.input;
        var outputCost := (outputTokens as real / 1000000.0) * p.output;
        MulNonNeg(inputTokens as real / 1000000.0, p.input);
        MulNonNeg(outputTokens as real / 1000000.0, p.output);
        Some(inputCost + outputCost)
  }

  /** A product of two non-negative reals is non-negative. */
  lemma MulNonNeg(a: real, b: real)
    ensures a >= 0.0 && b >= 0.0 ==> a * b >= 0.0
  {
  }

  /** A million tokens of input, or of output, cost exactly that price; no tokens cost nothing. */
  lemma CostOfUnits(catalog: seq<Model>, id: string)
    requires GetModelById(catalog, id).Some? && GetModelById(catalog, id).value.pricing.Some?
    ensures CalculateCost(catalog, id, 1000000, 0) == Some(GetModelById(catalog, id).value.pricing.value.input)
    ensures CalculateCost(catalog, id, 0, 1000000) == Some(GetModelById(catalog, id).value.pricing.value.output)
    ensures CalculateCost(catalog, id, 0, 0) == Some(0.0)
  {
  }

  /** The cost is additive in the token counts, so with the unit prices it is fixed for every count. */
  lemma CostAdditive(catalog: seq<Model>, id: string, in1: int, out1: int, in2: int, out2: int)
    requires GetModelById(catalog, id).Some? && GetModelById(catalog, id).value.pricing.Some?
    ensures CalculateCost(catalog, id, in1 + in2, out1 + out2).value
         == CalculateCost(catalog, id, in1, out1).value + CalculateCost(catalog, id, in2, out2).value
  {
    var p := GetModelById(catalog, id).value.pricing.value;
    assert ((in1 + in2) as real / 1000000.0) * p.input
        == (in1 as real / 1000000.0) * p.input + (in2 as real / 1000000.0) * p.input;
    assert ((out1 + out2) as real / 1000000.0) * p.output
        == (out1 as real / 1000000.0) * p.output + (out2 as real / 1000000.0) * p.output;
  }

  // ---------------------------------------------------------------------------
  // recommended model

  /** Every element's context window is at least that of the elements after it. */
  predicate SortedDesc(xs: seq<Model>) {
    forall i, j :: 0 <= i < j < |xs| ==> xs[i].contextWindow >= xs[j].contextWindow
  }

  /** Inserts `x` in front of the first element whose window is not larger, keeping `xs` sorted. */
  function Insert(x: Model, xs: seq<Model>): (r: seq<Model>)
    requires SortedDesc(xs)
    ensures SortedDesc(r)
    ensures multiset(r) == multiset(xs) + multiset{x}
    ensures |xs| > 0 ==> r[0] == (if xs[0].contextWindow <= x.contextWindow then x else xs[0])
    ensures |xs| == 0 ==> r == [x]
  {
    if |xs| == 0 || xs[0].contextWindow <= x.contextWindow then
      ConsSorted(x, xs);
      [x] + xs
    else
      var rest := Insert(x, xs[1..]);
      assert xs == [xs[0]] + xs[1..];
      ConsSorted(xs[0], rest);
      [xs[0]] + rest
  }

  /** An element no smaller than the head of a sorted sequence can go in front of it. */
  lemma ConsSorted(y: Model, ys: seq<Model>)
    requires SortedDesc(ys) && (|ys| > 0 ==> ys[0].contextWindow <= y.contextWindow)
    ensures SortedDesc([y] + ys)
  {
    forall i, j | 0 <= i < j < |[y] + ys|
      ensures ([y] + ys)[i].contextWindow >= ([y] + ys)[j].contextWindow
    {
      if i > 0 {
        assert ([y] + ys)[i] == ys[i - 1];
      }
      assert ([y] + ys)[j] == ys[j - 1];
    }
  }

  /**
   * `suitable.sort((a, b) => b.contextWindow - a.contextWindow)`: a stable sort, so
   * an earlier element stays in front of a later one with the same window.
   */
  function SortByWindowDesc(xs: seq<Model>): (r: seq<Model>)
    ensures SortedDesc(r)
    ensures multiset(r) == multiset(xs)
  {
    if |xs| == 0 then []
    else
      assert xs == [xs[0]] + xs[1..];
      Insert(xs[0], SortByWindowDesc(xs[1..]))
  }

  /** `k` is the first position holding the largest context window of `xs`. */
  ghost predicate IsFirstMax(xs: seq<Model>, k: int) {
    0 <= k < |xs|
    && (forall j :: 0 <= j < |xs| ==> xs[j].contextWindow <= xs[k].contextWindow)
    && (forall j :: 0 <= j < k ==> xs[j].contextWindow < xs[k].contextWindow)
  }

  /** Extending a sequence at the front moves its first maximum to the new head or one place right. */
  lemma FirstMaxStep(xs: seq<Model>, k1: nat)
    requires |xs| > 1 && IsFirstMax(xs[1..], k1)
    ensures xs[1..][k1].contextWindow <= xs[0].contextWindow ==> IsFirstMax(xs, 0)
    ensures xs[1..][k1].contextWindow > xs[0].contextWindow ==> IsFirstMax(xs, k1 + 1)
  {
    assert forall j :: 1 <= j < |xs| ==> xs[j] == xs[1..][j - 1];
  }

  /** The head of the stable descending sort is the first element of maximal window. */
  lemma {:induction false} SortHeadIsFirstMax(xs: seq<Model>) returns (k: nat)
    requires |xs| > 0
    ensures IsFirstMax(xs, k) && SortByWindowDesc(xs)[0] == xs[k]
  {
    if |xs| == 1 {
      k := 0;
    } else {
      var tail := SortByWindowDesc(xs[1..]);
      var k1 := SortHeadIsFirstMax(xs[1..]);
      assert SortByWindowDesc(xs) == Insert(xs[0], tail);
      FirstMaxStep(xs, k1);
      k := if tail[0].contextWindow <= xs[0].contextWindow then 0 else k1 + 1;
    }
  }

  /** The `filter` condition of `getRecommendedModel`: the model lists the task among its capabilities. */
  function HasCapability(task: string): Model -> bool {
    (m: Model) => task in m.capabilities
  }

  /** `getRecommendedModel(task)`. */
  function GetRecommendedModel(catalog: seq<Model>, config: ExtensionConfig, task: string): (r: Option<Model>)
    ensures r.Some? ==> r.value in GetAvailableModels(catalog, config)
    ensures r.None? <==> GetAvailableModels(catalog, config) == []
  {
    var available := GetAvailableModels(catalog, config);
    var suitable := Filter(available, HasCapability(task));
    if |suitable| == 0 then
      if |available| > 0 then Some(available[0]) else None
    else
      var sorted := SortByWindowDesc(suitable);
      assert sorted[0] in multiset(suitable);
      Some(sorted[0])
  }

  /**
   * The recommendation for a task: the first available model when none has the
   * capability; otherwise the first suitable model of maximal context window.
   */
  lemma RecommendedModelSpec(catalog: seq<Model>, config: ExtensionConfig, task: string)
    ensures var available := GetAvailableModels(catalog, config);
      var suitable := Filter(available, HasCapability(task));
      var r := GetRecommendedModel(catalog, config, task);
      (suitable == [] && available != [] ==> r == Some(available[0])) &&
      (suitable != [] ==> exists k :: IsFirstMax(suitable, k) && r == Some(suitable[k])) &&
      (r.Some? && suitable != [] ==> task in r.value.capabilities)
  {
    var available := GetAvailableModels(catalog, config);
    var suitable := Filter(available, HasCapability(task));
    if suitable != [] {
      var k := SortHeadIsFirstMax(suitable);
    }
  }

  /** The model's provider is enabled and the model lists the task among its capabilities. */
  predicate Suits(config: ExtensionConfig, task: string, m: Model) {
    ProviderEnabled(config, m.provider) && task in m.capabilities
  }

  /** Catalog position `c` holds the earliest suiting model of maximal context window. */
  ghost predicate FirstMaxSuiting(catalog: seq<Model>, config: ExtensionConfig, task: string, c: int) {
    0 <= c < |catalog| && Suits(config, task, catalog[c])
    && (forall j :: 0 <= j < |catalog| && Suits(config, task, catalog[j]) ==>
          catalog[j].contextWindow <= catalog[c].contextWindow)
    && (forall j :: 0 <= j < c && Suits(config, task, catalog[j]) ==>
          catalog[j].contextWindow < catalog[c].contextWindow)
  }

  /** A suiting catalog position is reached from `suitable` through the two filters' positions. */
  lemma SuitingPosition(catalog: seq<Model>, config: ExtensionConfig, task: string,
                        idxA: seq<nat>, idxS: seq<nat>, j: int) returns (s: nat)
    requires InOrder(catalog, GetAvailableModels(catalog, config), idxA) && Covers(catalog, EnabledIn(config), idxA, 0)
    requires InOrder(GetAvailableModels(catalog, config), Filter(GetAvailableModels(catalog, config), HasCapability(task)), idxS)
    requires Covers(GetAvailableModels(catalog, config), HasCapability(task), idxS, 0)
    requires 0 <= j < |catalog| && Suits(config, task, catalog[j])
    ensures s < |idxS| && idxS[s] < |idxA| && idxA[idxS[s]] == j
    ensures Filter(GetAvailableModels(catalog, config), HasCapability(task))[s] == catalog[j]
  {
    var available := GetAvailableModels(catalog, config);
    assert EnabledIn(config)(catalog[j]);
    assert j in idxA;
    var a :| 0 <= a < |idxA| && idxA[a] == j;
    assert HasCapability(task)(available[a]);
    assert a in idxS;
    s :| 0 <= s < |idxS| && idxS[s] == a;
  }

  /** Composing two strictly increasing position lists keeps them strictly increasing. */
  lemma ComposedOrder(idxA: seq<nat>, idxS: seq<nat>, s: nat, k: nat)
    requires forall a, b :: 0 <= a < b < |idxA| ==> idxA[a] < idxA[b]
    requires forall a, b :: 0 <= a < b < |idxS| ==> idxS[a] < idxS[b]
    requires s < |idxS| && k < |idxS| && idxS[s] < |idxA| && idxS[k] < |idxA|
    ensures idxA[idxS[s]] < idxA[idxS[k]] <==> s < k
  {
  }

  /** When some catalog model suits the task, the recommendation is the earliest suiting model of maximal window. */
  lemma RecommendedWhenSuiting(catalog: seq<Model>, config: ExtensionConfig, task: string, j0: int) returns (c: int)
    requires 0 <= j0 < |catalog| && Suits(config, task, catalog[j0])
    ensures FirstMaxSuiting(catalog, config, task, c) && GetRecommendedModel(catalog, config, task) == Some(catalog[c])
  {
    var available := GetAvailableModels(catalog, config);
    var suitable := Filter(available, HasCapability(task));
    var idxA := FilterIndices(catalog, EnabledIn(config));
    var idxS := FilterIndices(available, HasCapability(task));
    var s0 := SuitingPosition(catalog, config, task, idxA, idxS, j0);
    var k := SortHeadIsFirstMax(suitable);
    c := idxA[idxS[k]];
    assert catalog[c] == suitable[k];
    assert HasCapability(task)(suitable[k]);
    forall j | 0 <= j < |catalog| && Suits(config, task, catalog[j])
      ensures catalog[j].contextWindow <= catalog[c].contextWindow
    {
      var s := SuitingPosition(catalog, config, task, idxA, idxS, j);
    }
    forall j | 0 <= j < c && Suits(config, task, catalog[j])
      ensures catalog[j].contextWindow < catalog[c].contextWindow
    {
      var s := SuitingPosition(catalog, config, task, idxA, idxS, j);
      ComposedOrder(idxA, idxS, s, k);
    }
  }

  /** A model that survives the capability filter is a suiting catalog model. */
  lemma SuitableFromCatalog(catalog: seq<Model>, config: ExtensionConfig, task: string)
    ensures Filter(GetAvailableModels(catalog, config), HasCapability(task)) != [] ==>
      exists j :: 0 <= j < |catalog| && Suits(config, task, catalog[j])
  {
    var available := GetAvailableModels(catalog, config);
    var suitable := Filter(available, HasCapability(task));
    if suitable != [] {
      var m := suitable[0];
      assert m in available && HasCapability(task)(m);
      var a :| 0 <= a < |available| && available[a] == m;
      var j :| 0 <= j < |catalog| && catalog[j] == m;
      assert Suits(config, task, catalog[j]);
    }
  }

  /**
   * The recommendation in catalog positions: when some enabled model has the
   * capability, the earliest such model of maximal window, ties going to the
   * earlier catalog entry; otherwise the first enabled model of the catalog.
   */
  lemma RecommendedInCatalogOrder(catalog: seq<Model>, config: ExtensionConfig, task: string)
    ensures (exists j :: 0 <= j < |catalog| && Suits(config, task, catalog[j])) ==>
      exists c :: FirstMaxSuiting(catalog, config, task, c) && GetRecommendedModel(catalog, config, task) == Some(catalog[c])
    ensures (forall j :: 0 <= j < |catalog| ==> !Suits(config, task, catalog[j])) ==>
      forall c ::
        (0 <= c < |catalog| && ProviderEnabled(config, catalog[c].provider)
         && (forall j :: 0 <= j < c ==> !ProviderEnabled(config, catalog[j].provider)))
        ==> GetRecommendedModel(catalog, config, task) == Some(catalog[c])
  {
    if j0 :| 0 <= j0 < |catalog| && Suits(config, task, catalog[j0]) {
      var c := RecommendedWhenSuiting(catalog, config, task, j0);
    } else {
      SuitableFromCatalog(catalog, config, task);
      RecommendedModelSpec(catalog, config, task);
    }
  }

  // ---------------------------------------------------------------------------
  // selection and configuration

  /** `loadSelectedModel()`: the persisted id if it is a non-empty string, else the default model setting. */
  function LoadSelectedModel(saved: Option<string>, settings: Settings.UserSettings): (r: string)
    ensures Truthy(saved) ==> r == saved.value
    ensures !Truthy(saved) ==> r == Settings.DefaultModel(settings)
  {
    if Truthy(saved) then saved.value else Settings.DefaultModel(settings)
  }

  /** `(user?.trim()) || (defaultKey && defaultKey.trim()) || undefined`. */
  function OpenAIConfigKey(userKey: Option<string>, defaultKey: string): (r: Option<string>)
    ensures r.Some? ==> r.value != "" && IsTrimmed(r.value)
    ensures userKey.Some? && !IsBlank(userKey.value) ==> r == Some(Trim(userKey.value))
    ensures (userKey.None? || IsBlank(userKey.value)) && !IsBlank(defaultKey) ==> r == Some(Trim(defaultKey))
    ensures (userKey.None? || IsBlank(userKey.value)) && IsBlank(defaultKey) ==> r.None?
  {
    if userKey.Some? && Trim(userKey.value) != "" then Some(Trim(userKey.value))
    else if defaultKey != "" && Trim(defaultKey) != "" then Some(Trim(defaultKey))
    else None
  }

  /** The configuration record `getConfig()` builds from the settings and the built-in key. */
  function GetConfig(s: Settings.UserSettings, defaultKey: string): (r: ExtensionConfig)
    ensures r.defaultModel == Settings.DefaultModel(s) && r.defaultRole == Settings.DefaultRole(s)
    ensures r.models.Keys == {OpenAI, Anthropic, Google, Cursor}
    ensures r.models[OpenAI].apiKey == OpenAIConfigKey(s.openaiApiKey, defaultKey)
    ensures r.models[OpenAI].enabled <==> s.openaiEnabled == Some(true) || !IsBlank(defaultKey)
    ensures r.models[Cursor].enabled <==> s.cursorEnabled != Some(false)
    ensures r.models[Anthropic].enabled <==> s.anthropicEnabled == Some(true)
    ensures r.models[Google].enabled <==> s.googleEnabled == Some(true)
    ensures r.models[Cursor].apiKey.None?
    ensures r.models[Anthropic].apiKey == s.anthropicApiKey && r.models[Google].apiKey == s.googleApiKey
  {
    ExtensionConfig(
      Settings.DefaultRole(s),
      Settings.DefaultModel(s),
      Settings.AutoPromptEnhancement(s),
      s.contextAwareness.GetOr(true),
      s.roleAutoSwitch.GetOr(false),
      s.showRoleInStatusBar.GetOr(true),
      s.showModelInStatusBar.GetOr(true),
      s.telemetryEnabled.GetOr(true),
      map[
        OpenAI := ModelProviderConfig(OpenAI, "OpenAI", OpenAIConfigKey(s.openaiApiKey, defaultKey),
          s.openaiOrganization, Some(s.openaiDefaultModel.GetOr("gpt-4-turbo")),
          s.openaiEnabled.GetOr(false) || (defaultKey != "" && Trim(defaultKey) != "")),
        Anthropic := ModelProviderConfig(Anthropic, "Anthropic", s.anthropicApiKey, None,
          Some(s.anthropicDefaultModel.GetOr("claude-3-sonnet")), s.anthropicEnabled.GetOr(false)),
        Google := ModelProviderConfig(Google, "Google", s.googleApiKey, None,
          Some(s.googleDefaultModel.GetOr("gemini-pro")), s.googleEnabled.GetOr(false)),
        Cursor := ModelProviderConfig(Cursor, "Cursor", None, None,
          Some(s.cursorDefaultModel.GetOr("cursor-default")), s.cursorEnabled.GetOr(true))
      ],
      Settings.EnhancementConfig(s))
  }

  // ---------------------------------------------------------------------------
  // properties

  /** With unique ids, looking up an entry's id finds that entry. */
  lemma LookupUnique(catalog: seq<Model>, k: nat)
    requires k < |catalog|
    requires forall i, j :: 0 <= i < j < |catalog| ==> catalog[i].id != catalog[j].id
    ensures GetModelById(catalog, catalog[k].id) == Some(catalog[k])
  {
    var r := FindFirst(catalog, (m: Model) => m.id == catalog[k].id);
    assert r.Some?;
    assert r.value == k;
  }

  /** A model that validates is always accepted by `setModel`. */
  lemma ValidImpliesSelectable(catalog: seq<Model>, config: ExtensionConfig, st: ModelState, id: string)
    requires ValidateModel(catalog, config, id).None?
    ensures SetModel(catalog, config, st, id).1 == Selected
  {
  }

  /** An enabled provider without a key: `setModel` accepts its models, `validateModel` rejects them. */
  lemma EnabledButUnconfigured(catalog: seq<Model>, config: ExtensionConfig, st: ModelState, id: string)
    requires GetModelById(catalog, id).Some?
    requires ProviderEnabled(config, GetModelById(catalog, id).value.provider)
    requires !IsProviderConfigured(config, GetModelById(catalog, id).value.provider)
    ensures SetModel(catalog, config, st, id).1 == Selected
    ensures ValidateModel(catalog, config, id) ==
      Some("Provider " + GetModelById(catalog, id).value.provider.Id() + " not configured")
  {
    var m := GetModelById(catalog, id).value;
    var k :| 0 <= k < |catalog| && catalog[k] == m;
  }

  /** The configuration with the OpenAI provider switched on, no user key and the empty built-in key. */
  lemma KeylessOpenAI()
    ensures var config := GetConfig(Settings.Unset.(openaiEnabled := Some(true)), "");
      ProviderEnabled(config, OpenAI) && !IsProviderConfigured(config, OpenAI)
  {
    var s := Settings.Unset.(openaiEnabled := Some(true));
    assert s.openaiApiKey.None?;
    assert IsBlank("");
  }

  lemma Gpt4Lookup()
    ensures GetModelById(Defaults.AvailableModels, "gpt-4").Some?
    ensures GetModelById(Defaults.AvailableModels, "gpt-4").value.provider == OpenAI
  {
    Defaults.ModelIdsUnique();
    LookupUnique(Defaults.AvailableModels, 1);
  }

  /**
   * The converse fails: `setModel` checks only that the provider is enabled, so an
   * enabled OpenAI provider without a key accepts `gpt-4`, which `validateModel` rejects.
   */
  lemma SelectableButInvalid(st: ModelState)
    ensures var config := GetConfig(Settings.Unset.(openaiEnabled := Some(true)), "");
      SetModel(Defaults.AvailableModels, config, st, "gpt-4").1 == Selected &&
      ValidateModel(Defaults.AvailableModels, config, "gpt-4") == Some("Provider openai not configured")
  {
    var config := GetConfig(Settings.Unset.(openaiEnabled := Some(true)), "");
    KeylessOpenAI();
    Gpt4Lookup();
    EnabledButUnconfigured(Defaults.AvailableModels, config, st, "gpt-4");
    OpenAIMessage();
  }

  lemma OpenAIMessage()
    ensures "Provider " + OpenAI.Id() + " not configured" == "Provider openai not configured"
  {
  }

  /** With the default settings and the empty built-in key only the Cursor model is available. */
  lemma DefaultAvailability()
    ensures var config := GetConfig(Settings.Unset, Defaults.DefaultOpenAIApiKey);
      forall m :: m in GetAvailableModels(Defaults.AvailableModels, config) ==> m.provider == Cursor
  {
    var s := Settings.Unset;
    assert s.openaiEnabled.None? && s.anthropicEnabled.None? && s.googleEnabled.None?;
    var config := GetConfig(s, Defaults.DefaultOpenAIApiKey);
    assert IsBlank("");
    assert !ProviderEnabled(config, OpenAI) && !ProviderEnabled(config, Anthropic);
    assert !ProviderEnabled(config, Google) && !ProviderEnabled(config, Local);
    var avail := GetAvailableModels(Defaults.AvailableModels, config);
    forall m | m in avail ensures m.provider == Cursor {
      var k :| 0 <= k < |avail| && avail[k] == m;
    }
  }

  /** A thousand input and five hundred output tokens of `gpt-4`, at $30 and $60 per million, cost six cents. */
  lemma Gpt4Cost()
    ensures CalculateCost(Defaults.AvailableModels, "gpt-4", 1000, 500) == Some(0.06)
  {
    Defaults.ModelIdsUnique();
    LookupUnique(Defaults.AvailableModels, 1);
  }

  /** Among the shipped ids the cost is undefined exactly for `cursor-default`, and never negative. */
  lemma ShippedCosts(id: string, inputTokens: nat, outputTokens: nat)
    requires exists k :: 0 <= k < |Defaults.AvailableModels| && Defaults.AvailableModels[k].id == id
    ensures CalculateCost(Defaults.AvailableModels, id, inputTokens, outputTokens).None? <==> id == "cursor-default"
    ensures CalculateCost(Defaults.AvailableModels, id, inputTokens, outputTokens).Some? ==>
      CalculateCost(Defaults.AvailableModels, id, inputTokens, outputTokens).value >= 0.0
  {
    Defaults.PricingFacts();
    var m := GetModelById(Defaults.AvailableModels, id);
    assert m.Some? && m.value in Defaults.AvailableModels;
  }
}
