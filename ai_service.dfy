/**
 * The AI service selector: which model the environment asks for, which
 * models have keys, the fallback model, the deployment environment, and the
 * control flow of `callAI` — one call to the selected model and at most one
 * to a fallback. The two HTTP clients are one oracle from model to reply.
 */
module AiService {
  import opened Wrappers
  import opened Environment
  import CacheManager

  datatype AIModel = Gemini | DeepSeek

  /** Declaration order, used for the available list. */
  function Rank(m: AIModel): nat {
    match m
    case Gemini => 0
    case DeepSeek => 1
  }

  /** The environment variable holding a model's API key. */
  function KeyVariable(m: AIModel): string {
    match m
    case Gemini => "GOOGLE_API_KEY"
    case DeepSeek => "DEEPSEEK_API_KEY"
  }

  /** `getCurrentAIModel`: AI_MODEL when it names a model, else Gemini when its key is set, else DeepSeek. */
  function CurrentModel(env: Env): (m: AIModel)
    ensures Equals(env, "AI_MODEL", "gemini") ==> m == Gemini
    ensures Equals(env, "AI_MODEL", "deepseek") ==> m == DeepSeek
    ensures !Equals(env, "AI_MODEL", "gemini") && !Equals(env, "AI_MODEL", "deepseek") ==>
      (m == Gemini <==> Truthy(env, "GOOGLE_API_KEY"))
  {
    if Equals(env, "AI_MODEL", "gemini") then Gemini
    else if Equals(env, "AI_MODEL", "deepseek") then DeepSeek
    else if Truthy(env, KeyVariable(Gemini)) then Gemini
    else DeepSeek
  }

  /** `isAIModelAvailable`: the model's key is set and non-empty. */
  predicate Available(env: Env, m: AIModel) {
    Truthy(env, KeyVariable(m))
  }

  /** Without an explicit AI_MODEL the automatic choice is available whenever any model is. */
  lemma AutomaticChoiceAvailable(env: Env, m: AIModel)
    requires !Equals(env, "AI_MODEL", "gemini") && !Equals(env, "AI_MODEL", "deepseek")
    requires Available(env, m)
    ensures Available(env, CurrentModel(env))
  {
  }

  /** `getAvailableAIModels`: the models with keys, Gemini before DeepSeek. */
  method AvailableModels(env: Env) returns (models: seq<AIModel>)
    ensures forall m :: m in models <==> Available(env, m)
    ensures forall i, j :: 0 <= i < j < |models| ==> Rank(models[i]) < Rank(models[j])
  {
    models := [];
    if Available(env, Gemini) {
      models := models + [Gemini];
    }
    if Available(env, DeepSeek) {
      models := models + [DeepSeek];
    }
  }

  /** `getFallbackAIModel`: the first available model other than `primary`. */
  method FallbackModel(env: Env, primary: AIModel) returns (r: Option<AIModel>)
    ensures r.Some? ==> r.value != primary && Available(env, r.value)
    ensures r.None? <==> forall m :: m != primary ==> !Available(env, m)
  {
    var models := AvailableModels(env);
    var i := 0;
    while i < |models|
      invariant 0 <= i <= |models|
      invariant forall j :: 0 <= j < i ==> models[j] == primary
    {
      if models[i] != primary {
        return Some(models[i]);
      }
      i := i + 1;
    }
    return None;
  }

  /** What a backend call gives: the generated text, or the error it throws. */
  datatype Reply = Text(text: string) | Failure(error: string)

  const NoModelError := "没有可用的 AI 模型。请检查 API 密钥配置。"

  /**
   * `callAI`: `configModel` is `config.model`; `backend(m)` is what
   * `callAIWithModel(prompt, m, config)` gives. Returns the reply and the
   * models called, in order.
   */
  method CallAI(env: Env, configModel: Option<AIModel>, backend: AIModel -> Reply)
    returns (r: Reply, calls: seq<AIModel>)
    ensures |calls| <= 2 && (|calls| == 2 ==> calls[0] != calls[1])
    ensures forall m :: m in calls ==> Available(env, m)
    ensures Available(env, configModel.GetOr(CurrentModel(env))) ==>
      calls != [] && calls[0] == configModel.GetOr(CurrentModel(env))
    ensures !Available(env, configModel.GetOr(CurrentModel(env))) ==> |calls| <= 1
    ensures r.Text? <==> exists m :: m in calls && backend(m).Text?
    ensures r.Text? ==> r == backend(calls[|calls| - 1])
    ensures r.Failure? ==> (calls == [] && r == Failure(NoModelError)) || (calls != [] && r == backend(calls[0]))
    ensures calls == [] <==> forall m :: !Available(env, m)
    ensures var sel := configModel.GetOr(CurrentModel(env));
      Available(env, sel) && backend(sel).Text? ==> calls == [sel] && r == backend(sel)
    ensures var sel := configModel.GetOr(CurrentModel(env));
      Available(env, sel) && backend(sel).Failure? ==>
        (|calls| == 2 <==> exists m :: m != sel && Available(env, m))
  {
    var selected := configModel.GetOr(CurrentModel(env));
    if !Available(env, selected) {
      var fallback := FallbackModel(env, selected);
      if fallback.Some? {
        return backend(fallback.value), [fallback.value];
      }
      return Failure(NoModelError), [];
    }
    r := backend(selected);
    calls := [selected];
    if r.Failure? {
      var fallback := FallbackModel(env, selected);
      if fallback.Some? {
        calls := calls + [fallback.value];
        var second := backend(fallback.value);
        if second.Text? {
          r := second;
        }
      }
    }
  }

  datatype Deployment = Vercel | Huawei | Local

  /** `detectEnvironment`; `&&` binds tighter than `||` in the Huawei test. */
  function DetectEnvironment(env: Env): (d: Deployment)
    ensures d == Vercel <==> Equals(env, "VERCEL", "1")
    ensures d == Huawei <==>
      (!Equals(env, "VERCEL", "1")
       && (Equals(env, "HUAWEI_CLOUD", "1") || (Equals(env, "NODE_ENV", "production") && !Truthy(env, "VERCEL"))))
  {
    if Equals(env, "VERCEL", "1") then Vercel
    else if Equals(env, "HUAWEI_CLOUD", "1") || (Equals(env, "NODE_ENV", "production") && !Truthy(env, "VERCEL")) then Huawei
    else Local
  }

  /** `shouldUseCache`: every deployment but Vercel caches. */
  function ShouldUseCache(env: Env): (b: bool)
    ensures !b <==> DetectEnvironment(env) == Vercel
  {
    DetectEnvironment(env) != Vercel
  }

  /** A deployment that skips the reading cache is one where the cache facade picks its in-memory backend. */
  lemma NoCacheMeansMemoryBackend(env: Env)
    requires !ShouldUseCache(env)
    ensures CacheManager.Choose(env) == CacheManager.Memory
  {
  }

  /** A production build with VERCEL set to something other than "1" is local, not Huawei. */
  lemma VercelVariableBlocksHuawei(env: Env)
    requires Equals(env, "NODE_ENV", "production") && Truthy(env, "VERCEL") && !Equals(env, "VERCEL", "1")
    requires !Equals(env, "HUAWEI_CLOUD", "1")
    ensures DetectEnvironment(env) == Local
  {
  }

  datatype ServiceStatus = ServiceStatus(
    environment: Deployment,
    currentModel: AIModel,
    availableModels: seq<AIModel>,
    useCache: bool,
    hasGeminiKey: bool,
    hasDeepSeekKey: bool)

  /**
   * `getAIServiceStatus`: the key flags are the models' availability, the list
   * holds exactly the available models in declaration order, and the flags
   * agree with the list.
   */
  method GetAIServiceStatus(env: Env) returns (s: ServiceStatus)
    ensures s.environment == DetectEnvironment(env) && s.currentModel == CurrentModel(env)
    ensures s.useCache == ShouldUseCache(env)
    ensures s.hasGeminiKey == Available(env, Gemini) && s.hasDeepSeekKey == Available(env, DeepSeek)
    ensures forall m :: m in s.availableModels <==> Available(env, m)
    ensures forall i, j :: 0 <= i < j < |s.availableModels| ==> Rank(s.availableModels[i]) < Rank(s.availableModels[j])
    ensures s.hasGeminiKey <==> Gemini in s.availableModels
    ensures s.hasDeepSeekKey <==> DeepSeek in s.availableModels
  {
    var models := AvailableModels(env);
    s := ServiceStatus(DetectEnvironment(env), CurrentModel(env), models, ShouldUseCache(env),
                       Available(env, Gemini), Available(env, DeepSeek));
  }
}
