/**
 * The provider router: which LLM vendors are configured, how one is picked for a
 * request, what each vendor adapter makes of the vendor's answer, and the single
 * fallback to a backup vendor when the picked one fails.
 *
 * The vendors' HTTP answers (and the Gemini SDK's) are inputs: `replies(p)` is what
 * vendor `p` answers to this request's prompt. `Math.random()` is the input `rand`.
 */
module Llm {
  import opened Base
  import opened Json

  /**
   * The server environment, read-only after start-up. An unset variable and an
   * empty one are both falsy in the source, so both are modelled as "".
   */
  datatype Config = Config(
    googleApiKey: string,
    deepseekApiKey: string,
    dashscopeApiKey: string,
    doubaoApiKey: string,
    doubaoEndpointIdText: string,
    zhipuApiKey: string)

  datatype Provider = Gemini | DeepSeek | Qwen | Doubao | Zhipu

  /** The order in which providers are pushed into the pool. */
  const Order: seq<Provider> := [Gemini, DeepSeek, Qwen, Doubao, Zhipu]

  function Rank(p: Provider): nat
  {
    match p
    case Gemini => 0
    case DeepSeek => 1
    case Qwen => 2
    case Doubao => 3
    case Zhipu => 4
  }

  /** The `name` a pool entry carries, used to tell the selected provider from its backup. */
  function Name(p: Provider): string
  {
    match p
    case Gemini => "Gemini"
    case DeepSeek => "DeepSeek"
    case Qwen => "Qwen"
    case Doubao => "Doubao"
    case Zhipu => "Zhipu"
  }

  /** The model name an adapter reports with its text. */
  function DisplayName(p: Provider): string
  {
    match p
    case Gemini => "Gemini 2.5 Flash"
    case DeepSeek => "DeepSeek V3"
    case Qwen => "Qwen Plus"
    case Doubao => "Doubao"
    case Zhipu => "GLM-4 Plus"
  }

  /** The provider's credential is set; Doubao needs its key and its endpoint id. */
  predicate Configured(cfg: Config, p: Provider)
  {
    match p
    case Gemini => cfg.googleApiKey != ""
    case DeepSeek => cfg.deepseekApiKey != ""
    case Qwen => cfg.dashscopeApiKey != ""
    case Doubao => cfg.doubaoApiKey != "" && cfg.doubaoEndpointIdText != ""
    case Zhipu => cfg.zhipuApiKey != ""
  }

  function MissingCredentialMessage(p: Provider): string
  {
    match p
    case Gemini => "Missing GOOGLE_API_KEY"
    case DeepSeek => "Missing DEEPSEEK_API_KEY"
    case Qwen => "Missing DASHSCOPE_API_KEY"
    case Doubao => "Missing DOUBAO credentials"
    case Zhipu => "Missing ZHIPU_API_KEY"
  }

  const NoProvidersMessage := "No LLM providers configured. Please set at least one API key."

  /**
   * `{ text, model }`: what a successful adapter returns. `text` is `None` when the
   * vendor's `choices[0].message` carries no string `content`: the adapter still succeeds
   * and hands back an undefined text.
   */
  datatype LlmResponse = LlmResponse(text: Option<string>, model: string)

  /**
   * What a vendor does with one request: the request itself fails (the fetch or the SDK
   * call rejects with `message`), or it answers with an HTTP status and a body from which
   * the message text is read. Reading `choices[0].message` throws when it is missing
   * (`Err`); a message without a string `content` reads as `Ok(None)`. The Gemini SDK's
   * `text()` either throws or gives a string, so its replies carry `Err` or `Ok(Some(_))`.
   */
  datatype VendorReply =
    | Rejected(message: string)
    | Answered(status: int, content: Result<Option<string>, string>)

  predicate StatusOk(status: int)
  {
    200 <= status <= 299
  }

  /**
   * `callGemini` / `callDeepSeek` / `callQwen` / `callDoubao` / `callZhipu`: fail when the
   * credential is missing, when the request fails, when the HTTP status is not ok (the
   * four fetch-based adapters check it; the Gemini SDK raises instead), or when reading the
   * message throws; otherwise tag the text, possibly undefined, with the provider's
   * display name.
   */
  function Call(cfg: Config, p: Provider, reply: VendorReply): (r: Result<LlmResponse, string>)
    ensures !Configured(cfg, p) ==> r == Err(MissingCredentialMessage(p))
    ensures reply.Rejected? ==> r.Err?
    ensures p != Gemini && reply.Answered? && !StatusOk(reply.status) ==> r.Err?
    ensures r.Ok? <==> Configured(cfg, p) && reply.Answered? && reply.content.Ok?
                       && (p == Gemini || StatusOk(reply.status))
    ensures r.Ok? ==> r.value == LlmResponse(reply.content.value, DisplayName(p))
  {
    if !Configured(cfg, p) then Err(MissingCredentialMessage(p))
    else
      match reply
      case Rejected(message) => Err(message)
      case Answered(status, content) =>
        if p != Gemini && !StatusOk(status) then
          Err(Name(p) + " API Error: " + IntToString(status))
        else
          match content
          case Ok(text) => Ok(LlmResponse(text, DisplayName(p)))
          case Err(message) => Err(message)
  }

  /** The pool entry a provider contributes: itself when configured, nothing otherwise. */
  function Push(cfg: Config, p: Provider): seq<Provider>
  {
    if Configured(cfg, p) then [p] else []
  }

  /** Strictly increasing in push order, so no provider appears twice. */
  predicate Ordered(pool: seq<Provider>)
  {
    forall i, j :: 0 <= i < j < |pool| ==> Rank(pool[i]) < Rank(pool[j])
  }

  /**
   * The provider pool of `generateRoast`: exactly the configured providers, in the fixed
   * order Gemini, DeepSeek, Qwen, Doubao, Zhipu.
   */
  function Pool(cfg: Config): (pool: seq<Provider>)
    ensures forall p :: p in pool <==> Configured(cfg, p)
    ensures Ordered(pool)
  {
    var pool := Push(cfg, Gemini) + Push(cfg, DeepSeek) + Push(cfg, Qwen) + Push(cfg, Doubao) + Push(cfg, Zhipu);
    assert Ordered(pool) by {
      var s0 := Push(cfg, Gemini);
      var s1 := s0 + Push(cfg, DeepSeek);
      var s2 := s1 + Push(cfg, Qwen);
      var s3 := s2 + Push(cfg, Doubao);
      OrderedAppend(s0, cfg, DeepSeek);
      OrderedAppend(s1, cfg, Qwen);
      OrderedAppend(s2, cfg, Doubao);
      OrderedAppend(s3, cfg, Zhipu);
    }
    pool
  }

  /** Pushing a provider ranked after every entry keeps the pool ordered. */
  lemma OrderedAppend(pool: seq<Provider>, cfg: Config, p: Provider)
    requires Ordered(pool)
    requires forall q :: q in pool ==> Rank(q) < Rank(p)
    ensures Ordered(pool + Push(cfg, p))
    ensures forall q :: q in pool + Push(cfg, p) ==> Rank(q) <= Rank(p)
  {
    var r := pool + Push(cfg, p);
    forall i, j | 0 <= i < j < |r|
      ensures Rank(r[i]) < Rank(r[j])
    {
      if j >= |pool| {
        assert r[j] == p && r[i] in pool;
      }
    }
  }

  /** Ordered pools hold each provider at most once. */
  lemma PoolDistinct(pool: seq<Provider>)
    requires Ordered(pool)
    ensures forall i, j :: 0 <= i < |pool| && 0 <= j < |pool| && i != j ==> pool[i] != pool[j]
  {
  }

  /** The pool built step by step, one guarded push per provider. */
  method BuildPool(cfg: Config) returns (providers: seq<Provider>)
    ensures providers == Pool(cfg)
  {
    providers := [];
    if cfg.googleApiKey != "" { providers := providers + [Gemini]; }
    assert providers == Push(cfg, Gemini);
    if cfg.deepseekApiKey != "" { providers := providers + [DeepSeek]; }
    assert providers == Push(cfg, Gemini) + Push(cfg, DeepSeek);
    if cfg.dashscopeApiKey != "" { providers := providers + [Qwen]; }
    assert providers == Push(cfg, Gemini) + Push(cfg, DeepSeek) + Push(cfg, Qwen);
    if cfg.doubaoApiKey != "" && cfg.doubaoEndpointIdText != "" { providers := providers + [Doubao]; }
    assert providers == Push(cfg, Gemini) + Push(cfg, DeepSeek) + Push(cfg, Qwen) + Push(cfg, Doubao);
    if cfg.zhipuApiKey != "" { providers := providers + [Zhipu]; }
  }

  lemma NameInjective(p: Provider, q: Provider)
    requires Name(p) == Name(q)
    ensures p == q
  {
  }

  /** `Math.floor(rand * n)`: the randomly selected index. */
  function PickIndex(rand: real, n: nat): (i: nat)
    requires 0.0 <= rand < 1.0 && n > 0
    ensures i < n
  {
    ScaledBelow(rand, n);
    (rand * n as real).Floor
  }

  lemma ScaledBelow(rand: real, n: nat)
    requires 0.0 <= rand < 1.0 && n > 0
    ensures 0.0 <= rand * n as real < n as real
  {
    assert (1.0 - rand) * n as real > 0.0;
  }

  /** `providers.find(p => p.name !== selected.name)`: the first entry other than `selected`. */
  function FirstOther(pool: seq<Provider>, selected: Provider): (b: Option<Provider>)
    ensures b.Some? ==> b.value in pool && b.value != selected
    ensures b.None? <==> forall q :: q in pool ==> q == selected
    ensures pool != [] && pool[0] != selected ==> b == Some(pool[0])
  {
    if pool == [] then None
    else if Name(pool[0]) != Name(selected) then Some(pool[0])
    else
      NameInjective(pool[0], selected);
      assert forall q :: q in pool <==> q == pool[0] || q in pool[1..];
      FirstOther(pool[1..], selected)
  }

  /**
   * In a pool without repeats, the backup of the entry at `i` is the pool's first entry,
   * or its second when the first was the one selected; a one-entry pool has none.
   */
  lemma BackupChoice(pool: seq<Provider>, i: nat)
    requires i < |pool|
    requires Ordered(pool)
    ensures FirstOther(pool, pool[i]) ==
      if |pool| == 1 then None else if i == 0 then Some(pool[1]) else Some(pool[0])
  {
    PoolDistinct(pool);
    if |pool| >= 2 && i == 0 {
      assert pool[1..][0] == pool[1];
    }
  }

  /** What one call to `generateRoast` did: its result and the providers it invoked, in order. */
  datatype Generation = Generation(result: Result<LlmResponse, string>, calls: seq<Provider>)

  /** `generateRoast(prompt)`: the providers it invokes and what it returns. */
  function Route(cfg: Config, rand: real, replies: Provider -> VendorReply): Generation
    requires 0.0 <= rand < 1.0
  {
    var pool := Pool(cfg);
    if pool == [] then Generation(Err(NoProvidersMessage), [])
    else
      var selected := pool[PickIndex(rand, |pool|)];
      var first := Call(cfg, selected, replies(selected));
      if first.Ok? then Generation(first, [selected])
      else
        match FirstOther(pool, selected)
        case Some(backup) => Generation(Call(cfg, backup, replies(backup)), [selected, backup])
        case None => Generation(first, [selected])
  }

  /**
   * With no provider configured, `generateRoast` fails before invoking any. Otherwise it
   * invokes the randomly picked provider and, if that fails, the first other pool entry
   * once, returning the backup's result or error as it is; a single-entry pool rethrows
   * the first error.
   */
  lemma RouteChoice(cfg: Config, rand: real, replies: Provider -> VendorReply)
    requires 0.0 <= rand < 1.0
    ensures var g := Route(cfg, rand, replies);
      Pool(cfg) == [] ==> g == Generation(Err(NoProvidersMessage), [])
    ensures var g := Route(cfg, rand, replies);
      Pool(cfg) != [] ==>
      var pool := Pool(cfg);
      var selected := pool[PickIndex(rand, |pool|)];
      var first := Call(cfg, selected, replies(selected));
      1 <= |g.calls| <= 2 && g.calls[0] == selected
      && (first.Ok? ==> g == Generation(first, [selected]))
      && (first.Err? && |pool| == 1 ==> g == Generation(first, [selected]))
      && (first.Err? && |pool| >= 2 ==>
            g.calls == [selected, if pool[0] == selected then pool[1] else pool[0]]
            && g.result == Call(cfg, g.calls[1], replies(g.calls[1])))
  {
    var pool := Pool(cfg);
    if pool != [] {
      BackupChoice(pool, PickIndex(rand, |pool|));
    }
  }

  /** Only configured providers are invoked, and never the same one twice. */
  lemma RouteInvokesConfigured(cfg: Config, rand: real, replies: Provider -> VendorReply)
    requires 0.0 <= rand < 1.0
    ensures var g := Route(cfg, rand, replies);
      && (forall k :: 0 <= k < |g.calls| ==> Configured(cfg, g.calls[k]))
      && (|g.calls| == 2 ==> g.calls[0] != g.calls[1])
  {
    var pool := Pool(cfg);
    if pool != [] {
      var selected := pool[PickIndex(rand, |pool|)];
      assert Configured(cfg, selected) by {
        assert selected in pool;
      }
      if Call(cfg, selected, replies(selected)).Err? {
        match FirstOther(pool, selected)
        case Some(backup) =>
          assert Configured(cfg, backup);
        case None =>
      }
    }
  }

  /** A successful generation names the provider that answered: the last one invoked. */
  lemma RouteNamesAnswerer(cfg: Config, rand: real, replies: Provider -> VendorReply)
    requires 0.0 <= rand < 1.0
    ensures var g := Route(cfg, rand, replies);
      g.result.Ok? ==> g.calls != [] && g.result.value.model == DisplayName(g.calls[|g.calls| - 1])
  {
    var pool := Pool(cfg);
    if pool != [] {
      var selected := pool[PickIndex(rand, |pool|)];
      var first := Call(cfg, selected, replies(selected));
      if first.Err? {
        match FirstOther(pool, selected)
        case Some(backup) =>
          var second := Call(cfg, backup, replies(backup));
          assert Route(cfg, rand, replies) == Generation(second, [selected, backup]);
        case None =>
      }
    }
  }

  /** The backup search, as the loop behind `find`. */
  method FindBackup(providers: seq<Provider>, selected: Provider) returns (backup: Option<Provider>)
    ensures backup == FirstOther(providers, selected)
  {
    var i := 0;
    while i < |providers|
      invariant 0 <= i <= |providers|
      invariant FirstOther(providers, selected) == FirstOther(providers[i..], selected)
    {
      if Name(providers[i]) != Name(selected) {
        return Some(providers[i]);
      }
      assert providers[i..][1..] == providers[i + 1..];
      i := i + 1;
    }
    return None;
  }

  /**
   * `generateRoast` as the source runs it: build the pool by pushes, pick, invoke, and
   * on failure invoke the backup found by `find`. Returns the result and the providers
   * invoked, in order.
   */
  method GenerateRoast(cfg: Config, rand: real, replies: Provider -> VendorReply)
    returns (result: Result<LlmResponse, string>, calls: seq<Provider>)
    requires 0.0 <= rand < 1.0
    ensures Generation(result, calls) == Route(cfg, rand, replies)
  {
    var providers := BuildPool(cfg);
    if |providers| == 0 {
      return Err(NoProvidersMessage), [];
    }
    var selected := providers[PickIndex(rand, |providers|)];
    calls := [selected];
    result := Call(cfg, selected, replies(selected));
    if result.Err? {
      result, calls := Fallback(cfg, providers, selected, result, replies);
    }
  }

  /**
   * The `catch` branch of `generateRoast`: invoke the backup found by `find` once and
   * return its outcome, or rethrow the first error when there is none.
   */
  method Fallback(cfg: Config, providers: seq<Provider>, selected: Provider,
                  first: Result<LlmResponse, string>, replies: Provider -> VendorReply)
    returns (result: Result<LlmResponse, string>, calls: seq<Provider>)
    ensures FirstOther(providers, selected).None? ==> result == first && calls == [selected]
    ensures FirstOther(providers, selected).Some? ==>
      var backup := FirstOther(providers, selected).value;
      result == Call(cfg, backup, replies(backup)) && calls == [selected, backup]
  {
    var backup := FindBackup(providers, selected);
    if backup.Some? {
      return Call(cfg, backup.value, replies(backup.value)), [selected, backup.value];
    }
    return first, [selected];
  }

}
