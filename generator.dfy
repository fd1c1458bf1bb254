/** Image generation (`generateImage`): the cache lookup keyed by prompt and
    style, the workflow load (a user file fetched from `workflowPath`, or the
    built-in template), the injection of the prompt, the submission to the
    image server, and the URL of the finished image. The server and the
    workflow file are oracles; the browser's `localStorage` is a map. */
module Generator {
  import opened Values
  import opened Settings
  import opened Workflow

  /** The cache key of a prompt and style: `img_<prompt>_<style>`. */
  function CacheKey(prompt: string, style: string): (k: string)
    ensures |k| == 5 + |prompt| + |style|
    ensures k[..4] == "img_" && k[4..4 + |prompt|] == prompt
    ensures k[4 + |prompt|] == '_' && k[5 + |prompt|..] == style
  {
    "img_" + prompt + "_" + style
  }

  /** For a fixed style the key determines the prompt. */
  lemma CacheKeySeparatesPrompts(p1: string, p2: string, style: string)
    requires CacheKey(p1, style) == CacheKey(p2, style)
    ensures p1 == p2
  {
    var k := CacheKey(p1, style);
    assert |p1| == |p2|;
    assert p1 == k[4..4 + |p1|];
  }

  /** Across styles the key is ambiguous: an underscore may belong to either
      side, so two different requests share one cache entry. */
  lemma CacheKeyCollision()
    ensures CacheKey("a", "b_") == CacheKey("a_b", "")
    ensures ("a", "b_") != ("a_b", "")
  {
    assert CacheKey("a", "b_") == "img_a_b_";
    assert CacheKey("a_b", "") == "img_a_b_";
  }

  /** The address the image server serves a finished output file from. */
  function ViewUrl(comfyUrl: string, filename: string): (u: string)
    ensures |u| == |comfyUrl| + |filename| + 27
    ensures u[..|comfyUrl|] == comfyUrl
    ensures u[|comfyUrl| + 15..|comfyUrl| + 15 + |filename|] == filename
  {
    comfyUrl + "/view?filename=" + filename + "&type=output"
  }

  /** The filename is read back from the view URL, so distinct outputs of one
      server never share an address. */
  lemma ViewUrlInjective(comfyUrl: string, f1: string, f2: string)
    requires ViewUrl(comfyUrl, f1) == ViewUrl(comfyUrl, f2)
    ensures f1 == f2
  {
    var u := ViewUrl(comfyUrl, f1);
    assert |f1| == |f2|;
    assert f1 == u[|comfyUrl| + 15..|comfyUrl| + 15 + |f1|];
  }

  /** The cached entry is used only when caching is on and `getItem` returns a
      truthy string, that is one that is present and non-empty. */
  predicate CacheHit(cfg: Config, cache: map<string, string>, key: string) {
    cfg.cacheImages && key in cache && cache[key] != ""
  }

  /** The image server as seen by `generateImage`. Each cache miss is one
      numbered step of this oracle, whether or not it reaches the server:
      `fetchWorkflow(n, path)` is the parsed workflow file (or the
      `Workflow load error`), and `run(n, graph)` submits the graph, polls for
      it and yields the output file name (or `ComfyUI prompt error`,
      `Image poll timeout`). */
  datatype ComfyService = ComfyService(
    fetchWorkflow: (nat, string) -> Outcome<Graph>,
    run: (nat, Graph) -> Outcome<string>)

  /** `loadWorkflow()` in oracle step `call`. */
  function LoadSpec(cfg: Config, avatar: string, comfy: ComfyService, call: nat): Outcome<Graph> {
    if cfg.workflowPath != "" then comfy.fetchWorkflow(call, cfg.workflowPath)
    else BuiltInWorkflow(cfg, avatar)
  }

  /** The graph submitted to the server: the loaded workflow with the prompt
      and the generation parameters injected. */
  function JobGraph(cfg: Config, avatar: string, comfy: ComfyService, prompt: string, call: nat): Outcome<Graph> {
    match LoadSpec(cfg, avatar, comfy, call)
    case Err(e) => Err(e)
    case Ok(g) => Injected(g, prompt, cfg.genParams)
  }

  /** The outcome of one `generateImage` call and the state it leaves. */
  datatype GenResult = GenResult(url: Outcome<string>, cache: map<string, string>, calls: nat)

  /** `generateImage(prompt, style)` with the cache `cache`, after `calls`
      earlier cache misses. */
  function GenerateSpec(cfg: Config, avatar: string, comfy: ComfyService, prompt: string, style: string,
                        cache: map<string, string>, calls: nat): GenResult {
    var key := CacheKey(prompt, style);
    if CacheHit(cfg, cache, key) then GenResult(Ok(cache[key]), cache, calls)
    else
      match JobGraph(cfg, avatar, comfy, prompt, calls)
      case Err(e) => GenResult(Err(e), cache, calls + 1)
      case Ok(w) =>
        match comfy.run(calls, w)
        case Err(e) => GenResult(Err(e), cache, calls + 1)
        case Ok(filename) =>
          var url := ViewUrl(cfg.comfyUrl, filename);
          GenResult(Ok(url), if cfg.cacheImages then cache[key := url] else cache, calls + 1)
  }

  /** A cache hit returns the stored URL without consulting the server and
      leaves the cache as it was. */
  lemma CacheHitMakesNoCall(cfg: Config, avatar: string, comfy: ComfyService, prompt: string, style: string,
                            cache: map<string, string>, calls: nat)
    requires CacheHit(cfg, cache, CacheKey(prompt, style))
    ensures GenerateSpec(cfg, avatar, comfy, prompt, style, cache, calls)
            == GenResult(Ok(cache[CacheKey(prompt, style)]), cache, calls)
  {
  }

  /** A miss takes exactly one oracle step; the cache changes only at the
      request's own key, only on success and only with caching on, and a
      successful URL is the non-empty view URL of the server's output. */
  lemma GenerateEffects(cfg: Config, avatar: string, comfy: ComfyService, prompt: string, style: string,
                        cache: map<string, string>, calls: nat)
    ensures var key := CacheKey(prompt, style);
            var r := GenerateSpec(cfg, avatar, comfy, prompt, style, cache, calls);
            && (r.calls == calls <==> CacheHit(cfg, cache, key))
            && (r.calls != calls ==> r.calls == calls + 1)
            && (r.cache == cache || (cfg.cacheImages && r.url.Ok? && r.cache == cache[key := r.url.value]))
            && (!cfg.cacheImages || r.url.Err? ==> r.cache == cache)
            && (r.url.Ok? ==> r.url.value != "")
            && (r.url.Ok? && !CacheHit(cfg, cache, key) ==>
                  JobGraph(cfg, avatar, comfy, prompt, calls).Ok?
                  && comfy.run(calls, JobGraph(cfg, avatar, comfy, prompt, calls).value).Ok?
                  && r.url.value == ViewUrl(cfg.comfyUrl, comfy.run(calls, JobGraph(cfg, avatar, comfy, prompt, calls).value).value))
  {
  }

  /** With caching on, repeating a successful request answers it from the
      cache: same URL, no oracle step, no change. */
  lemma RepeatIsCached(cfg: Config, avatar: string, comfy: ComfyService, prompt: string, style: string,
                       cache: map<string, string>, calls: nat)
    requires cfg.cacheImages
    requires GenerateSpec(cfg, avatar, comfy, prompt, style, cache, calls).url.Ok?
    ensures var r := GenerateSpec(cfg, avatar, comfy, prompt, style, cache, calls);
            GenerateSpec(cfg, avatar, comfy, prompt, style, r.cache, r.calls) == r
  {
    GenerateEffects(cfg, avatar, comfy, prompt, style, cache, calls);
  }

  /** With caching off every request goes to the server and the cache is never
      touched. */
  lemma CacheDisabled(cfg: Config, avatar: string, comfy: ComfyService, prompt: string, style: string,
                      cache: map<string, string>, calls: nat)
    requires !cfg.cacheImages
    ensures var r := GenerateSpec(cfg, avatar, comfy, prompt, style, cache, calls);
            r.cache == cache && r.calls == calls + 1
  {
  }

  /** The submitted graph carries the prompt in node "3" and the configured
      steps, seed, sampler and size in nodes "6" and "5"; loading fails only
      where `loadWorkflow` throws, and injection fails only for a graph
      lacking one of those nodes. */
  lemma JobGraphSlots(cfg: Config, avatar: string, comfy: ComfyService, prompt: string, call: nat)
    ensures var l := LoadSpec(cfg, avatar, comfy, call);
            var j := JobGraph(cfg, avatar, comfy, prompt, call);
            && (l.Err? ==> j == Err(l.error))
            && (l.Ok? ==> (j.Ok? <==> "3" in l.value && "6" in l.value && "5" in l.value))
            && (cfg.workflowPath == "" ==> (j.Ok? <==> BuiltInWorkflow(cfg, avatar).Ok?))
            && (j.Ok? ==>
                  var g := j.value;
                  var p := cfg.genParams;
                  && "3" in g && "5" in g && "6" in g
                  && "text" in g["3"].inputs && g["3"].inputs["text"] == JStr(prompt)
                  && "steps" in g["6"].inputs && g["6"].inputs["steps"] == JNum(p.steps as real)
                  && "seed" in g["6"].inputs && g["6"].inputs["seed"] == JNum(p.seed as real)
                  && "sampler_name" in g["6"].inputs && g["6"].inputs["sampler_name"] == JStr(p.sampler)
                  && "width" in g["5"].inputs && g["5"].inputs["width"] == JNum(p.width as real)
                  && "height" in g["5"].inputs && g["5"].inputs["height"] == JNum(p.height as real))
  {
    var l := LoadSpec(cfg, avatar, comfy, call);
    if l.Ok? {
      InjectionTouchesOnlySlots(l.value, prompt, cfg.genParams);
    }
    if cfg.workflowPath == "" && BuiltInWorkflow(cfg, avatar).Ok? {
      if cfg.workflowTemplate == "img2img" {
        Img2ImgShape(cfg, avatar);
      }
    }
  }

  /** The browser's `localStorage` as far as the image cache uses it. */
  class ImageCache {
    var entries: map<string, string>

    constructor (initial: map<string, string>)
      ensures entries == initial
    {
      entries := initial;
    }

    /** `localStorage.setItem(key, value)`. */
    method Store(key: string, value: string)
      modifies this
      ensures entries == old(entries)[key := value]
    {
      entries := entries[key := value];
    }
  }

  /** `loadWorkflow()` in oracle step `call`: the user's workflow file when a
      path is set, the built-in template otherwise. */
  method LoadWorkflow(cfg: Config, avatar: string, comfy: ComfyService, call: nat) returns (r: Outcome<WorkflowGraph>)
    ensures r.Ok? <==> LoadSpec(cfg, avatar, comfy, call).Ok?
    ensures r.Ok? ==> fresh(r.value) && r.value.nodes == LoadSpec(cfg, avatar, comfy, call).value
    ensures r.Err? ==> r.error == LoadSpec(cfg, avatar, comfy, call).error
  {
    if cfg.workflowPath != "" {
      var res := comfy.fetchWorkflow(call, cfg.workflowPath);
      if res.Err? {
        return Err(res.error);
      }
      var w := new WorkflowGraph.Loaded(res.value);
      return Ok(w);
    }
    r := LoadBuiltIn(cfg, avatar);
  }

  /** `generateImage(prompt, style)`: `calls` counts the cache misses
      before the call, `callsOut` those after it. */
  method GenerateImage(cfg: Config, avatar: string, comfy: ComfyService, prompt: string, style: string,
                       cache: ImageCache, calls: nat) returns (url: Outcome<string>, callsOut: nat)
    modifies cache
    ensures GenResult(url, cache.entries, callsOut)
            == GenerateSpec(cfg, avatar, comfy, prompt, style, old(cache.entries), calls)
  {
    var key := CacheKey(prompt, style);
    if cfg.cacheImages && key in cache.entries && cache.entries[key] != "" {
      return Ok(cache.entries[key]), calls;
    }
    callsOut := calls + 1;
    var loaded := LoadWorkflow(cfg, avatar, comfy, calls);
    if loaded.Err? {
      return Err(loaded.error), callsOut;
    }
    var workflow := loaded.value;
    var ok := workflow.Inject(prompt, cfg.genParams);
    if !ok {
      return Err("TypeError: cannot set properties of undefined"), callsOut;
    }
    var filename := comfy.run(calls, workflow.nodes);
    if filename.Err? {
      return Err(filename.error), callsOut;
    }
    url := Ok(ViewUrl(cfg.comfyUrl, filename.value));
    if cfg.cacheImages {
      cache.Store(key, url.value);
    }
  }
}
