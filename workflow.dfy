/** The image-generation job graph: the built-in seven-node template, the
    image-to-image variant that `loadWorkflow` derives from it, and the
    injection of the prompt and generation parameters into fixed node slots
    (`injectPromptToWorkflow`). */
module Workflow {
  import opened Values
  import opened Settings

  /** One graph node: its operation (`class_type`) and its input bindings. */
  datatype Node = Node(classType: string, inputs: map<string, Json>)

  /** A workflow graph: node id to node. */
  type Graph = map<string, Node>

  /** An input bound to output `slot` of node `id` (`["id", slot]`). */
  function Link(id: string, slot: int): Json {
    JArr([JStr(id), JNum(slot as real)])
  }

  /** The ids of the built-in template's nodes. */
  const TemplateIds: set<string> := {"3", "4", "5", "6", "7", "8", "9"}

  /** The sampler node of the built-in template. */
  function TemplateSampler(): Node {
    Node("KSampler", map[
      "model" := Link("4", 0), "positive" := Link("3", 0), "negative" := Link("7", 0),
      "latent_image" := Link("5", 0), "steps" := JNum(20.0), "seed" := JNum(-1.0),
      "sampler_name" := JStr("euler a")])
  }

  /** The built-in text-to-image template. */
  function BaseGraph(): (g: Graph)
    ensures g.Keys == TemplateIds
    ensures g["6"] == TemplateSampler()
  {
    map[
      "3" := Node("CLIPTextEncode", map["text" := JStr(""), "clip" := Link("1", 0)]),
      "4" := Node("CheckpointLoaderSimple", map["ckpt_name" := JStr("sdxl.safetensors")]),
      "5" := Node("EmptyLatentImage", map["width" := JNum(512.0), "height" := JNum(768.0), "batch_size" := JNum(1.0)]),
      "6" := TemplateSampler(),
      "7" := Node("CLIPTextEncode", map["text" := JStr("bad quality"), "clip" := Link("4", 0)]),
      "8" := Node("VAEDecode", map["samples" := Link("6", 0), "vae" := Link("4", 2)]),
      "9" := Node("SaveImage", map["filename_prefix" := JStr("SillyTavern"), "images" := Link("8", 0)])]
  }

  /** `graph[id].inputs[key] = v`. */
  function SetInput(g: Graph, id: string, key: string, v: Json): Graph
    requires id in g
  {
    g[id := Node(g[id].classType, g[id].inputs[key := v])]
  }

  /** The image-to-image rewiring: a LoadImage node "10" and a VAEEncode node "11"
      feed the sampler, whose seed is copied to `noise_seed` as it stands at this
      point, which gets the denoise strength and `add_noise`, and which becomes a
      KSamplerAdvanced. */
  function Img2Img(g: Graph, image: string, strength: real): Graph
    requires "6" in g && "seed" in g["6"].inputs
  {
    var g1 := g["10" := Node("LoadImage", map["image" := JStr(image)])];
    var g2 := g1["11" := Node("VAEEncode", map["pixels" := Link("10", 0), "vae" := Link("4", 2)])];
    var g3 := SetInput(g2, "6", "latent_image", Link("11", 0));
    var g4 := SetInput(g3, "6", "noise_seed", g3["6"].inputs["seed"]);
    var g5 := SetInput(g4, "6", "denoise", JNum(strength));
    var g6 := g5["6" := Node("KSamplerAdvanced", g5["6"].inputs)];
    SetInput(g6, "6", "add_noise", JBool(true))
  }

  /** The source image of an image-to-image job: the custom image, else the
      character's avatar when role images are enabled, else none (""). */
  function BaseImage(cfg: Config, avatar: string): string {
    if cfg.customBaseImage != "" then cfg.customBaseImage
    else if cfg.useRoleImage then avatar
    else ""
  }

  /** The graph the built-in branch of `loadWorkflow` returns. */
  function BuiltInWorkflow(cfg: Config, avatar: string): Outcome<Graph> {
    if cfg.workflowTemplate == "img2img" then
      var image := BaseImage(cfg, avatar);
      if image == "" then Err("No base image for img2img")
      else Ok(Img2Img(BaseGraph(), image, cfg.genParams.imgStrength))
    else Ok(BaseGraph())
  }

  /** The value `injectPromptToWorkflow` writes into a slot, if `(id, key)` is one. */
  function SlotValue(id: string, key: string, prompt: string, params: GenParams): Option<Json> {
    if id == "3" && key == "text" then Some(JStr(prompt))
    else if id == "6" && key == "steps" then Some(JNum(params.steps as real))
    else if id == "6" && key == "seed" then Some(JNum(params.seed as real))
    else if id == "6" && key == "sampler_name" then Some(JStr(params.sampler))
    else if id == "5" && key == "width" then Some(JNum(params.width as real))
    else if id == "5" && key == "height" then Some(JNum(params.height as real))
    else None
  }

  /** `injectPromptToWorkflow(workflow, prompt, params)`; it throws when one of the
      nodes "3", "6", "5" is missing (reading `.inputs` of `undefined`). */
  function Injected(g: Graph, prompt: string, params: GenParams): Outcome<Graph> {
    if "3" in g && "6" in g && "5" in g then
      var g1 := SetInput(g, "3", "text", JStr(prompt));
      var g2 := SetInput(g1, "6", "steps", JNum(params.steps as real));
      var g3 := SetInput(g2, "6", "seed", JNum(params.seed as real));
      var g4 := SetInput(g3, "6", "sampler_name", JStr(params.sampler));
      var g5 := SetInput(g4, "5", "width", JNum(params.width as real));
      Ok(SetInput(g5, "5", "height", JNum(params.height as real)))
    else Err("TypeError: cannot set properties of undefined")
  }

  /** What one `SetInput` does to the input `k` of node `i`. */
  lemma SetInputLookup(g: Graph, id: string, key: string, v: Json, i: string, k: string)
    requires id in g && i in g
    ensures var r := SetInput(g, id, key, v);
            && i in r && r[i].classType == g[i].classType
            && (k in r[i].inputs <==> k in g[i].inputs || (i == id && k == key))
            && (k in r[i].inputs ==> r[i].inputs[k] == if i == id && k == key then v else g[i].inputs[k])
  {
  }

  /** Injection succeeds exactly when the three slot nodes exist, and then it
      writes the prompt and parameters into exactly the six slots: no node is
      added or removed, no operation changes, every other input keeps its value. */
  lemma InjectionTouchesOnlySlots(g: Graph, prompt: string, params: GenParams)
    ensures Injected(g, prompt, params).Ok? <==> "3" in g && "6" in g && "5" in g
    ensures Injected(g, prompt, params).Ok? ==>
      var r := Injected(g, prompt, params).value;
      && r.Keys == g.Keys
      && (forall id :: id in g ==> r[id].classType == g[id].classType)
      && (forall id, key :: id in g && SlotValue(id, key, prompt, params).Some? ==>
            key in r[id].inputs && r[id].inputs[key] == SlotValue(id, key, prompt, params).value)
      && (forall id, key :: id in g && SlotValue(id, key, prompt, params).None? ==>
            (key in r[id].inputs <==> key in g[id].inputs)
            && (key in g[id].inputs ==> r[id].inputs[key] == g[id].inputs[key]))
  {
    if "3" in g && "6" in g && "5" in g {
      var g1 := SetInput(g, "3", "text", JStr(prompt));
      var g2 := SetInput(g1, "6", "steps", JNum(params.steps as real));
      var g3 := SetInput(g2, "6", "seed", JNum(params.seed as real));
      var g4 := SetInput(g3, "6", "sampler_name", JStr(params.sampler));
      var g5 := SetInput(g4, "5", "width", JNum(params.width as real));
      var r := SetInput(g5, "5", "height", JNum(params.height as real));
      assert Injected(g, prompt, params) == Ok(r);
      forall id, key | id in g
        ensures r[id].classType == g[id].classType
        ensures SlotValue(id, key, prompt, params).Some? ==>
                  key in r[id].inputs && r[id].inputs[key] == SlotValue(id, key, prompt, params).value
        ensures SlotValue(id, key, prompt, params).None? ==>
                  (key in r[id].inputs <==> key in g[id].inputs)
                  && (key in g[id].inputs ==> r[id].inputs[key] == g[id].inputs[key])
      {
        SetInputLookup(g, "3", "text", JStr(prompt), id, key);
        SetInputLookup(g1, "6", "steps", JNum(params.steps as real), id, key);
        SetInputLookup(g2, "6", "seed", JNum(params.seed as real), id, key);
        SetInputLookup(g3, "6", "sampler_name", JStr(params.sampler), id, key);
        SetInputLookup(g4, "5", "width", JNum(params.width as real), id, key);
        SetInputLookup(g5, "5", "height", JNum(params.height as real), id, key);
      }
    }
  }

  /** Injecting the same prompt and parameters a second time changes nothing. */
  lemma InjectionIdempotent(g: Graph, prompt: string, params: GenParams)
    requires Injected(g, prompt, params).Ok?
    ensures Injected(Injected(g, prompt, params).value, prompt, params) == Injected(g, prompt, params)
  {
    var r1 := Injected(g, prompt, params).value;
    InjectionTouchesOnlySlots(g, prompt, params);
    InjectionTouchesOnlySlots(r1, prompt, params);
    var r2 := Injected(r1, prompt, params).value;
    forall id | id in r1 ensures r2[id] == r1[id] {
      assert r2[id].inputs.Keys == r1[id].inputs.Keys by {
        forall key ensures key in r2[id].inputs <==> key in r1[id].inputs {
          if SlotValue(id, key, prompt, params).Some? {
          }
        }
      }
      forall key | key in r1[id].inputs ensures r2[id].inputs[key] == r1[id].inputs[key] {
        if SlotValue(id, key, prompt, params).Some? {
        }
      }
      assert r2[id].inputs == r1[id].inputs;
    }
    assert r2 == r1;
  }

  /** Every template other than img2img yields the seven-node base graph unchanged. */
  lemma OtherTemplatesGiveBaseGraph(cfg: Config, avatar: string)
    requires cfg.workflowTemplate != "img2img"
    ensures BuiltInWorkflow(cfg, avatar) == Ok(BaseGraph())
    ensures |BaseGraph().Keys| == 7
  {
  }

  /** What the img2img rewiring does to any graph with a sampler node. */
  lemma Img2ImgFacts(g: Graph, image: string, strength: real)
    requires "6" in g && "seed" in g["6"].inputs
    ensures var r := Img2Img(g, image, strength);
      && r.Keys == g.Keys + {"10", "11"}
      && r["10"] == Node("LoadImage", map["image" := JStr(image)])
      && r["11"] == Node("VAEEncode", map["pixels" := Link("10", 0), "vae" := Link("4", 2)])
      && r["6"].classType == "KSamplerAdvanced"
      && r["6"].inputs == g["6"].inputs["latent_image" := Link("11", 0)]["noise_seed" := g["6"].inputs["seed"]]
                                       ["denoise" := JNum(strength)]["add_noise" := JBool(true)]
      && (forall id :: id in g && id !in {"6", "10", "11"} ==> r[id] == g[id])
  {
    var g1 := g["10" := Node("LoadImage", map["image" := JStr(image)])];
    var g2 := g1["11" := Node("VAEEncode", map["pixels" := Link("10", 0), "vae" := Link("4", 2)])];
    assert g2["6"] == g["6"];
  }

  /** The img2img rewiring applied to a graph shaped like the built-in
      template. */
  lemma TemplateImg2Img(base: Graph, image: string, strength: real)
    requires base.Keys == TemplateIds && base["6"] == TemplateSampler()
    ensures var g := Img2Img(base, image, strength);
      && g.Keys == TemplateIds + {"10", "11"}
      && g["10"] == Node("LoadImage", map["image" := JStr(image)])
      && g["6"].classType == "KSamplerAdvanced"
      && g["6"].inputs["latent_image"] == Link("11", 0)
      && g["6"].inputs["noise_seed"] == JNum(-1.0)
      && g["6"].inputs["denoise"] == JNum(strength)
      && g["6"].inputs["add_noise"] == JBool(true)
      && (forall id :: id in TemplateIds && id != "6" ==> g[id] == base[id])
  {
    var g := Img2Img(base, image, strength);
    Img2ImgFacts(base, image, strength);
    assert base["6"].inputs["seed"] == JNum(-1.0);
    forall id | id in TemplateIds && id != "6" ensures g[id] == base[id] {
      assert id !in {"6", "10", "11"};
    }
  }

  /** The img2img template fails without a source image; otherwise it adds nodes
      "10" and "11", feeds the chosen image to node "10", and retargets the sampler
      "6" to KSamplerAdvanced reading its latent from "11" with the configured
      strength, leaving the other template nodes as they were. */
  lemma Img2ImgShape(cfg: Config, avatar: string)
    requires cfg.workflowTemplate == "img2img"
    ensures BuiltInWorkflow(cfg, avatar).Err? <==> BaseImage(cfg, avatar) == ""
    ensures BuiltInWorkflow(cfg, avatar).Ok? ==>
      var g := BuiltInWorkflow(cfg, avatar).value;
      && g.Keys == TemplateIds + {"10", "11"}
      && g["10"] == Node("LoadImage", map["image" := JStr(BaseImage(cfg, avatar))])
      && g["6"].classType == "KSamplerAdvanced"
      && g["6"].inputs["latent_image"] == Link("11", 0)
      && g["6"].inputs["denoise"] == JNum(cfg.genParams.imgStrength)
      && g["6"].inputs["add_noise"] == JBool(true)
      && (forall id :: id in TemplateIds && id != "6" ==> g[id] == BaseGraph()[id])
  {
    var image := BaseImage(cfg, avatar);
    if image != "" {
      assert BuiltInWorkflow(cfg, avatar) == Ok(Img2Img(BaseGraph(), image, cfg.genParams.imgStrength));
      TemplateImg2Img(BaseGraph(), image, cfg.genParams.imgStrength);
    }
  }

  /** The custom image wins over the avatar, and the avatar is used only when
      role images are enabled. */
  lemma BaseImageChoice(cfg: Config, avatar: string)
    ensures cfg.customBaseImage != "" ==> BaseImage(cfg, avatar) == cfg.customBaseImage
    ensures cfg.customBaseImage == "" && cfg.useRoleImage ==> BaseImage(cfg, avatar) == avatar
    ensures cfg.customBaseImage == "" && !cfg.useRoleImage ==> BaseImage(cfg, avatar) == ""
  {
  }

  /** After injection, input `key` of node `id` holds the slot value if it is a
      slot and its old value otherwise. */
  lemma InjectedInput(g: Graph, prompt: string, params: GenParams, id: string, key: string)
    requires Injected(g, prompt, params).Ok? && id in g
    requires key in g[id].inputs || SlotValue(id, key, prompt, params).Some?
    ensures var r := Injected(g, prompt, params).value;
            id in r && key in r[id].inputs
            && r[id].inputs[key] == if SlotValue(id, key, prompt, params).Some?
                                    then SlotValue(id, key, prompt, params).value else g[id].inputs[key]
  {
    InjectionTouchesOnlySlots(g, prompt, params);
  }

  /** In the img2img graph the sampler's `noise_seed` is the template's seed (-1),
      copied before injection, so the configured seed does not reach it. */
  lemma Img2ImgNoiseSeedIsTemplateSeed(cfg: Config, avatar: string, prompt: string)
    requires cfg.workflowTemplate == "img2img" && BaseImage(cfg, avatar) != ""
    ensures var g := BuiltInWorkflow(cfg, avatar).value;
            var r := Injected(g, prompt, cfg.genParams);
            && r.Ok?
            && r.value["6"].inputs["noise_seed"] == JNum(-1.0)
            && r.value["6"].inputs["seed"] == JNum(cfg.genParams.seed as real)
  {
    var g := Img2Img(BaseGraph(), BaseImage(cfg, avatar), cfg.genParams.imgStrength);
    assert BuiltInWorkflow(cfg, avatar) == Ok(g);
    TemplateImg2Img(BaseGraph(), BaseImage(cfg, avatar), cfg.genParams.imgStrength);
    SeedsAfterInjection(g, prompt, cfg.genParams);
  }

  /** Injection overwrites `seed` and keeps `noise_seed`. */
  lemma SeedsAfterInjection(g: Graph, prompt: string, params: GenParams)
    requires "3" in g && "5" in g && "6" in g && "noise_seed" in g["6"].inputs
    ensures var r := Injected(g, prompt, params);
            && r.Ok?
            && r.value["6"].inputs["noise_seed"] == g["6"].inputs["noise_seed"]
            && r.value["6"].inputs["seed"] == JNum(params.seed as real)
  {
    InjectedInput(g, prompt, params, "6", "noise_seed");
    InjectedInput(g, prompt, params, "6", "seed");
  }

  /** A workflow graph object, updated in place. */
  class WorkflowGraph {
    var nodes: Graph

    /** A fresh copy of the built-in template. */
    constructor Template()
      ensures nodes == BaseGraph()
    {
      nodes := BaseGraph();
    }

    /** A graph loaded from a user-supplied file. */
    constructor Loaded(g: Graph)
      ensures nodes == g
    {
      nodes := g;
    }

    /** `this[id].inputs[key] = v` on an existing node. */
    method SetNodeInput(id: string, key: string, v: Json)
      requires id in nodes
      modifies this
      ensures nodes == SetInput(old(nodes), id, key, v)
    {
      var n := nodes[id];
      nodes := nodes[id := Node(n.classType, n.inputs[key := v])];
    }

    /** The img2img rewiring of `loadWorkflow`, statement by statement. */
    method AttachBaseImage(image: string, strength: real)
      requires "6" in nodes && "seed" in nodes["6"].inputs
      modifies this
      ensures nodes == Img2Img(old(nodes), image, strength)
    {
      nodes := nodes["10" := Node("LoadImage", map["image" := JStr(image)])];
      nodes := nodes["11" := Node("VAEEncode", map["pixels" := Link("10", 0), "vae" := Link("4", 2)])];
      SetNodeInput("6", "latent_image", Link("11", 0));
      SetNodeInput("6", "noise_seed", nodes["6"].inputs["seed"]);
      SetNodeInput("6", "denoise", JNum(strength));
      nodes := nodes["6" := Node("KSamplerAdvanced", nodes["6"].inputs)];
      SetNodeInput("6", "add_noise", JBool(true));
    }

    /** `injectPromptToWorkflow` on this graph; `ok` is false where the source throws. */
    method Inject(prompt: string, params: GenParams) returns (ok: bool)
      modifies this
      ensures ok == Injected(old(nodes), prompt, params).Ok?
      ensures ok ==> nodes == Injected(old(nodes), prompt, params).value
    {
      if "3" !in nodes { return false; }
      SetNodeInput("3", "text", JStr(prompt));
      if "6" !in nodes { return false; }
      SetNodeInput("6", "steps", JNum(params.steps as real));
      SetNodeInput("6", "seed", JNum(params.seed as real));
      SetNodeInput("6", "sampler_name", JStr(params.sampler));
      if "5" !in nodes { return false; }
      SetNodeInput("5", "width", JNum(params.width as real));
      SetNodeInput("5", "height", JNum(params.height as real));
      ok := true;
    }
  }

  /** The built-in branch of `loadWorkflow`: a fresh template, rewired for img2img. */
  method LoadBuiltIn(cfg: Config, avatar: string) returns (r: Outcome<WorkflowGraph>)
    ensures r.Ok? <==> BuiltInWorkflow(cfg, avatar).Ok?
    ensures r.Ok? ==> fresh(r.value) && r.value.nodes == BuiltInWorkflow(cfg, avatar).value
    ensures r.Err? ==> r.error == BuiltInWorkflow(cfg, avatar).error
  {
    var w := new WorkflowGraph.Template();
    if cfg.workflowTemplate == "img2img" {
      var image := BaseImage(cfg, avatar);
      if image == "" {
        return Err("No base image for img2img");
      }
      w.AttachBaseImage(image, cfg.genParams.imgStrength);
    }
    r := Ok(w);
  }
}
