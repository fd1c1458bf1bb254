/** The reply handler (`handlePostReply`): the trigger guard, the score filter,
    the full prompt of each accepted suggestion, and the bounded retry loop
    that analyzes the reply, generates one image per accepted suggestion,
    splices each into a working copy of the text, and writes the working copy
    back to the message only when a whole pass succeeds. */
module Orchestrator {
  import opened Values
  import opened Settings
  import opened Compositor
  import opened Analyzer
  import opened Generator

  /** `p.score || 1`: a missing score and a zero score both count as 1. */
  function EffectiveScore(s: Suggestion): real {
    match s.score
    case None => 1.0
    case Some(v) => if v == 0.0 then 1.0 else v
  }

  /** `positions.filter(p => (p.score || 1) >= minScore)`. */
  function Accepted(sugs: seq<Suggestion>, minScore: real): (r: seq<Suggestion>)
    ensures |r| <= |sugs|
    ensures forall s :: s in r <==> s in sugs && EffectiveScore(s) >= minScore
  {
    if sugs == [] then []
    else (if EffectiveScore(sugs[0]) >= minScore then [sugs[0]] else []) + Accepted(sugs[1..], minScore)
  }

  /** The filter keeps the order of the suggestions: filtering a concatenation
      is concatenating the filtered parts. */
  lemma {:induction false} AcceptedConcat(a: seq<Suggestion>, b: seq<Suggestion>, minScore: real)
    ensures Accepted(a + b, minScore) == Accepted(a, minScore) + Accepted(b, minScore)
    decreases |a|
  {
    if a == [] {
      assert a + b == b;
    } else {
      assert (a + b)[1..] == a[1..] + b;
      AcceptedConcat(a[1..], b, minScore);
    }
  }

  /** A list whose every suggestion passes is kept whole, one whose every
      suggestion fails is dropped whole; a suggestion without a score or with
      score 0 passes exactly when the threshold is at most 1. */
  lemma {:induction false} AcceptedExtremes(sugs: seq<Suggestion>, minScore: real)
    ensures (forall i :: 0 <= i < |sugs| ==> EffectiveScore(sugs[i]) >= minScore) ==> Accepted(sugs, minScore) == sugs
    ensures (forall i :: 0 <= i < |sugs| ==> EffectiveScore(sugs[i]) < minScore) ==> Accepted(sugs, minScore) == []
    ensures forall s: Suggestion :: s.score.None? || s.score == Some(0.0) ==> (Accepted([s], minScore) == [s] <==> minScore <= 1.0)
    decreases |sugs|
  {
    if sugs != [] {
      AcceptedExtremes(sugs[1..], minScore);
      assert forall i :: 0 <= i < |sugs[1..]| ==> sugs[1..][i] == sugs[i + 1];
    }
    forall s: Suggestion | s.score.None? || s.score == Some(0.0) ensures Accepted([s], minScore) == [s] <==> minScore <= 1.0 {
      assert [s][1..] == [];
    }
  }

  /** `sug.prompt + (sug.style ? ", " + sug.style : "") + ", " + defaultStyles`. */
  function FullPrompt(s: Suggestion, defaultStyles: string): string {
    s.prompt + (if s.style != "" then ", " + s.style else "") + ", " + defaultStyles
  }

  /** The full prompt starts with the suggestion's prompt and ends with the
      default styles; the style is added between them exactly when it is
      non-empty. */
  lemma FullPromptShape(s: Suggestion, defaultStyles: string)
    ensures var r := FullPrompt(s, defaultStyles);
            && |r| >= |s.prompt| + 2 + |defaultStyles|
            && r[..|s.prompt|] == s.prompt
            && r[|r| - |defaultStyles| - 2..] == ", " + defaultStyles
            && (s.style == "" <==> |r| == |s.prompt| + 2 + |defaultStyles|)
            && (s.style != "" ==> r[|s.prompt|..|s.prompt| + 2 + |s.style|] == ", " + s.style)
  {
  }

  /** The full prompts of a list of suggestions, in order. */
  function Prompts(plan: seq<Suggestion>, defaultStyles: string): (r: seq<string>)
    ensures |r| == |plan|
    ensures forall i :: 0 <= i < |plan| ==> r[i] == FullPrompt(plan[i], defaultStyles)
  {
    if plan == [] then [] else [FullPrompt(plan[0], defaultStyles)] + Prompts(plan[1..], defaultStyles)
  }

  /** The state a pass carries: the working text `modifiedMes`, the image
      cache, the cache misses of the generator so far, and every full prompt
      sent to the generator so far. */
  datatype Pass = Pass(mes: string, cache: map<string, string>, calls: nat, requested: seq<string>)

  /** Whether the `for` loop over the accepted suggestions ran to its end, and
      the state it left. */
  datatype PlanResult = PlanResult(ok: bool, pass: Pass)

  /** The generator as the handler sees it: `generateImage(prompt, style)`
      given the cache and the number of cache misses so far. */
  type Generate = (string, string, map<string, string>, nat) -> GenResult

  /** The splice of an image tag into the working text (`insertImage`). */
  type Insert = (string, int, string, string) -> string

  /** The analyzer as the handler sees it: the positions list of the given
      analyzer call, or its failure. */
  type Analyze = nat -> Outcome<seq<Suggestion>>

  /** `generateImage` of this model, bound to the configuration, the avatar
      and the image server. */
  function Generation(cfg: Config, avatar: string, comfy: ComfyService): Generate {
    (prompt: string, style: string, cache: map<string, string>, calls: nat) => GenerateSpec(cfg, avatar, comfy, prompt, style, cache, calls)
  }

  /** `analyzeReply(text)` of this model, bound to the configuration, the text
      and the language-model service. */
  function Analysis(cfg: Config, text: string, ai: AiService): Analyze {
    (attempt: nat) => AnalyzeReply(cfg, text, attempt, ai)
  }

  /** One iteration of the loop over the accepted suggestions: the image of
      suggestion `s` is generated and, when the generator succeeds, spliced
      into the working text at the suggestion's index; `ok` is false where
      `generateImage` throws. */
  function Advance(cfg: Config, gen: Generate, ins: Insert, s: Suggestion, st: Pass): (r: PlanResult)
    ensures r.pass.requested == st.requested + [FullPrompt(s, cfg.defaultStyles)]
    ensures var g := gen(FullPrompt(s, cfg.defaultStyles), s.style, st.cache, st.calls);
            && r.ok == g.url.Ok?
            && r.pass.cache == g.cache && r.pass.calls == g.calls
            && (r.ok ==> r.pass.mes == ins(st.mes, s.index, g.url.value, FullPrompt(s, cfg.defaultStyles)))
            && (!r.ok ==> r.pass.mes == st.mes)
  {
    var full := FullPrompt(s, cfg.defaultStyles);
    var g := gen(full, s.style, st.cache, st.calls);
    var asked := st.requested + [full];
    match g.url
    case Err(_) => PlanResult(false, Pass(st.mes, g.cache, g.calls, asked))
    case Ok(url) => PlanResult(true, Pass(ins(st.mes, s.index, url, full), g.cache, g.calls, asked))
  }

  /** The loop over the accepted suggestions: the first generator failure
      throws, leaving the insertions made so far in the working text. */
  function RunPlan(cfg: Config, gen: Generate, ins: Insert, plan: seq<Suggestion>, st: Pass): PlanResult
    decreases |plan|
  {
    if plan == [] then PlanResult(true, st)
    else
      var a := Advance(cfg, gen, ins, plan[0], st);
      if a.ok then RunPlan(cfg, gen, ins, plan[1..], a.pass) else a
  }

  /** A pass over two consecutive parts of a plan is the pass over the first
      part followed, when it succeeds, by the pass over the second part from
      the state the first one left: the suggestions are handled strictly in
      order, each on the text the previous ones produced. */
  lemma {:induction false} PlanConcat(cfg: Config, gen: Generate, ins: Insert, p1: seq<Suggestion>, p2: seq<Suggestion>, st: Pass)
    ensures var r1 := RunPlan(cfg, gen, ins, p1, st);
            RunPlan(cfg, gen, ins, p1 + p2, st) == if r1.ok then RunPlan(cfg, gen, ins, p2, r1.pass) else r1
    decreases |p1|
  {
    if p1 == [] {
      assert p1 + p2 == p2;
    } else {
      var a := Advance(cfg, gen, ins, p1[0], st);
      assert (p1 + p2)[0] == p1[0];
      assert (p1 + p2)[1..] == p1[1..] + p2;
      if a.ok {
        PlanConcat(cfg, gen, ins, p1[1..], p2, a.pass);
      }
    }
  }

  /** A successful pass over two suggestions inserts the first image into the
      working text and then the second image into the result, with the second
      generation seeing the cache the first one left. */
  lemma TwoSuggestionPass(cfg: Config, gen: Generate, ins: Insert, a: Suggestion, b: Suggestion, st: Pass)
    ensures var fa, fb := FullPrompt(a, cfg.defaultStyles), FullPrompt(b, cfg.defaultStyles);
            var ga := gen(fa, a.style, st.cache, st.calls);
            var gb := gen(fb, b.style, ga.cache, ga.calls);
            var r := RunPlan(cfg, gen, ins, [a, b], st);
            && (r.ok <==> ga.url.Ok? && gb.url.Ok?)
            && r.pass.requested == st.requested + (if ga.url.Ok? then [fa, fb] else [fa])
            && (r.ok ==> && r.pass.mes == ins(ins(st.mes, a.index, ga.url.value, fa), b.index, gb.url.value, fb)
                         && r.pass.cache == gb.cache && r.pass.calls == gb.calls)
  {
    var s1 := Advance(cfg, gen, ins, a, st);
    assert [a, b][1..] == [b];
    assert RunPlan(cfg, gen, ins, [a, b], st) == if s1.ok then RunPlan(cfg, gen, ins, [b], s1.pass) else s1;
    if s1.ok {
      var s2 := Advance(cfg, gen, ins, b, s1.pass);
      assert [b][1..] == [];
      assert RunPlan(cfg, gen, ins, [b], s1.pass) == if s2.ok then RunPlan(cfg, gen, ins, [], s2.pass) else s2;
    }
  }

  /** A pass sends at least one prompt to the generator unless the plan is
      empty, at most one per suggestion, and one per suggestion when it
      succeeds. */
  lemma {:induction false} PlanRequestCount(cfg: Config, gen: Generate, ins: Insert, plan: seq<Suggestion>, st: Pass)
    ensures var r := RunPlan(cfg, gen, ins, plan, st);
            && |st.requested| <= |r.pass.requested| <= |st.requested| + |plan|
            && (r.ok ==> |r.pass.requested| == |st.requested| + |plan|)
            && (!r.ok ==> |r.pass.requested| > |st.requested|)
    decreases |plan|
  {
    if plan != [] {
      var a := Advance(cfg, gen, ins, plan[0], st);
      if a.ok {
        PlanRequestCount(cfg, gen, ins, plan[1..], a.pass);
      }
    }
  }

  /** The generator is asked for the full prompts of the plan in order: all of
      them when the pass succeeds, a non-empty prefix ending at the failing
      one otherwise. */
  lemma {:induction false} PlanRequests(cfg: Config, gen: Generate, ins: Insert, plan: seq<Suggestion>, st: Pass)
    ensures var r := RunPlan(cfg, gen, ins, plan, st);
            && |st.requested| <= |r.pass.requested| <= |st.requested| + |plan|
            && r.pass.requested == st.requested + Prompts(plan, cfg.defaultStyles)[..|r.pass.requested| - |st.requested|]
    decreases |plan|
  {
    PlanRequestCount(cfg, gen, ins, plan, st);
    if plan != [] {
      var a := Advance(cfg, gen, ins, plan[0], st);
      var full := FullPrompt(plan[0], cfg.defaultStyles);
      var rest := Prompts(plan[1..], cfg.defaultStyles);
      assert Prompts(plan, cfg.defaultStyles) == [full] + rest;
      if a.ok {
        var r := RunPlan(cfg, gen, ins, plan[1..], a.pass);
        assert RunPlan(cfg, gen, ins, plan, st) == r;
        PlanRequests(cfg, gen, ins, plan[1..], a.pass);
        var n := |r.pass.requested| - |a.pass.requested|;
        PrefixAfterHead(full, rest, n);
        AppendAssoc(st.requested, [full], rest[..n]);
      } else {
        assert RunPlan(cfg, gen, ins, plan, st) == a;
        PrefixAfterHead(full, rest, 0);
      }
    }
  }

  lemma PrefixAfterHead(x: string, rest: seq<string>, n: nat)
    requires n <= |rest|
    ensures ([x] + rest)[..n + 1] == [x] + rest[..n]
  {
  }

  lemma AppendAssoc(a: seq<string>, b: seq<string>, c: seq<string>)
    ensures a + b + c == a + (b + c)
  {
  }

  /** A generator that never writes the cache and misses on every call
      (`generateImage` with caching off) leaves the cache of a pass as it was
      and takes one oracle step per prompt sent. */
  lemma {:induction false} PlanWithoutCache(cfg: Config, gen: Generate, ins: Insert, plan: seq<Suggestion>, st: Pass)
    requires forall p, s, c, n: nat :: gen(p, s, c, n).cache == c && gen(p, s, c, n).calls == n + 1
    ensures var r := RunPlan(cfg, gen, ins, plan, st);
            && r.pass.cache == st.cache
            && r.pass.calls - st.calls == |r.pass.requested| - |st.requested|
    decreases |plan|
  {
    PlanRequests(cfg, gen, ins, plan, st);
    if plan != [] {
      var a := Advance(cfg, gen, ins, plan[0], st);
      if a.ok {
        PlanWithoutCache(cfg, gen, ins, plan[1..], a.pass);
      }
    }
  }

  /** `generateImage` with caching off is such a generator. */
  lemma GenerationWithoutCache(cfg: Config, avatar: string, comfy: ComfyService)
    requires !cfg.cacheImages
    ensures var gen := Generation(cfg, avatar, comfy);
            forall p, s, c, n: nat :: gen(p, s, c, n).cache == c && gen(p, s, c, n).calls == n + 1
  {
    forall p, s, c, n: nat ensures GenerateSpec(cfg, avatar, comfy, p, s, c, n).cache == c
                              && GenerateSpec(cfg, avatar, comfy, p, s, c, n).calls == n + 1 {
      CacheDisabled(cfg, avatar, comfy, p, s, c, n);
    }
  }

  /** How `handlePostReply` ended: the text written to `reply.mes` (none when
      nothing was written), the cache, the generator's cache misses,
      the prompts sent to the generator and the number of analyzer calls. */
  datatype Handled = Handled(written: Option<string>, cache: map<string, string>, calls: nat,
                             requested: seq<string>, attempts: nat)

  /** The analyzer's positions on call `attempt`, filtered by score. */
  function PlanOf(cfg: Config, analyze: Analyze, attempt: nat): Option<seq<Suggestion>> {
    match analyze(attempt)
    case Err(_) => None
    case Ok(sugs) => Some(Accepted(sugs, cfg.minScore))
  }

  /** The `while (retries >= 0)` loop with `retries` left and `attempts`
      analyzer calls made: each attempt analyzes the reply, runs the plan on
      the working text carried over from earlier attempts, and either writes
      the working text and stops, or counts down one retry. */
  function RunAttempts(cfg: Config, analyze: Analyze, gen: Generate, ins: Insert, retries: int, st: Pass, attempts: nat): Handled
    decreases if retries < 0 then 0 else retries + 1
  {
    if retries < 0 then Handled(None, st.cache, st.calls, st.requested, attempts)
    else
      match PlanOf(cfg, analyze, attempts)
      case None => RunAttempts(cfg, analyze, gen, ins, retries - 1, st, attempts + 1)
      case Some(plan) =>
        var p := RunPlan(cfg, gen, ins, plan, st);
        if p.ok then Handled(Some(p.pass.mes), p.pass.cache, p.pass.calls, p.pass.requested, attempts + 1)
        else RunAttempts(cfg, analyze, gen, ins, retries - 1, p.pass, attempts + 1)
  }

  /** The number of passes the retry loop allows: `retryCount + 1`, none for a
      negative count. */
  function MaxAttempts(retryCount: int): nat {
    if retryCount < 0 then 0 else retryCount + 1
  }

  /** The loop stops after its last retry or at the first successful pass:
      without a write every allowed attempt was made; a write comes from an
      attempt whose analysis succeeded, and ends the loop. */
  lemma {:induction false} AttemptsBound(cfg: Config, analyze: Analyze, gen: Generate, ins: Insert, retries: int, st: Pass, attempts: nat)
    ensures var r := RunAttempts(cfg, analyze, gen, ins, retries, st, attempts);
            && attempts <= r.attempts <= attempts + MaxAttempts(retries)
            && (r.written.None? ==> r.attempts == attempts + MaxAttempts(retries))
            && (r.written.Some? ==> r.attempts > attempts && PlanOf(cfg, analyze, r.attempts - 1).Some?)
    decreases if retries < 0 then 0 else retries + 1
  {
    if retries >= 0 {
      match PlanOf(cfg, analyze, attempts)
      case None =>
        AttemptsBound(cfg, analyze, gen, ins, retries - 1, st, attempts + 1);
      case Some(plan) =>
        var p := RunPlan(cfg, gen, ins, plan, st);
        if !p.ok {
          AttemptsBound(cfg, analyze, gen, ins, retries - 1, p.pass, attempts + 1);
        }
    }
  }

  /** The handler's cache-free generator keeps the cache of every pass: with
      a generator that never writes the cache, the loop leaves it as it was. */
  lemma {:induction false} AttemptsWithoutCache(cfg: Config, analyze: Analyze, gen: Generate, ins: Insert,
                                                retries: int, st: Pass, attempts: nat)
    requires forall p, s, c, n: nat :: gen(p, s, c, n).cache == c && gen(p, s, c, n).calls == n + 1
    ensures RunAttempts(cfg, analyze, gen, ins, retries, st, attempts).cache == st.cache
    decreases if retries < 0 then 0 else retries + 1
  {
    if retries >= 0 {
      match PlanOf(cfg, analyze, attempts)
      case None =>
        AttemptsWithoutCache(cfg, analyze, gen, ins, retries - 1, st, attempts + 1);
      case Some(plan) =>
        PlanWithoutCache(cfg, gen, ins, plan, st);
        var p := RunPlan(cfg, gen, ins, plan, st);
        if !p.ok {
          AttemptsWithoutCache(cfg, analyze, gen, ins, retries - 1, p.pass, attempts + 1);
        }
    }
  }

  /** When every analyzer call fails, the loop makes every allowed attempt,
      writes nothing, and never reaches the generator. */
  lemma {:induction false} AnalyzerDown(cfg: Config, analyze: Analyze, gen: Generate, ins: Insert,
                                        retries: int, st: Pass, attempts: nat)
    requires forall n: nat :: analyze(n).Err?
    ensures RunAttempts(cfg, analyze, gen, ins, retries, st, attempts)
            == Handled(None, st.cache, st.calls, st.requested, attempts + MaxAttempts(retries))
    decreases if retries < 0 then 0 else retries + 1
  {
    if retries >= 0 {
      assert PlanOf(cfg, analyze, attempts).None?;
      AnalyzerDown(cfg, analyze, gen, ins, retries - 1, st, attempts + 1);
    }
  }

  /** A failed pass hands its working text, with the insertions it made before
      the failure, to the next attempt; the next attempt analyzes the same
      reply again. */
  lemma CarryOver(cfg: Config, analyze: Analyze, gen: Generate, ins: Insert, retries: int, st: Pass, attempts: nat)
    requires retries >= 0 && PlanOf(cfg, analyze, attempts).Some?
    requires !RunPlan(cfg, gen, ins, PlanOf(cfg, analyze, attempts).value, st).ok
    ensures RunAttempts(cfg, analyze, gen, ins, retries, st, attempts)
            == RunAttempts(cfg, analyze, gen, ins, retries - 1,
                           RunPlan(cfg, gen, ins, PlanOf(cfg, analyze, attempts).value, st).pass, attempts + 1)
  {
  }

  /** A pass whose first image is made and whose second fails leaves the first
      image in the working text. */
  lemma PartialPass(cfg: Config, gen: Generate, ins: Insert, plan: seq<Suggestion>, st: Pass)
    requires |plan| >= 2
    requires Advance(cfg, gen, ins, plan[0], st).ok
    requires !Advance(cfg, gen, ins, plan[1], Advance(cfg, gen, ins, plan[0], st).pass).ok
    ensures var full := FullPrompt(plan[0], cfg.defaultStyles);
            var url := gen(full, plan[0].style, st.cache, st.calls).url.value;
            var r := RunPlan(cfg, gen, ins, plan, st);
            !r.ok && r.pass.mes == ins(st.mes, plan[0].index, url, full)
  {
    var a := Advance(cfg, gen, ins, plan[0], st);
    assert plan[1..][0] == plan[1];
    assert RunPlan(cfg, gen, ins, plan, st) == RunPlan(cfg, gen, ins, plan[1..], a.pass);
  }

  /** A successful analysis that accepts nothing ends the loop with the
      working text written back unchanged. */
  lemma NothingAccepted(cfg: Config, analyze: Analyze, gen: Generate, ins: Insert, retries: int, st: Pass, attempts: nat)
    requires retries >= 0 && PlanOf(cfg, analyze, attempts) == Some([])
    ensures RunAttempts(cfg, analyze, gen, ins, retries, st, attempts)
            == Handled(Some(st.mes), st.cache, st.calls, st.requested, attempts + 1)
  {
  }

  /** Some analyzer call before `n` accepted a suggestion whose full prompt is `p`. */
  ghost predicate FromAccepted(cfg: Config, analyze: Analyze, n: nat, p: string) {
    exists a: nat, s: Suggestion :: a < n && analyze(a).Ok? && s in analyze(a).value
                                    && EffectiveScore(s) >= cfg.minScore && p == FullPrompt(s, cfg.defaultStyles)
  }

  /** Only accepted suggestions reach the generator: every prompt it is asked
      for is the full prompt of a suggestion that an earlier analyzer call
      returned and whose score passed the threshold. */
  lemma {:induction false} RequestsComeFromAccepted(cfg: Config, analyze: Analyze, gen: Generate, ins: Insert,
                                                    retries: int, st: Pass, attempts: nat)
    requires forall i :: 0 <= i < |st.requested| ==> FromAccepted(cfg, analyze, attempts, st.requested[i])
    ensures var r := RunAttempts(cfg, analyze, gen, ins, retries, st, attempts);
            forall i :: 0 <= i < |r.requested| ==> FromAccepted(cfg, analyze, r.attempts, r.requested[i])
    decreases if retries < 0 then 0 else retries + 1
  {
    if retries >= 0 {
      var plan := PlanOf(cfg, analyze, attempts);
      var next := st;
      if plan.Some? {
        var p := RunPlan(cfg, gen, ins, plan.value, st);
        PlanRequests(cfg, gen, ins, plan.value, st);
        next := p.pass;
        var ps := Prompts(plan.value, cfg.defaultStyles);
        forall i | 0 <= i < |next.requested| ensures FromAccepted(cfg, analyze, attempts + 1, next.requested[i]) {
          if i < |st.requested| {
            Widen(cfg, analyze, attempts, attempts + 1, st.requested[i]);
          } else {
            var j := i - |st.requested|;
            var s := plan.value[j];
            assert next.requested[i] == ps[j] == FullPrompt(s, cfg.defaultStyles);
            assert s in analyze(attempts).value && EffectiveScore(s) >= cfg.minScore;
          }
        }
        if p.ok {
          assert RunAttempts(cfg, analyze, gen, ins, retries, st, attempts)
                 == Handled(Some(next.mes), next.cache, next.calls, next.requested, attempts + 1);
        } else {
          assert RunAttempts(cfg, analyze, gen, ins, retries, st, attempts)
                 == RunAttempts(cfg, analyze, gen, ins, retries - 1, next, attempts + 1);
          RequestsComeFromAccepted(cfg, analyze, gen, ins, retries - 1, next, attempts + 1);
        }
      } else {
        forall i | 0 <= i < |st.requested| ensures FromAccepted(cfg, analyze, attempts + 1, st.requested[i]) {
          Widen(cfg, analyze, attempts, attempts + 1, st.requested[i]);
        }
        assert RunAttempts(cfg, analyze, gen, ins, retries, st, attempts)
               == RunAttempts(cfg, analyze, gen, ins, retries - 1, st, attempts + 1);
        RequestsComeFromAccepted(cfg, analyze, gen, ins, retries - 1, st, attempts + 1);
      }
    }
  }

  /** A prompt accepted before `n` was accepted before any later bound. */
  lemma Widen(cfg: Config, analyze: Analyze, n: nat, m: nat, p: string)
    requires n <= m && FromAccepted(cfg, analyze, n, p)
    ensures FromAccepted(cfg, analyze, m, p)
  {
    var a: nat, s: Suggestion :| a < n && analyze(a).Ok? && s in analyze(a).value
                                 && EffectiveScore(s) >= cfg.minScore && p == FullPrompt(s, cfg.defaultStyles);
    assert a < m;
  }

  /** The event arguments as far as the handler reads them: whether the
      message is the user's, and its text. */
  datatype Reply = Reply(isUser: bool, mes: string)

  /** The guard of `handlePostReply`: enabled, auto-triggered, called with
      arguments, and the message is not the user's own. */
  predicate Triggered(cfg: Config, reply: Option<Reply>) {
    cfg.enabled && cfg.autoTrigger && reply.Some? && !reply.value.isUser
  }

  /** `handlePostReply(args)` with the image cache `cache` and `calls` cache
      misses of the generator before. */
  function HandleSpec(cfg: Config, reply: Option<Reply>, avatar: string, ai: AiService, comfy: ComfyService,
                      cache: map<string, string>, calls: nat): Handled {
    if !Triggered(cfg, reply) then Handled(None, cache, calls, [], 0)
    else RunAttempts(cfg, Analysis(cfg, reply.value.mes, ai), Generation(cfg, avatar, comfy), InsertImage,
                     cfg.retryCount, Pass(reply.value.mes, cache, calls, []), 0)
  }

  /** When the guard fails nothing happens: no analysis, no generation, no write. */
  lemma GuardBlocks(cfg: Config, reply: Option<Reply>, avatar: string, ai: AiService, comfy: ComfyService,
                    cache: map<string, string>, calls: nat)
    ensures !Triggered(cfg, reply) <==> !cfg.enabled || !cfg.autoTrigger || reply.None? || reply.value.isUser
    ensures !Triggered(cfg, reply) ==> HandleSpec(cfg, reply, avatar, ai, comfy, cache, calls) == Handled(None, cache, calls, [], 0)
  {
  }

  /** Once triggered, the handler calls the analyzer at most `retryCount + 1`
      times; it writes nothing only after using every attempt, and a write
      comes from an attempt whose analysis succeeded. */
  lemma HandleAttempts(cfg: Config, reply: Option<Reply>, avatar: string, ai: AiService, comfy: ComfyService,
                       cache: map<string, string>, calls: nat)
    requires Triggered(cfg, reply)
    ensures var r := HandleSpec(cfg, reply, avatar, ai, comfy, cache, calls);
            && r.attempts <= MaxAttempts(cfg.retryCount)
            && (r.written.None? ==> r.attempts == MaxAttempts(cfg.retryCount))
            && (r.written.Some? ==> r.attempts >= 1 && AnalyzeReply(cfg, reply.value.mes, r.attempts - 1, ai).Ok?)
  {
    var analyze := Analysis(cfg, reply.value.mes, ai);
    AttemptsBound(cfg, analyze, Generation(cfg, avatar, comfy), InsertImage,
                  cfg.retryCount, Pass(reply.value.mes, cache, calls, []), 0);
  }

  /** If the language-model service fails every request, the reply is never
      written, the generator is never asked, and every allowed attempt is made. */
  lemma ServiceDownLeavesReply(cfg: Config, reply: Option<Reply>, avatar: string, ai: AiService, comfy: ComfyService,
                               cache: map<string, string>, calls: nat)
    requires Triggered(cfg, reply)
    requires forall n: nat, req: AiRequest :: ai.post(n, req).Err?
    ensures HandleSpec(cfg, reply, avatar, ai, comfy, cache, calls)
            == Handled(None, cache, calls, [], MaxAttempts(cfg.retryCount))
  {
    var analyze := Analysis(cfg, reply.value.mes, ai);
    forall n: nat ensures analyze(n).Err? {
      var prompt := ReplaceFirst(cfg.promptTemplate, "{{reply}}", reply.value.mes);
      var req := BuildRequest(cfg.aiProvider, cfg.aiBaseUrl, cfg.aiApiKey, cfg.aiModel, prompt);
      if req.Ok? {
        assert ai.post(n, req.value).Err?;
      }
    }
    AnalyzerDown(cfg, analyze, Generation(cfg, avatar, comfy), InsertImage,
                 cfg.retryCount, Pass(reply.value.mes, cache, calls, []), 0);
  }

  /** With caching off the handler leaves the image cache as it found it. */
  lemma HandleWithoutCache(cfg: Config, reply: Option<Reply>, avatar: string, ai: AiService, comfy: ComfyService,
                           cache: map<string, string>, calls: nat)
    requires !cfg.cacheImages
    ensures HandleSpec(cfg, reply, avatar, ai, comfy, cache, calls).cache == cache
  {
    if Triggered(cfg, reply) {
      GenerationWithoutCache(cfg, avatar, comfy);
      AttemptsWithoutCache(cfg, Analysis(cfg, reply.value.mes, ai), Generation(cfg, avatar, comfy), InsertImage,
                           cfg.retryCount, Pass(reply.value.mes, cache, calls, []), 0);
    }
  }

  /** Every prompt the handler sends to the generator is the full prompt of a
      suggestion that one of its analyzer calls returned with a passing score. */
  lemma HandleRequestsAccepted(cfg: Config, reply: Option<Reply>, avatar: string, ai: AiService, comfy: ComfyService,
                               cache: map<string, string>, calls: nat)
    requires Triggered(cfg, reply)
    ensures var r := HandleSpec(cfg, reply, avatar, ai, comfy, cache, calls);
            forall i :: 0 <= i < |r.requested| ==> FromAccepted(cfg, Analysis(cfg, reply.value.mes, ai), r.attempts, r.requested[i])
  {
    var analyze := Analysis(cfg, reply.value.mes, ai);
    var st := Pass(reply.value.mes, cache, calls, []);
    assert HandleSpec(cfg, reply, avatar, ai, comfy, cache, calls)
           == RunAttempts(cfg, analyze, Generation(cfg, avatar, comfy), InsertImage, cfg.retryCount, st, 0);
    RequestsComeFromAccepted(cfg, analyze, Generation(cfg, avatar, comfy), InsertImage, cfg.retryCount, st, 0);
  }

  /** A first analysis that accepts nothing writes the reply back unchanged
      after a single attempt. */
  lemma NothingAcceptedFirst(cfg: Config, reply: Option<Reply>, avatar: string, ai: AiService, comfy: ComfyService,
                             cache: map<string, string>, calls: nat)
    requires Triggered(cfg, reply) && cfg.retryCount >= 0
    requires AnalyzeReply(cfg, reply.value.mes, 0, ai).Ok?
    requires Accepted(AnalyzeReply(cfg, reply.value.mes, 0, ai).value, cfg.minScore) == []
    ensures HandleSpec(cfg, reply, avatar, ai, comfy, cache, calls) == Handled(Some(reply.value.mes), cache, calls, [], 1)
  {
    var analyze := Analysis(cfg, reply.value.mes, ai);
    assert PlanOf(cfg, analyze, 0) == Some([]);
    NothingAccepted(cfg, analyze, Generation(cfg, avatar, comfy), InsertImage,
                    cfg.retryCount, Pass(reply.value.mes, cache, calls, []), 0);
  }

  /** A first pass that succeeds is the only attempt: the generator is asked
      for the full prompt of every accepted suggestion, in the analyzer's
      order, and the reply is written with all their images. */
  lemma FirstPassSucceeds(cfg: Config, reply: Option<Reply>, avatar: string, ai: AiService, comfy: ComfyService,
                          cache: map<string, string>, calls: nat)
    requires Triggered(cfg, reply) && cfg.retryCount >= 0
    requires PlanOf(cfg, Analysis(cfg, reply.value.mes, ai), 0).Some?
    requires RunPlan(cfg, Generation(cfg, avatar, comfy), InsertImage, PlanOf(cfg, Analysis(cfg, reply.value.mes, ai), 0).value,
                     Pass(reply.value.mes, cache, calls, [])).ok
    ensures var plan := PlanOf(cfg, Analysis(cfg, reply.value.mes, ai), 0).value;
            var p := RunPlan(cfg, Generation(cfg, avatar, comfy), InsertImage, plan, Pass(reply.value.mes, cache, calls, []));
            var r := HandleSpec(cfg, reply, avatar, ai, comfy, cache, calls);
            && r == Handled(Some(p.pass.mes), p.pass.cache, p.pass.calls, p.pass.requested, 1)
            && r.requested == Prompts(plan, cfg.defaultStyles)
  {
    var plan := PlanOf(cfg, Analysis(cfg, reply.value.mes, ai), 0).value;
    var st := Pass(reply.value.mes, cache, calls, []);
    PlanRequests(cfg, Generation(cfg, avatar, comfy), InsertImage, plan, st);
    PlanRequestCount(cfg, Generation(cfg, avatar, comfy), InsertImage, plan, st);
    var ps := Prompts(plan, cfg.defaultStyles);
    assert ps[..|plan|] == ps;
  }

  /** Insertions made by a failed pass survive into the text written by a
      later successful pass: here the first pass places one image and then
      fails, and the second pass accepts nothing, yet the reply is written
      with the first pass's image in it. */
  lemma FailedPassInsertionsAreKept(cfg: Config, reply: Option<Reply>, avatar: string, ai: AiService, comfy: ComfyService,
                                    cache: map<string, string>, calls: nat)
    requires Triggered(cfg, reply) && cfg.retryCount >= 1
    requires PlanOf(cfg, Analysis(cfg, reply.value.mes, ai), 0).Some?
    requires var plan := PlanOf(cfg, Analysis(cfg, reply.value.mes, ai), 0).value;
             var st := Pass(reply.value.mes, cache, calls, []);
             var gen := Generation(cfg, avatar, comfy);
             && |plan| >= 2
             && Advance(cfg, gen, InsertImage, plan[0], st).ok
             && !Advance(cfg, gen, InsertImage, plan[1], Advance(cfg, gen, InsertImage, plan[0], st).pass).ok
    requires PlanOf(cfg, Analysis(cfg, reply.value.mes, ai), 1) == Some([])
    ensures var plan := PlanOf(cfg, Analysis(cfg, reply.value.mes, ai), 0).value;
            var full := FullPrompt(plan[0], cfg.defaultStyles);
            var url := GenerateSpec(cfg, avatar, comfy, full, plan[0].style, cache, calls).url.value;
            var r := HandleSpec(cfg, reply, avatar, ai, comfy, cache, calls);
            && r.attempts == 2
            && r.written == Some(InsertImage(reply.value.mes, plan[0].index, url, full))
            && |r.written.value| > |reply.value.mes|
  {
    var analyze := Analysis(cfg, reply.value.mes, ai);
    var gen := Generation(cfg, avatar, comfy);
    var plan := PlanOf(cfg, analyze, 0).value;
    var st := Pass(reply.value.mes, cache, calls, []);
    var full := FullPrompt(plan[0], cfg.defaultStyles);
    var url := GenerateSpec(cfg, avatar, comfy, full, plan[0].style, cache, calls).url.value;
    PartialPass(cfg, gen, InsertImage, plan, st);
    var p := RunPlan(cfg, gen, InsertImage, plan, st);
    CarryOver(cfg, analyze, gen, InsertImage, cfg.retryCount, st, 0);
    NothingAccepted(cfg, analyze, gen, InsertImage, cfg.retryCount - 1, p.pass, 1);
    RemovingTagRecoversMessage(reply.value.mes, plan[0].index, url, full);
  }

  /** A message as the host holds it; the handler writes `mes` in place. */
  class Message {
    var mes: string

    constructor (text: string)
      ensures mes == text
    {
      mes := text;
    }
  }

  /** The `args` of the post-reply event. */
  datatype Args = Args(isUser: bool, message: Message)

  /** What the handler reads from its arguments. */
  function ReplyOf(args: Option<Args>): Option<Reply>
    reads if args.Some? then {args.value.message} else {}
  {
    if args.None? then None else Some(Reply(args.value.isUser, args.value.message.mes))
  }

  /** `handlePostReply(args)`: `calls` counts the generator's cache misses
      before the call, `callsOut` those after it; `attempts` is the number of
      analyzer calls and `requested` the prompts sent to the generator. The
      message text is written once, at the end of a successful pass. */
  method HandlePostReply(cfg: Config, args: Option<Args>, avatar: string, ai: AiService, comfy: ComfyService,
                         cache: ImageCache, calls: nat) returns (attempts: nat, callsOut: nat, requested: seq<string>)
    modifies cache, if args.Some? then {args.value.message} else {}
    ensures var r := HandleSpec(cfg, old(ReplyOf(args)), avatar, ai, comfy, old(cache.entries), calls);
            && cache.entries == r.cache && callsOut == r.calls && requested == r.requested && attempts == r.attempts
            && (args.Some? ==> args.value.message.mes == if r.written.Some? then r.written.value else old(args.value.message.mes))
  {
    if !cfg.enabled || !cfg.autoTrigger || args.None? || args.value.isUser {
      return 0, calls, [];
    }
    var reply := args.value.message;
    var modifiedMes := reply.mes;
    var retries := cfg.retryCount;
    ghost var analyze := Analysis(cfg, reply.mes, ai);
    ghost var gen := Generation(cfg, avatar, comfy);
    ghost var goal := HandleSpec(cfg, ReplyOf(args), avatar, ai, comfy, cache.entries, calls);
    attempts, callsOut, requested := 0, calls, [];
    while retries >= 0
      invariant reply.mes == old(reply.mes)
      invariant goal == RunAttempts(cfg, analyze, gen, InsertImage, retries, Pass(modifiedMes, cache.entries, callsOut, requested), attempts)
      decreases retries + 1
    {
      var suggestions := AnalyzeReply(cfg, reply.mes, attempts, ai);
      ghost var before := Pass(modifiedMes, cache.entries, callsOut, requested);
      var failed := suggestions.Err?;
      if !failed {
        var plan := Accepted(suggestions.value, cfg.minScore);
        var i := 0;
        while i < |plan| && !failed
          invariant 0 <= i <= |plan|
          invariant reply.mes == old(reply.mes)
          invariant !failed ==> RunPlan(cfg, gen, InsertImage, plan, before)
                                == RunPlan(cfg, gen, InsertImage, plan[i..], Pass(modifiedMes, cache.entries, callsOut, requested))
          invariant failed ==> RunPlan(cfg, gen, InsertImage, plan, before)
                               == PlanResult(false, Pass(modifiedMes, cache.entries, callsOut, requested))
        {
          var sug := plan[i];
          var fullPrompt := FullPrompt(sug, cfg.defaultStyles);
          requested := requested + [fullPrompt];
          var imageUrl;
          imageUrl, callsOut := GenerateImage(cfg, avatar, comfy, fullPrompt, sug.style, cache, callsOut);
          if imageUrl.Err? {
            failed := true;
          } else {
            modifiedMes := InsertImage(modifiedMes, sug.index, imageUrl.value, fullPrompt);
          }
          i := i + 1;
        }
      }
      attempts := attempts + 1;
      if !failed {
        reply.mes := modifiedMes;
        return;
      }
      retries := retries - 1;
      if retries < 0 {
        return;
      }
    }
  }
}
