/**
 The imperative side of the stencil cache example: the `JSCache` object whose
 map `insert` updates in place, the frontend contexts `compile_script` acquires
 and releases, and the `Job` that runs scripts through the cache.
 */
module Stencils {
  import opened CacheSpec
  import opened JobSpec

  /** `kCompileStackQuota` = 128 * sizeof(size_t) * 1024, with an 8-byte `size_t`. */
  const CompileStackQuota: nat := 128 * 8 * 1024

  /** The cache of compiled scripts; the mutex only makes each call atomic. */
  class JSCache {
    var entries: Entries

    constructor ()
      ensures entries == map[]
    {
      entries := map[];
    }

    /** The stored handle for `key`, or absent; the map is left as it is. */
    method Find(key: string) returns (r: Option<Handle>)
      ensures r == Lookup(entries, key)
      ensures r.None? <==> key !in entries
      ensures r.Some? ==> entries[key] == r.value
    {
      if key in entries {
        r := Some(entries[key]);
      } else {
        r := None;
      }
    }

    /** Stores `val` under `key` unless `key` is already bound (first insert wins). */
    method Insert(key: string, val: Handle)
      modifies this
      ensures entries == Inserted(old(entries), key, val)
      ensures Extends(old(entries), entries)
    {
      if key !in entries {
        entries := entries[key := val];
      }
    }
  }

  /** A `JS::FrontendContext`: a compilation context with its native stack quota. */
  class FrontendContext {
    var stackQuota: nat

    constructor ()
      ensures stackQuota == 0
    {
      stackQuota := 0;
    }
  }

  /**
   The SpiderMonkey frontend as this program uses it. Its answers are given by the
   caller; its state is the ghost record of the contexts not yet destroyed and of
   every compiler call made.
   */
  class Frontend {
    ghost var live: set<FrontendContext>
    ghost var compiled: seq<CompileRequest>

    constructor ()
      ensures live == {} && compiled == []
    {
      live := {};
      compiled := [];
    }

    /** `JS::NewFrontendContext`: a fresh context, or null when `succeeds` is false. */
    method NewFrontendContext(succeeds: bool) returns (fc: FrontendContext?)
      modifies this
      ensures (fc != null) == succeeds
      ensures fc != null ==> fresh(fc) && fc.stackQuota == 0
      ensures live == old(live) + (if fc != null then {fc} else {})
      ensures compiled == old(compiled)
    {
      if succeeds {
        fc := new FrontendContext();
        live := live + {fc};
      } else {
        fc := null;
      }
    }

    /** `JS::DestroyFrontendContext`: only a live context may be destroyed. */
    method DestroyFrontendContext(fc: FrontendContext)
      requires fc in live
      modifies this
      ensures live == old(live) - {fc}
      ensures compiled == old(compiled)
    {
      live := live - {fc};
    }

    /** `SourceText::init` with a live context; `answer` is whether it succeeded. */
    method SourceInit(fc: FrontendContext, script: string, answer: bool) returns (ok: bool)
      requires fc in live
      ensures ok == answer
    {
      ok := answer;
    }

    /** `JS::CompileGlobalScriptToStencil` on a live context; `answer` is the engine's result. */
    method CompileGlobalScriptToStencil(fc: FrontendContext, request: CompileRequest, answer: Option<Handle>)
      returns (st: Option<Handle>)
      requires fc in live
      modifies this
      ensures st == answer
      ensures live == old(live)
      ensures compiled == old(compiled) + [request]
    {
      compiled := compiled + [request];
      st := answer;
    }
  }

  /** The helper `frontend_context()`: a new context with the compile stack quota set. */
  method NewCompileContext(frontend: Frontend, succeeds: bool) returns (fc: FrontendContext?)
    modifies frontend
    ensures (fc != null) == succeeds
    ensures fc != null ==> fresh(fc) && fc.stackQuota == CompileStackQuota
    ensures frontend.live == old(frontend.live) + (if fc != null then {fc} else {})
    ensures frontend.compiled == old(frontend.compiled)
  {
    fc := frontend.NewFrontendContext(succeeds);
    if fc != null {
      fc.stackQuota := CompileStackQuota;  // JS::SetNativeStackQuota
    }
  }

  /**
   A `JSContext`: the per-thread runtime context that instantiates and executes
   stencils. Its answers are given by the caller; its state is the ghost record
   of every stencil handed to instantiation, the stencil whose script the last
   instantiation returned (none after a failed one), and every stencil executed.
   */
  class JSContext {
    ghost var instantiated: seq<Handle>
    ghost var ready: Option<Handle>
    ghost var executed: seq<Handle>

    constructor ()
      ensures instantiated == [] && ready.None? && executed == []
    {
      instantiated := [];
      ready := None;
      executed := [];
    }

    /** `JS::InstantiateGlobalStencil`: `answer` is whether a script came back. */
    method InstantiateGlobalStencil(stencil: Handle, answer: bool) returns (ok: bool)
      modifies this
      ensures ok == answer
      ensures instantiated == old(instantiated) + [stencil]
      ensures ready == (if ok then Some(stencil) else None)
      ensures executed == old(executed)
    {
      instantiated := instantiated + [stencil];
      ready := if answer then Some(stencil) else None;
      ok := answer;
    }

    /** `JS_ExecuteScript` on the script the last instantiation returned: `answer` is whether it ran without an exception. */
    method ExecuteInstantiated(answer: bool) returns (ok: bool)
      requires ready.Some?
      modifies this
      ensures ok == answer
      ensures executed == old(executed) + [old(ready).value]
      ensures instantiated == old(instantiated) && ready == old(ready)
    {
      executed := executed + [ready.value];
      ok := answer;
    }
  }

  /** Compiles and runs scripts through the shared cache. */
  class Job {
    const cache: JSCache

    constructor (cache: JSCache)
      ensures this.cache == cache
    {
      this.cache := cache;
    }

    /**
     `compile_script`: acquires a frontend context, initialises the source, compiles,
     and destroys the context on every path taken after a successful acquire.
     */
    method CompileScript(frontend: Frontend, script: string, filename: string, line: nat, answers: EngineAnswers)
      returns (st: Option<Handle>)
      modifies frontend
      ensures st == CompileOutcome(answers)
      ensures frontend.live == old(frontend.live)
      ensures frontend.compiled == old(frontend.compiled)
        + (if ReachesCompiler(answers) then [CompileRequest(script, filename, line)] else [])
    {
      var fc := NewCompileContext(frontend, answers.contextCreated);
      if fc == null {
        return None;
      }
      var initialised := frontend.SourceInit(fc, script, answers.sourceInitialised);
      if !initialised {
        frontend.DestroyFrontendContext(fc);
        return None;
      }
      st := frontend.CompileGlobalScriptToStencil(fc, CompileRequest(script, filename, line), answers.compiled);
      frontend.DestroyFrontendContext(fc);
    }

    /**
     `ExecuteScript`: look the script up, compile it on a miss and insert a
     successful compile, then instantiate and execute. Returns the exit taken.
     */
    method ExecuteScript(cx: JSContext, frontend: Frontend, script: string, filename: string, line: nat,
                         answers: EngineAnswers)
      returns (end: JobEnd)
      modifies cache, frontend, cx
      ensures var r := Execute(old(cache.entries), Submission(script, filename, line, answers));
              cache.entries == r.entries && end == r.end
              && cx.instantiated == old(cx.instantiated) + StencilUsed(r)
              && cx.executed == old(cx.executed) + StencilRun(r)
      ensures frontend.live == old(frontend.live)
      ensures frontend.compiled
           == old(frontend.compiled) + JobCompiles(old(cache.entries), Submission(script, filename, line, answers))
    {
      var stencil := cache.Find(script);
      if stencil.None? {
        stencil := CompileScript(frontend, script, filename, line, answers);
        if stencil.Some? {
          cache.Insert(script, stencil.value);
        }
      }
      if stencil.None? {
        return CompileFailed;
      }
      var instantiated := cx.InstantiateGlobalStencil(stencil.value, answers.instantiated);
      if !instantiated {
        return InstantiateFailed;
      }
      var executed := cx.ExecuteInstantiated(answers.executed);
      if !executed {
        return RuntimeError;
      }
      return Done;
    }
  }

  /** The submissions the example driver makes: the scripts in order, on lines 1, 2, 3, ... of file "none". */
  function ExampleJobs(scripts: seq<string>, answers: seq<EngineAnswers>): (jobs: seq<Submission>)
    requires |answers| == |scripts|
    ensures |jobs| == |scripts|
    ensures forall i :: 0 <= i < |jobs| ==>
              jobs[i].script == scripts[i] && jobs[i].filename == "none" && jobs[i].line == i + 1
              && jobs[i].answers == answers[i]
  {
    seq(|scripts|, i requires 0 <= i < |scripts| => Submission(scripts[i], "none", i + 1, answers[i]))
  }

  /** The driver's `i`-th submission, field by field. */
  lemma ExampleJobAt(scripts: seq<string>, answers: seq<EngineAnswers>, i: nat)
    requires |answers| == |scripts| && i < |scripts|
    ensures ExampleJobs(scripts, answers)[i] == Submission(scripts[i], "none", i + 1, answers[i])
  {
  }

  /**
   One pass of the driver loop: `job` runs `jobs[i]` after `jobs[..i]`, and the cache
   and the engine's logs move on from what `jobs[..i]` left to what `jobs[..i + 1]` leaves.
   */
  method RunNext(cx: JSContext, job: Job, frontend: Frontend, script: string, filename: string, line: nat,
                 answers: EngineAnswers, ghost start: Entries, ghost jobs: seq<Submission>, ghost i: nat,
                 ghost compiled0: seq<CompileRequest>, ghost instantiated0: seq<Handle>, ghost executed0: seq<Handle>)
    requires i < |jobs| && jobs[i] == Submission(script, filename, line, answers)
    requires job.cache.entries == RunAll(start, jobs[..i])
    requires frontend.compiled == compiled0 + CompileLog(start, jobs[..i])
    requires cx.instantiated == instantiated0 + Instantiations(start, jobs[..i])
    requires cx.executed == executed0 + Executions(start, jobs[..i])
    modifies job.cache, frontend, cx
    ensures job.cache.entries == RunAll(start, jobs[..i + 1])
    ensures frontend.compiled == compiled0 + CompileLog(start, jobs[..i + 1])
    ensures cx.instantiated == instantiated0 + Instantiations(start, jobs[..i + 1])
    ensures cx.executed == executed0 + Executions(start, jobs[..i + 1])
    ensures frontend.live == old(frontend.live)
  {
    assert jobs[..i + 1] == jobs[..i] + [jobs[i]];
    NextJob(start, jobs[..i], jobs[i], compiled0, instantiated0, executed0);
    var _ := job.ExecuteScript(cx, frontend, script, filename, line, answers);
  }

  /** The loop of `ExecuteExamples`: runs each script in turn, numbering them from line 1. */
  method ExecuteExamples(cx: JSContext, job: Job, frontend: Frontend, scripts: seq<string>, answers: seq<EngineAnswers>)
    requires |answers| == |scripts|
    modifies job.cache, frontend, cx
    ensures job.cache.entries == RunAll(old(job.cache.entries), ExampleJobs(scripts, answers))
    ensures cx.instantiated == old(cx.instantiated) + Instantiations(old(job.cache.entries), ExampleJobs(scripts, answers))
    ensures cx.executed == old(cx.executed) + Executions(old(job.cache.entries), ExampleJobs(scripts, answers))
    ensures frontend.compiled
         == old(frontend.compiled) + CompileLog(old(job.cache.entries), ExampleJobs(scripts, answers))
    ensures frontend.live == old(frontend.live)
  {
    ghost var jobs := ExampleJobs(scripts, answers);
    ghost var start, compiled0, instantiated0, executed0 := job.cache.entries, frontend.compiled, cx.instantiated, cx.executed;
    var filename := "none";
    var linenumber: nat := 0;
    for i := 0 to |scripts|
      invariant linenumber == i
      invariant job.cache.entries == RunAll(start, jobs[..i])
      invariant frontend.compiled == compiled0 + CompileLog(start, jobs[..i])
      invariant frontend.live == old(frontend.live)
      invariant cx.instantiated == instantiated0 + Instantiations(start, jobs[..i])
      invariant cx.executed == executed0 + Executions(start, jobs[..i])
    {
      linenumber := linenumber + 1;
      ExampleJobAt(scripts, answers, i);
      RunNext(cx, job, frontend, scripts[i], filename, linenumber, answers[i],
              start, jobs, i, compiled0, instantiated0, executed0);
    }
    assert jobs[..|scripts|] == jobs;
  }
}
