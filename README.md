# Stencil cache: a verified model

`stencils.cpp` shares compiled SpiderMonkey scripts (stencils) between threads.
It keeps a cache keyed by the exact script text. `Job::ExecuteScript` looks a
script up. On a miss it compiles the script with `compile_script` and stores a
successful result. It then instantiates the stencil in the caller's context and
executes it.

This project models that protocol in Dafny and proves what the code promises:

- a hit never reaches the compiler;
- a failed compile leaves the cache alone and stops the job before instantiation;
- a bound key keeps its first handle forever, and nothing is evicted;
- instantiation and execution failures leave the cache as the lookup/compile step left it;
- a job executes only the script its own successful instantiation returned, so nothing runs after a failed compile or a failed instantiation;
- for jobs run one after another, once a script has a stencil every later job for it is a hit and its compile counter stays put;
- two racing jobs may both compile; the cache keeps the first stencil, and the second job runs its own;
- `compile_script` destroys every frontend context it creates, exactly once, on every path.

Files:

- `cache_spec.dfy` (module `CacheSpec`): the cache contents as a `map<string, Handle>`, with `Lookup` (what `find` answers) and `Inserted` (what `std::map::insert` leaves).
- `job_spec.dfy` (module `JobSpec`): `Execute`, the reference definition of one `ExecuteScript` call. `RunAll` and `CompileLog` fold it over a sequence of jobs run one after another. The lemmas about repeated jobs live here.
- `stencils.dfy` (module `Stencils`): the imperative model. `JSCache` holds the map as a field that `Insert` updates in place. `Frontend` keeps the ghost set of live frontend contexts and the ghost log of compiler calls. `JSContext` keeps the ghost log of stencils handed to instantiation, the stencil whose script the last instantiation returned (none after a failed one), and the ghost log of stencils executed. `Job` has `CompileScript` and `ExecuteScript`. `ExecuteExamples` is the driver loop. Each method is proved against the functions above.

The SpiderMonkey calls are oracles. Their answers for one job are an
`EngineAnswers` value passed in by the caller:

- whether a frontend context was created;
- whether the source initialised;
- the stencil or null the compiler returned;
- whether instantiation succeeded;
- whether execution succeeded.

Every result holds for all answers.

Notes on the model:

- `ExecuteScript` returns nothing in the code. The model's `JobEnd` result only names the exit the code takes: compile failure, instantiation failure, runtime error or done.
- `compile_script` returns null for every failure (no context, source init failure, compile error). There is no typed compile error.
- A second `insert` for a key already present is discarded, as `std::map::insert` does. It never overwrites.

## Model

| member | source | states |
|---|---|---|
| CacheSpec.Lookup | stencils.cpp:57-61 | absent exactly when the key is not bound; otherwise the handle stored under it |
| CacheSpec.Inserted | stencils.cpp:63-66 | the result keeps every existing binding (`Extends`) and its key set is the old one plus the key; a bound key leaves the map unchanged (first insert wins); an unbound key gets the new handle; no other key is affected |
| CacheSpec.RacingInsertsKeepFirst | stencils.cpp:65 | two inserts of the same unbound key (two jobs that both missed and compiled) leave exactly one entry, holding the first handle |
| Stencils.JSCache.Find | stencils.cpp:57-61 | returns `Lookup` of the map: absent iff the key is missing, otherwise the stored handle; changes nothing |
| Stencils.JSCache.Insert | stencils.cpp:63-66 | the new map is `Inserted(old map, key, val)` and extends the old one |
| JobSpec.CompileOutcome | stencils.cpp:122-151 | a stencil is returned iff a context was created, the source initialised and the compiler produced one, and then it is the compiler's stencil; no context means null |
| JobSpec.RunStencil | stencils.cpp:106-119 | once a stencil is in hand the job is done iff instantiation and execution both succeed; it fails at instantiation iff instantiation fails |
| JobSpec.Execute | stencils.cpp:90-120 | hit iff the script is cached; a hit leaves the cache unchanged and instantiates the cached stencil; a compile failure happens iff a miss got no stencil, and then the cache is unchanged and nothing is instantiated; a successful compile binds exactly that script to the new stencil; whenever a stencil is instantiated, the cache this job leaves holds it for the script; the cache is only extended |
| JobSpec.JobCompiles | stencils.cpp:94-101 | at most one compiler call per job, none on a hit, and it carries the job's script, file name and line |
| JobSpec.RunAll | stencils.cpp:90-120 | jobs run one after another only extend the cache: no key is removed and no handle replaced |
| JobSpec.CompileLog | stencils.cpp:94-101 | at most one compiler call per job, and never for a script that was cached before the jobs began |
| JobSpec.Instantiations | stencils.cpp:106-108 | at most one instantiation per job, and every stencil handed to instantiation is one the cache holds after the jobs |
| JobSpec.Executions | stencils.cpp:109-115 | no more executions than instantiations over any sequence of jobs, and every stencil executed is one the cache holds after the jobs |
| JobSpec.RunAllAppend | stencils.cpp:225-226 | running two job sequences one after the other (as `ExecuteExamples` is run twice per thread, also lines 239-240, each run a loop at lines 207-209) leaves the same cache as running their concatenation |
| JobSpec.CompileLogAppend | stencils.cpp:225-226 | the compiler calls of a concatenation are those of the first part followed by those of the second part, started from the cache the first part left |
| JobSpec.CachedNeverCompiled | stencils.cpp:94-104 | a script already in the cache has compile counter 0 over any later sequence of jobs |
| JobSpec.CompileCounterStableAfterSuccess | stencils.cpp:94-101 | for jobs run one after another: after a job for a script obtains a stencil, that script's compile counter never grows again, and every later job for it is a hit instantiating that same stencil |
| JobSpec.RacingJobs | stencils.cpp:94-108 | two jobs for one uncached script whose lookups both precede either insert both compile (counter 2); the second insert is discarded so the cache keeps the first stencil; the second job instantiates its own stencil, which equals the cached one only when both compiles returned the same handle |
| JobSpec.InstantiateFailureKeepsStencil | stencils.cpp:106-112 | after an instantiation failure, the next job for the same script is a hit and gets the same stencil: nothing was evicted |
| Stencils.Frontend.NewFrontendContext | stencils.cpp:43 | a fresh context is added to the live set iff creation succeeds |
| Stencils.Frontend.DestroyFrontendContext | stencils.cpp:133 | only a live context can be destroyed, and it leaves the live set |
| Stencils.Frontend.SourceInit | stencils.cpp:130 | source initialisation needs a live context and reports the engine's answer |
| Stencils.Frontend.CompileGlobalScriptToStencil | stencils.cpp:141-142 | compiling needs a live context and appends the request to the compiler log |
| Stencils.JSContext.InstantiateGlobalStencil | stencils.cpp:107-108 | the stencil handed over is appended to the context's instantiation log; the result is the engine's answer; on success that stencil's script is the one ready to execute, on failure none is; the execution log is unchanged |
| Stencils.JSContext.ExecuteInstantiated | stencils.cpp:114-115 | callable only while an instantiated script is ready (the null `rscript` path never reaches it); appends exactly that stencil to the execution log; the result is the engine's answer |
| Stencils.NewCompileContext | stencils.cpp:40-47 | a created context is fresh, live and has the compile stack quota set |
| Stencils.Job.CompileScript | stencils.cpp:122-151 | returns `CompileOutcome`; the live context set is the same at exit as at entry, so a created context is destroyed exactly once on each path; the compiler is called once iff a context exists and the source initialised |
| Stencils.Job.ExecuteScript | stencils.cpp:90-120 | the new cache, the exit taken and the stencil handed to instantiation are those of `Execute` on the old cache (so a hit instantiates the cached stencil, and a failed compile instantiates nothing); the execution log grows by that same stencil exactly when instantiation succeeded (exits runtime error and done), and by nothing after a compile or instantiation failure; the compiler log grows by `JobCompiles`, so a hit never compiles; live contexts are balanced |
| Stencils.ExampleJobs | stencils.cpp:205-209 | the driver submits the scripts in order, under file name "none", with line numbers 1, 2, 3, ... |
| Stencils.RunNext | stencils.cpp:207-209 | one pass of the loop moves the cache and the compiler, instantiation and execution logs from what the first `i` submissions left to what the first `i + 1` leave; live contexts are balanced |
| Stencils.ExecuteExamples | stencils.cpp:205-209 | after the loop the cache is `RunAll` of the old cache over the submitted jobs; the compiler log grew by their `CompileLog`, the instantiation log by their `Instantiations` and the execution log by their `Executions`; live contexts are balanced |

## Left out

- Threads and the mutex (stencils.cpp:58, 64, 69, 212-245): `find` and `insert` are modelled as atomic sequential steps, and interleavings of whole jobs are not modelled. A job whose lookup runs before another job's insert has two effects. It compiles again, even after the other job's compile succeeded. It also instantiates its own stencil, which its discarded insert leaves out of the cache. `RacingJobs` states both effects for two jobs that looked up the same cache.
- JobSpec.Execute: "whenever a stencil is instantiated, the cache holds it for the script" holds for jobs run one after another only, not for racing jobs.
- JobSpec.Instantiations: "held by the cache after the jobs" holds for jobs run one after another only; a racing job can instantiate a stencil its discarded insert left out.
- JobSpec.Executions: the same restriction as `Instantiations`.
- JobSpec.CompileCounterStableAfterSuccess: holds for jobs run one after another only. A racing job whose lookup came before the successful insert can compile again.
- SpiderMonkey calls (`NewFrontendContext`, `SetNativeStackQuota`, `SourceText::init`, `CompileGlobalScriptToStencil`, `InstantiateGlobalStencil`, `JS_ExecuteScript`): these are foreign code, so the engine's answers are parameters. Tracked: context liveness, the quota set on a context, the compiler-call log, the instantiation log, the script ready to execute and the execution log.
- The `JSContext` argument of `ExecuteScript`: only the stencils handed to it, the script ready to run and the stencils executed are recorded; the `JSScript` value itself and the execution's result value `val` are not modelled. Whether instantiation and execution succeed is part of `EngineAnswers`.
- `RefPtr` reference counting and stencil lifetime: a handle is an opaque immutable value.
- `CompileStackQuota` assumes an 8-byte `size_t`. The quota is recorded on the context but not used, because the compiler is an oracle.
- Console output, the cache destructor's message, and `ReportAndClearException`: output only.
- `Print`, `DefineFunctions`, global and realm creation in `ExecuteExamples`, the script texts, `ThreadFunction`, `StencilExample` and `main`: engine plumbing and thread start-up. The driver model takes its scripts as a parameter. It does not model the early returns when global creation or `DefineFunctions` fails (stencils.cpp:193-203), which skip every job of that call.
