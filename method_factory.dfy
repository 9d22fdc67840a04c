/**
 * The task dispatch engine (MethodFactory): a registry of capability handlers
 * ("methods") with memoized lookup, and the task lifecycle
 * preflight -> <task>Prepare -> <task> (or fallback) -> chained tasks ->
 * <task>Finished -> postflight, with per-call context isolation and overrides.
 *
 * A handler is a record: its name, the names it `supports`, the task names it
 * implements (what `method_exists` probes) and the name of the handler it
 * overrides. What a handler's operation does to the context is not part of the
 * dispatcher; it is given by a `Performer` oracle, which sees the invocation
 * and the context snapshot it runs on and returns the new snapshot and, if the
 * operation threw, the exception.
 *
 * The dispatcher is specified by functions over a `World` (lookup cache, log of
 * invocations, context snapshot) that return the world at the point execution
 * stopped and the exception that stopped it, if any. The class MethodFactory
 * implements them imperatively and is proved equal to them.
 */
module Dispatch {
  import opened Common
  import opened Context

  datatype Handler = Handler(name: string, aliases: set<string>, tasks: set<string>, overrides: Option<string>)
  {
    /** MethodInterface::supports */
    predicate Supports(n: string) { n in aliases }
    /** `method_exists($method, $task)` */
    predicate Has(task: string) { task in tasks }
    /** `getOverriddenMethod()` read as a condition: a truthy name is returned. */
    predicate Overrides() { overrides.Some? && TruthyString(overrides.value) }
  }

  /** The keys of the PHP array `$methods` are the handlers' names. */
  ghost predicate UniqueNames(methods: seq<Handler>)
  {
    forall i, j :: 0 <= i < j < |methods| ==> methods[i].name != methods[j].name
  }

  /**
   * `$this->methods[$method->getName()] = $method`: an existing key keeps its
   * position and gets the new handler; a new key is appended.
   */
  function Registered(methods: seq<Handler>, h: Handler): seq<Handler>
  {
    if methods == [] then [h]
    else if methods[0].name == h.name then [h] + methods[1..]
    else [methods[0]] + Registered(methods[1..], h)
  }

  lemma {:induction false} RegisteredReplacesByName(methods: seq<Handler>, h: Handler)
    requires UniqueNames(methods)
    ensures forall i :: 0 <= i < |methods| && methods[i].name == h.name ==>
              Registered(methods, h) == methods[i := h]
    ensures (forall i :: 0 <= i < |methods| ==> methods[i].name != h.name) ==>
              Registered(methods, h) == methods + [h]
    ensures UniqueNames(Registered(methods, h))
  {
    if methods != [] {
      RegisteredReplacesByName(methods[1..], h);
      if methods[0].name == h.name {
        assert methods[0 := h] == [h] + methods[1..];
      } else {
        forall i | 0 <= i < |methods| && methods[i].name == h.name
          ensures Registered(methods, h) == methods[i := h]
        {
          assert methods[1..][i - 1 := h] == methods[i := h][1..];
        }
        assert methods == [methods[0]] + methods[1..];
      }
    }
  }

  /** The first registered handler, in insertion order, that supports `n`. */
  function FirstSupporting(methods: seq<Handler>, n: string): (r: Option<Handler>)
    ensures r.Some? ==> exists i :: 0 <= i < |methods| && methods[i] == r.value && r.value.Supports(n)
                          && forall j :: 0 <= j < i ==> !methods[j].Supports(n)
    ensures r.None? <==> forall i :: 0 <= i < |methods| ==> !methods[i].Supports(n)
  {
    if methods == [] then None
    else if methods[0].Supports(n) then Some(methods[0])
    else
      var r := FirstSupporting(methods[1..], n);
      assert forall i :: 1 <= i < |methods| ==> methods[i] == methods[1..][i - 1];
      r
  }

  /** `getMethod($n)` as a value: the cached handler, else the first supporting one. */
  function Resolve(methods: seq<Handler>, cache: map<string, Handler>, n: string): Option<Handler>
  {
    if n in cache then Some(cache[n]) else FirstSupporting(methods, n)
  }

  /** The lookup cache after `getMethod($n)`. */
  function Remember(methods: seq<Handler>, cache: map<string, Handler>, n: string): map<string, Handler>
  {
    if n in cache then cache
    else match FirstSupporting(methods, n)
      case Some(h) => cache[n := h]
      case None => cache
  }

  /** Resolving a name never changes how any name resolves afterwards. */
  lemma RememberKeepsResolution(methods: seq<Handler>, cache: map<string, Handler>, n: string)
    ensures forall m :: Resolve(methods, Remember(methods, cache, n), m) == Resolve(methods, cache, m)
  {
  }

  /**
   * Memoization: once `n` is cached, registering any handler, even one with the
   * same name that supports `n`, leaves `getMethod(n)` returning the cached one.
   */
  lemma CachedLookupSurvivesRegistration(methods: seq<Handler>, cache: map<string, Handler>, n: string, h: Handler)
    requires Resolve(methods, cache, n).Some?
    ensures Resolve(Registered(methods, h), Remember(methods, cache, n), n) == Resolve(methods, cache, n)
  {
  }

  /** `getSubset($needs)`: resolves every name, in order. */
  function Subset(methods: seq<Handler>, cache: map<string, Handler>, names: seq<string>): (r: Option<seq<Handler>>)
    ensures r.Some? <==> forall k :: 0 <= k < |names| ==> Resolve(methods, cache, names[k]).Some?
    ensures r.Some? ==> |r.value| == |names|
    ensures r.Some? ==> forall k :: 0 <= k < |names| ==> Some(r.value[k]) == Resolve(methods, cache, names[k])
  {
    if names == [] then Some([])
    else match Resolve(methods, cache, names[0])
      case None => None
      case Some(h) =>
        var rest := Subset(methods, cache, names[1..]);
        assert forall k :: 1 <= k < |names| ==> names[k] == names[1..][k - 1];
        if rest.None? then None else Some([h] + rest.value)
  }

  // ---------------------------------------------------------------------------
  // Dispatch, as functions over a World.

  datatype Hook = PreflightHook | PostflightHook | FallbackHook | TaskHook

  /**
   * One call of a handler operation: the hook, the handler whose code runs,
   * the capability name it is attributed to (differs from `handler` under an
   * override) and the task name.
   */
  datatype Invocation = Invocation(hook: Hook, handler: string, attributedTo: string, task: string)

  datatype Step = Step(ctx: Ctx, raised: Option<Error>)
  type Performer = (Invocation, Ctx) -> Step

  datatype Engine = Engine(methods: seq<Handler>, perform: Performer)
  datatype World = World(cache: map<string, Handler>, calls: seq<Invocation>, ctx: Ctx)
  /** Where execution stopped, and the exception that stopped it (None: it completed). */
  datatype Outcome = Outcome(world: World, err: Option<Error>)

  /** `preflight($step, ...)`, and the fallback loop: one hook on every need, in order. */
  function VisitSpec(e: Engine, hook: Hook, task: string, needs: seq<string>, w: World): Outcome
    decreases |needs|
  {
    if needs == [] then Outcome(w, None)
    else match Resolve(e.methods, w.cache, needs[0])
      case None => Outcome(w, Some(MethodNotFound(needs[0])))
      case Some(h) =>
        var inv := Invocation(hook, h.name, h.name, task);
        var s := e.perform(inv, w.ctx);
        var w' := World(Remember(e.methods, w.cache, needs[0]), w.calls + [inv], s.ctx);
        if s.raised.Some? then Outcome(w', s.raised)
        else VisitSpec(e, hook, task, needs[1..], w')
  }

  datatype OverrideScan = OverrideScan(overrides: map<string, string>, cache: map<string, Handler>, err: Option<Error>)

  /** The override map of `callImpl`: overridden name -> name of the overriding need. */
  function ScanSpec(e: Engine, needs: seq<string>, cache: map<string, Handler>, acc: map<string, string>): OverrideScan
    decreases |needs|
  {
    if needs == [] then OverrideScan(acc, cache, None)
    else match Resolve(e.methods, cache, needs[0])
      case None => OverrideScan(acc, cache, Some(MethodNotFound(needs[0])))
      case Some(h) =>
        var acc' := if h.Overrides() then acc[h.overrides.value := needs[0]] else acc;
        ScanSpec(e, needs[1..], Remember(e.methods, cache, needs[0]), acc')
  }

  /** The clone a handler operation runs on: the caller's context with `currentMethod` set. */
  function CloneFor(c: Ctx, name: string): (r: Ctx)
    ensures r.results == c.results && CurrentMethod in r.vars && r.vars[CurrentMethod] == Str(name)
    ensures forall k :: k in c.vars && k != CurrentMethod ==> k in r.vars && r.vars[k] == c.vars[k]
  {
    Ctx(c.vars[CurrentMethod := Str(name)], c.results)
  }

  /** The end of `callImpl`: run `impl`'s operation on the clone and merge its results back. */
  function InvokeSpec(e: Engine, impl: Handler, name: string, task: string, w: World, optional: bool): Outcome
  {
    if impl.Has(task) then
      var inv := Invocation(TaskHook, impl.name, name, task);
      var s := e.perform(inv, CloneFor(w.ctx, name));
      if s.raised.Some? then Outcome(w.(calls := w.calls + [inv]), s.raised)
      else Outcome(w.(calls := w.calls + [inv], ctx := Ctx(w.ctx.vars, Merge(w.ctx.results, s.ctx.results))), None)
    else if optional then Outcome(w, None)
    else Outcome(w, Some(TaskNotFoundInMethod(task, name)))
  }

  /** The handler whose code runs for `h`: the overriding need's handler, if any. */
  function Implementation(e: Engine, h: Handler, scan: OverrideScan): Option<Handler>
  {
    if h.name in scan.overrides then Resolve(e.methods, scan.cache, scan.overrides[h.name]) else Some(h)
  }

  /** `callImpl($method, $task, ...)` */
  function CallImplSpec(e: Engine, h: Handler, task: string, needs: seq<string>, w: World, optional: bool): Outcome
  {
    var scan := ScanSpec(e, needs, w.cache, map[]);
    if scan.err.Some? then Outcome(w.(cache := scan.cache), scan.err)
    else
      var cache := if h.name in scan.overrides then Remember(e.methods, scan.cache, scan.overrides[h.name]) else scan.cache;
      match Implementation(e, h, scan)
      case None => Outcome(w.(cache := cache), Some(MethodNotFound(scan.overrides[h.name])))
      case Some(impl) => InvokeSpec(e, impl, h.name, task, w.(cache := cache), optional)
  }

  datatype CallsOutcome = CallsOutcome(outcome: Outcome, fired: bool)

  /** The first loop of `runTaskImpl`: call the task on every need that has it. */
  function CallEachSpec(e: Engine, task: string, rest: seq<string>, needs: seq<string>, w: World, fired: bool): CallsOutcome
    decreases |rest|
  {
    if rest == [] then CallsOutcome(Outcome(w, None), fired)
    else match Resolve(e.methods, w.cache, rest[0])
      case None => CallsOutcome(Outcome(w, Some(MethodNotFound(rest[0]))), fired)
      case Some(h) =>
        var w1 := w.(cache := Remember(e.methods, w.cache, rest[0]));
        if h.Has(task) then
          var o := CallImplSpec(e, h, task, needs, w1, true);
          if o.err.Some? then CallsOutcome(o, true)
          else CallEachSpec(e, task, rest[1..], needs, o.world, true)
        else CallEachSpec(e, task, rest[1..], needs, w1, fired)
  }

  /** `runTaskImpl($task, ..., $fallback_allowed)` */
  function TaskImplSpec(e: Engine, task: string, needs: seq<string>, w: World, fallbackAllowed: bool): Outcome
  {
    var c := CallEachSpec(e, task, needs, needs, w, false);
    if c.outcome.err.Some? then c.outcome
    else if !c.fired && fallbackAllowed then VisitSpec(e, FallbackHook, task, needs, c.outcome.world)
    else c.outcome
  }

  /** The chained task names read back from the results: a list's items as strings, anything else as none. */
  function ChainedTasks(results: map<string, Value>): seq<string>
  {
    Strings(ResultOr(results, RunNextTasks, List([])))
  }

  /** `runTask($task, ..., $nextTasks)`; chained tasks nest at most `fuel` deep. */
  function RunTaskSpec(e: Engine, task: string, needs: seq<string>, next: seq<string>, w: World, fuel: nat): Outcome
    decreases fuel, 1, 0
  {
    var w0 := w.(ctx := w.ctx.(results := w.ctx.results[RunNextTasks := StrList(next)]));
    var o1 := VisitSpec(e, PreflightHook, task, needs, w0);
    if o1.err.Some? then o1 else
    var o2 := TaskImplSpec(e, task + "Prepare", needs, o1.world, false);
    if o2.err.Some? then o2 else
    var o3 := TaskImplSpec(e, task, needs, o2.world, true);
    if o3.err.Some? then o3 else
    var o4 := ChainSpec(e, ChainedTasks(o3.world.ctx.results), needs, o3.world, fuel);
    if o4.err.Some? then o4 else
    var o5 := TaskImplSpec(e, task + "Finished", needs, o4.world, false);
    if o5.err.Some? then o5 else
    VisitSpec(e, PostflightHook, task, needs, o5.world)
  }

  /** The chained tasks, each a full `runTask` with `$nextTasks = []`, in order. */
  function ChainSpec(e: Engine, tasks: seq<string>, needs: seq<string>, w: World, fuel: nat): Outcome
    decreases fuel, 0, |tasks|
  {
    if tasks == [] then Outcome(w, None)
    else if fuel == 0 then Outcome(w, Some(ChainTooDeep(tasks[0])))
    else
      var o := RunTaskSpec(e, tasks[0], needs, [], w, fuel - 1);
      if o.err.Some? then o else ChainSpec(e, tasks[1..], needs, o.world, fuel)
  }

  /** One chained task: once it has run to `o`, the chain is `o` on failure and goes on from `o`'s world otherwise. */
  lemma ChainStep(e: Engine, tasks: seq<string>, needs: seq<string>, w: World, fuel: nat, o: Outcome)
    requires tasks != [] && fuel > 0 && o == RunTaskSpec(e, tasks[0], needs, [], w, fuel - 1)
    ensures o.err.Some? ==> ChainSpec(e, tasks, needs, w, fuel) == o
    ensures o.err.None? ==> ChainSpec(e, tasks, needs, w, fuel) == ChainSpec(e, tasks[1..], needs, o.world, fuel)
  {
  }

  /** `call($method_name, $task, ...)`: one mandatory call between preflight and postflight. */
  function CallSpec(e: Engine, methodName: string, task: string, needs: seq<string>, w: World): Outcome
  {
    match Resolve(e.methods, w.cache, methodName)
    case None => Outcome(w, Some(MethodNotFound(methodName)))
    case Some(h) =>
      var w1 := w.(cache := Remember(e.methods, w.cache, methodName));
      var o1 := VisitSpec(e, PreflightHook, task, needs, w1);
      if o1.err.Some? then o1 else
      var o2 := CallImplSpec(e, h, task, needs, o1.world, false);
      if o2.err.Some? then o2 else
      VisitSpec(e, PostflightHook, task, needs, o2.world)
  }

  // ---------------------------------------------------------------------------
  // The imperative registry and dispatcher.

  class MethodFactory {
    var methods: seq<Handler>
    var lookupCache: map<string, Handler>
    /** The log of handler operations called so far. */
    var calls: seq<Invocation>
    const perform: Performer

    /** The registry and the performer, as the specification functions see them. */
    function Setup(): Engine
      reads this
    {
      Engine(methods, perform)
    }

    function WorldOf(ctx: TaskContext): World
      reads this, ctx
    {
      World(lookupCache, calls, ctx.Snapshot())
    }

    constructor (perform: Performer)
      ensures methods == [] && lookupCache == map[] && calls == [] && this.perform == perform
    {
      methods := [];
      lookupCache := map[];
      calls := [];
      this.perform := perform;
    }

    /** `addMethod` */
    method AddMethod(h: Handler)
      modifies this`methods
      ensures methods == Registered(old(methods), h)
    {
      methods := Registered(methods, h);
    }

    /** `getMethod`: memoized first-supporting lookup; None is MethodNotFoundException. */
    method GetMethod(n: string) returns (r: Option<Handler>)
      modifies this`lookupCache
      ensures r == Resolve(methods, old(lookupCache), n)
      ensures lookupCache == Remember(methods, old(lookupCache), n)
    {
      if n in lookupCache {
        return Some(lookupCache[n]);
      }
      var i := 0;
      while i < |methods|
        invariant 0 <= i <= |methods|
        invariant FirstSupporting(methods[i..], n) == FirstSupporting(methods, n)
        invariant lookupCache == old(lookupCache)
      {
        assert methods[i..][1..] == methods[i + 1..];
        if methods[i].Supports(n) {
          lookupCache := lookupCache[n := methods[i]];
          return Some(methods[i]);
        }
        i := i + 1;
      }
      return None;
    }

    /** `getSubset` */
    method GetSubset(names: seq<string>) returns (r: Option<seq<Handler>>)
      modifies this`lookupCache
      ensures r == Subset(methods, old(lookupCache), names)
      ensures forall m :: Resolve(methods, lookupCache, m) == Resolve(methods, old(lookupCache), m)
    {
      var acc: seq<Handler> := [];
      var i := 0;
      while i < |names|
        invariant 0 <= i <= |names|
        invariant forall m :: Resolve(methods, lookupCache, m) == Resolve(methods, old(lookupCache), m)
        invariant |acc| == i
        invariant forall k :: 0 <= k < i ==> Some(acc[k]) == Resolve(methods, old(lookupCache), names[k])
      {
        RememberKeepsResolution(methods, lookupCache, names[i]);
        var h := GetMethod(names[i]);
        if h.None? {
          return None;
        }
        acc := acc + [h.value];
        i := i + 1;
      }
      var s := Subset(methods, old(lookupCache), names);
      assert s.Some? && |s.value| == |acc|;
      assert s.value == acc;
      return Some(acc);
    }

    /** Runs one handler operation on `ctx` and logs it. */
    method Perform(inv: Invocation, ctx: TaskContext) returns (raised: Option<Error>)
      modifies this`calls, ctx`vars, ctx`results
      ensures calls == old(calls) + [inv]
      ensures ctx.Snapshot() == perform(inv, old(ctx.Snapshot())).ctx
      ensures raised == perform(inv, old(ctx.Snapshot())).raised
    {
      var s := perform(inv, ctx.Snapshot());
      ctx.Restore(s.ctx);
      calls := calls + [inv];
      raised := s.raised;
    }

    /** `preflight($step, ...)`: the hook on every need, in order (also the fallback loop). */
    method Preflight(hook: Hook, task: string, needs: seq<string>, ctx: TaskContext) returns (err: Option<Error>)
      modifies this`lookupCache, this`calls, ctx`vars, ctx`results
      ensures Outcome(WorldOf(ctx), err) == VisitSpec(Setup(), hook, task, needs, old(WorldOf(ctx)))
    {
      var i := 0;
      while i < |needs|
        invariant 0 <= i <= |needs|
        invariant VisitSpec(Setup(), hook, task, needs[i..], WorldOf(ctx))
               == VisitSpec(Setup(), hook, task, needs, old(WorldOf(ctx)))
      {
        assert needs[i..][1..] == needs[i + 1..];
        var h := GetMethod(needs[i]);
        if h.None? {
          return Some(MethodNotFound(needs[i]));
        }
        var raised := Perform(Invocation(hook, h.value.name, h.value.name, task), ctx);
        if raised.Some? {
          return raised;
        }
        i := i + 1;
      }
      return None;
    }

    /** `callImpl`: run the task on a clone, under the override, and merge results back. */
    method CallImpl(h: Handler, task: string, needs: seq<string>, inCtx: TaskContext, optional: bool)
      returns (err: Option<Error>)
      modifies this`lookupCache, this`calls, inCtx`results
      ensures Outcome(WorldOf(inCtx), err) == CallImplSpec(Setup(), h, task, needs, old(WorldOf(inCtx)), optional)
    {
      var ctx := new TaskContext.Clone(inCtx);
      var overrides: map<string, string> := map[];
      var i := 0;
      while i < |needs|
        invariant 0 <= i <= |needs|
        invariant ScanSpec(Setup(), needs[i..], lookupCache, overrides)
               == ScanSpec(Setup(), needs, old(lookupCache), map[])
        invariant calls == old(calls) && inCtx.results == old(inCtx.results)
        invariant ctx.vars == inCtx.vars && ctx.results == inCtx.results
      {
        assert needs[i..][1..] == needs[i + 1..];
        var m := GetMethod(needs[i]);
        if m.None? {
          return Some(MethodNotFound(needs[i]));
        }
        if m.value.Overrides() {
          overrides := overrides[m.value.overrides.value := needs[i]];
        }
        i := i + 1;
      }
      var name := h.name;
      ctx.Set(CurrentMethod, Str(name));
      var impl := h;
      if name in overrides {
        var sub := GetMethod(overrides[name]);
        if sub.None? {
          return Some(MethodNotFound(overrides[name]));
        }
        impl := sub.value;
      }
      if impl.Has(task) {
        var raised := Perform(Invocation(TaskHook, impl.name, name, task), ctx);
        if raised.Some? {
          return raised;
        }
        inCtx.MergeResults(ctx);
        return None;
      } else if !optional {
        return Some(TaskNotFoundInMethod(task, name));
      }
      return None;
    }

    /** `runTaskImpl`: call the task where it exists, else fall back if allowed. */
    method RunTaskImpl(task: string, needs: seq<string>, ctx: TaskContext, fallbackAllowed: bool)
      returns (err: Option<Error>)
      modifies this`lookupCache, this`calls, ctx`vars, ctx`results
      ensures Outcome(WorldOf(ctx), err) == TaskImplSpec(Setup(), task, needs, old(WorldOf(ctx)), fallbackAllowed)
    {
      var fired := false;
      var i := 0;
      while i < |needs|
        invariant 0 <= i <= |needs|
        invariant CallEachSpec(Setup(), task, needs[i..], needs, WorldOf(ctx), fired)
               == CallEachSpec(Setup(), task, needs, needs, old(WorldOf(ctx)), false)
      {
        assert needs[i..][1..] == needs[i + 1..];
        var h := GetMethod(needs[i]);
        if h.None? {
          return Some(MethodNotFound(needs[i]));
        }
        if h.value.Has(task) {
          fired := true;
          err := CallImpl(h.value, task, needs, ctx, true);
          if err.Some? {
            return;
          }
        }
        i := i + 1;
      }
      if !fired && fallbackAllowed {
        err := Preflight(FallbackHook, task, needs, ctx);
      } else {
        err := None;
      }
    }

    /** `runTask`: the whole lifecycle of one task, chained tasks included. */
    method RunTask(task: string, needs: seq<string>, ctx: TaskContext, next: seq<string>, fuel: nat)
      returns (err: Option<Error>)
      modifies this`lookupCache, this`calls, ctx`vars, ctx`results
      ensures Outcome(WorldOf(ctx), err) == RunTaskSpec(Setup(), task, needs, next, old(WorldOf(ctx)), fuel)
      decreases fuel, 1, 0
    {
      ctx.SetResult(RunNextTasks, StrList(next));
      err := Preflight(PreflightHook, task, needs, ctx);
      if err.Some? {
        return;
      }
      err := RunTaskImpl(task + "Prepare", needs, ctx, false);
      if err.Some? {
        return;
      }
      err := RunTaskImpl(task, needs, ctx, true);
      if err.Some? {
        return;
      }
      var chained := Strings(ctx.GetResult(RunNextTasks, List([])));
      err := RunChain(chained, needs, ctx, fuel);
      if err.Some? {
        return;
      }
      err := RunTaskImpl(task + "Finished", needs, ctx, false);
      if err.Some? {
        return;
      }
      err := Preflight(PostflightHook, task, needs, ctx);
    }

    /** The loop of `runTask` over the chained tasks, each run with no tasks of its own to chain. */
    method RunChain(chained: seq<string>, needs: seq<string>, ctx: TaskContext, fuel: nat)
      returns (err: Option<Error>)
      modifies this`lookupCache, this`calls, ctx`vars, ctx`results
      ensures Outcome(WorldOf(ctx), err) == ChainSpec(Setup(), chained, needs, old(WorldOf(ctx)), fuel)
      decreases fuel, 0, 0
    {
      err := None;
      var i := 0;
      while i < |chained|
        invariant 0 <= i <= |chained| && err.None?
        invariant ChainSpec(Setup(), chained[i..], needs, WorldOf(ctx), fuel)
               == ChainSpec(Setup(), chained, needs, old(WorldOf(ctx)), fuel)
      {
        ghost var before := WorldOf(ctx);
        assert chained[i..][1..] == chained[i + 1..];
        if fuel == 0 {
          return Some(ChainTooDeep(chained[i]));
        }
        err := RunTask(chained[i], needs, ctx, [], fuel - 1);
        ChainStep(Setup(), chained[i..], needs, before, fuel, Outcome(WorldOf(ctx), err));
        if err.Some? {
          return;
        }
        i := i + 1;
      }
      assert chained[i..] == [];
    }

    /** `call`: preflight and postflight on every need around one mandatory call. */
    method Call(methodName: string, task: string, needs: seq<string>, ctx: TaskContext)
      returns (err: Option<Error>)
      modifies this`lookupCache, this`calls, ctx`vars, ctx`results
      ensures Outcome(WorldOf(ctx), err) == CallSpec(Setup(), methodName, task, needs, old(WorldOf(ctx)))
    {
      var h := GetMethod(methodName);
      if h.None? {
        return Some(MethodNotFound(methodName));
      }
      err := Preflight(PreflightHook, task, needs, ctx);
      if err.Some? {
        return;
      }
      err := CallImpl(h.value, task, needs, ctx, false);
      if err.Some? {
        return;
      }
      err := Preflight(PostflightHook, task, needs, ctx);
    }
  }
}
