/**
 * What the dispatcher promises, proved about its specification functions:
 * hooks visit every need once and in order, fallback runs exactly when no need
 * claims the task, the phases of a task run in their fixed order, chained
 * tasks run in order and reseeded, overrides let the later need win, a
 * handler call never touches the caller's variables, and only the mandatory
 * path of `call()` turns a missing task into an error.
 */
module DispatchProperties {
  import opened Common
  import opened Context
  import opened Dispatch

  /** `w'` continues `w`: the call log only grew and every name resolves as before. */
  ghost predicate Extends(methods: seq<Handler>, w: World, w': World)
  {
    w.calls <= w'.calls &&
    forall m :: Resolve(methods, w'.cache, m) == Resolve(methods, w.cache, m)
  }

  /** The call a hook makes on the handler of need `n`. */
  function HookCall(r: Option<Handler>, hook: Hook, task: string): Invocation
  {
    match r
    case Some(h) => Invocation(hook, h.name, h.name, task)
    case None => Invocation(hook, "", "", task)
  }

  /** `log` is the hook called once on every need, in the order of `needs`. */
  ghost predicate VisitsAll(methods: seq<Handler>, cache: map<string, Handler>, hook: Hook, task: string,
                            needs: seq<string>, log: seq<Invocation>)
  {
    |log| == |needs| &&
    forall k :: 0 <= k < |needs| ==>
      Resolve(methods, cache, needs[k]).Some? && log[k] == HookCall(Resolve(methods, cache, needs[k]), hook, task)
  }

  lemma VisitsAllTransfer(methods: seq<Handler>, c1: map<string, Handler>, c2: map<string, Handler>, hook: Hook,
                          task: string, needs: seq<string>, log: seq<Invocation>)
    requires forall m :: Resolve(methods, c1, m) == Resolve(methods, c2, m)
    requires VisitsAll(methods, c1, hook, task, needs, log)
    ensures VisitsAll(methods, c2, hook, task, needs, log)
  {
  }

  /** A need whose resolved handler implements the task. */
  ghost predicate Claims(methods: seq<Handler>, cache: map<string, Handler>, task: string, n: string)
  {
    Resolve(methods, cache, n).Some? && Resolve(methods, cache, n).value.Has(task)
  }

  /** A hook loop only appends to the call log and keeps every resolution. */
  lemma {:induction false} VisitExtends(e: Engine, hook: Hook, task: string, needs: seq<string>, w: World)
    ensures Extends(e.methods, w, VisitSpec(e, hook, task, needs, w).world)
    decreases |needs|
  {
    if needs != [] {
      RememberKeepsResolution(e.methods, w.cache, needs[0]);
      match Resolve(e.methods, w.cache, needs[0])
      case None =>
      case Some(h) =>
        var inv := Invocation(hook, h.name, h.name, task);
        var s := e.perform(inv, w.ctx);
        var w' := World(Remember(e.methods, w.cache, needs[0]), w.calls + [inv], s.ctx);
        if s.raised.None? {
          VisitExtends(e, hook, task, needs[1..], w');
        }
    }
  }

  /** `preflight`: on success, one hook call per need, in order. */
  lemma {:induction false} VisitLogsEachNeed(e: Engine, hook: Hook, task: string, needs: seq<string>, w: World)
    returns (seg: seq<Invocation>)
    requires VisitSpec(e, hook, task, needs, w).err.None?
    ensures VisitSpec(e, hook, task, needs, w).world.calls == w.calls + seg
    ensures VisitsAll(e.methods, w.cache, hook, task, needs, seg)
    decreases |needs|
  {
    if needs == [] {
      seg := [];
    } else {
      var h := Resolve(e.methods, w.cache, needs[0]).value;
      var inv := Invocation(hook, h.name, h.name, task);
      var s := e.perform(inv, w.ctx);
      var w' := World(Remember(e.methods, w.cache, needs[0]), w.calls + [inv], s.ctx);
      assert VisitSpec(e, hook, task, needs, w) == VisitSpec(e, hook, task, needs[1..], w');
      var rest := VisitLogsEachNeed(e, hook, task, needs[1..], w');
      seg := [inv] + rest;
      AppendCons(w.calls, inv, rest);
      VisitsAllCons(e.methods, w.cache, hook, task, needs, inv, rest);
    }
  }

  lemma VisitsAllCons(methods: seq<Handler>, cache: map<string, Handler>, hook: Hook,
                      task: string, needs: seq<string>, inv: Invocation, rest: seq<Invocation>)
    requires needs != [] && Resolve(methods, cache, needs[0]).Some?
    requires inv == HookCall(Resolve(methods, cache, needs[0]), hook, task)
    requires VisitsAll(methods, Remember(methods, cache, needs[0]), hook, task, needs[1..], rest)
    ensures VisitsAll(methods, cache, hook, task, needs, [inv] + rest)
  {
    RememberKeepsResolution(methods, cache, needs[0]);
    var seg := [inv] + rest;
    forall k | 0 < k < |needs|
      ensures Resolve(methods, cache, needs[k]).Some?
      ensures seg[k] == HookCall(Resolve(methods, cache, needs[k]), hook, task)
    {
      assert needs[k] == needs[1..][k - 1] && seg[k] == rest[k - 1];
    }
  }

  /** A hook loop that completed: its calls are the hook on every need, in order. */
  lemma VisitSegment(e: Engine, hook: Hook, task: string, needs: seq<string>, w: World) returns (seg: seq<Invocation>)
    requires VisitSpec(e, hook, task, needs, w).err.None?
    ensures var o := VisitSpec(e, hook, task, needs, w);
            o.world.calls == w.calls + seg && Extends(e.methods, w, o.world)
    ensures VisitsAll(e.methods, w.cache, hook, task, needs, seg)
  {
    VisitExtends(e, hook, task, needs, w);
    seg := VisitLogsEachNeed(e, hook, task, needs, w);
  }

  /** A handler overriding the name `x`. */
  predicate OverridesAs(r: Option<Handler>, x: string)
  {
    r.Some? && r.value.Overrides() && r.value.overrides.value == x
  }

  /** Need `j` overrides `x` and no later need does. */
  ghost predicate LastOverrider(methods: seq<Handler>, cache: map<string, Handler>, needs: seq<string>, x: string, j: int)
  {
    0 <= j < |needs| && OverridesAs(Resolve(methods, cache, needs[j]), x) &&
    forall j' :: j < j' < |needs| ==> !OverridesAs(Resolve(methods, cache, needs[j']), x)
  }

  lemma {:induction false} ScanKeepsResolution(e: Engine, needs: seq<string>, cache: map<string, Handler>, acc: map<string, string>)
    ensures forall m :: Resolve(e.methods, ScanSpec(e, needs, cache, acc).cache, m) == Resolve(e.methods, cache, m)
    decreases |needs|
  {
    if needs != [] {
      RememberKeepsResolution(e.methods, cache, needs[0]);
      match Resolve(e.methods, cache, needs[0])
      case None =>
      case Some(h) =>
        var acc' := if h.Overrides() then acc[h.overrides.value := needs[0]] else acc;
        ScanKeepsResolution(e, needs[1..], Remember(e.methods, cache, needs[0]), acc');
    }
  }

  lemma {:induction false} ScanResolvesAll(e: Engine, needs: seq<string>, cache: map<string, Handler>, acc: map<string, string>)
    requires ScanSpec(e, needs, cache, acc).err.None?
    ensures forall k :: 0 <= k < |needs| ==> Resolve(e.methods, cache, needs[k]).Some?
    decreases |needs|
  {
    if needs != [] {
      RememberKeepsResolution(e.methods, cache, needs[0]);
      var h := Resolve(e.methods, cache, needs[0]).value;
      var acc' := if h.Overrides() then acc[h.overrides.value := needs[0]] else acc;
      ScanResolvesAll(e, needs[1..], Remember(e.methods, cache, needs[0]), acc');
      forall k | 0 < k < |needs|
        ensures Resolve(e.methods, cache, needs[k]).Some?
      {
        assert needs[k] == needs[1..][k - 1];
      }
    }
  }

  /** The override map of `callImpl` has `x` iff some need overrides `x` (or the seed has it). */
  lemma {:induction false} ScanOverriddenIff(e: Engine, needs: seq<string>, cache: map<string, Handler>, acc: map<string, string>, x: string)
    requires ScanSpec(e, needs, cache, acc).err.None?
    ensures var ov := ScanSpec(e, needs, cache, acc).overrides;
            x in ov <==> x in acc || exists j :: 0 <= j < |needs| && OverridesAs(Resolve(e.methods, cache, needs[j]), x)
    decreases |needs|
  {
    if needs != [] {
      RememberKeepsResolution(e.methods, cache, needs[0]);
      var h := Resolve(e.methods, cache, needs[0]).value;
      var acc' := if h.Overrides() then acc[h.overrides.value := needs[0]] else acc;
      var cache' := Remember(e.methods, cache, needs[0]);
      var rest := needs[1..];
      ScanOverriddenIff(e, rest, cache', acc', x);
      if exists j :: 0 <= j < |needs| && OverridesAs(Resolve(e.methods, cache, needs[j]), x) {
        var j :| 0 <= j < |needs| && OverridesAs(Resolve(e.methods, cache, needs[j]), x);
        if j > 0 {
          assert needs[j] == rest[j - 1];
        }
      }
      if exists j :: 0 <= j < |rest| && OverridesAs(Resolve(e.methods, cache', rest[j]), x) {
        var j :| 0 <= j < |rest| && OverridesAs(Resolve(e.methods, cache', rest[j]), x);
        assert needs[j + 1] == rest[j];
      }
    }
  }

  /**
   * The override map of `callImpl`, at one name `x`: it maps `x` to the LAST
   * need overriding `x`, or keeps the seed's entry when no need does.
   */
  lemma {:induction false} ScanLastWinsAt(e: Engine, needs: seq<string>, cache: map<string, Handler>, acc: map<string, string>, x: string)
    requires ScanSpec(e, needs, cache, acc).err.None?
    ensures var ov := ScanSpec(e, needs, cache, acc).overrides;
            x in ov ==>
              (exists j :: LastOverrider(e.methods, cache, needs, x, j) && ov[x] == needs[j]) ||
              (x in acc && ov[x] == acc[x] &&
               forall j :: 0 <= j < |needs| ==> !OverridesAs(Resolve(e.methods, cache, needs[j]), x))
    decreases |needs|
  {
    if needs != [] {
      RememberKeepsResolution(e.methods, cache, needs[0]);
      var h := Resolve(e.methods, cache, needs[0]).value;
      var acc' := if h.Overrides() then acc[h.overrides.value := needs[0]] else acc;
      var cache' := Remember(e.methods, cache, needs[0]);
      var rest := needs[1..];
      ScanLastWinsAt(e, rest, cache', acc', x);
      var ov := ScanSpec(e, needs, cache, acc).overrides;
      assert ov == ScanSpec(e, rest, cache', acc').overrides;
      if x in ov {
        if j :| LastOverrider(e.methods, cache', rest, x, j) && ov[x] == rest[j] {
          assert needs[j + 1] == rest[j];
          assert LastOverrider(e.methods, cache, needs, x, j + 1) by {
            forall j' | j + 1 < j' < |needs|
              ensures !OverridesAs(Resolve(e.methods, cache, needs[j']), x)
            {
              assert needs[j'] == rest[j' - 1];
            }
          }
        } else if OverridesAs(Some(h), x) {
          assert LastOverrider(e.methods, cache, needs, x, 0) by {
            forall j' | 0 < j' < |needs|
              ensures !OverridesAs(Resolve(e.methods, cache, needs[j']), x)
            {
              assert needs[j'] == rest[j' - 1];
            }
          }
        } else {
          forall j | 0 < j < |needs|
            ensures !OverridesAs(Resolve(e.methods, cache, needs[j]), x)
          {
            assert needs[j] == rest[j - 1];
          }
        }
      }
    }
  }

  /**
   * `callImpl` makes at most one handler call, a task call attributed to the
   * original handler, and only appends to the log.
   */
  lemma CallImplLogsOneCall(e: Engine, h: Handler, task: string, needs: seq<string>, w: World, optional: bool)
    ensures var o := CallImplSpec(e, h, task, needs, w, optional);
            Extends(e.methods, w, o.world) && |o.world.calls| <= |w.calls| + 1
    ensures var o := CallImplSpec(e, h, task, needs, w, optional);
            |o.world.calls| == |w.calls| + 1 ==>
              o.world.calls[|w.calls|].hook == TaskHook && o.world.calls[|w.calls|].task == task &&
              o.world.calls[|w.calls|].attributedTo == h.name
  {
    var scan := ScanSpec(e, needs, w.cache, map[]);
    ScanKeepsResolution(e, needs, w.cache, map[]);
    if scan.err.None? && h.name in scan.overrides {
      RememberKeepsResolution(e.methods, scan.cache, scan.overrides[h.name]);
    }
  }

  /**
   * `callImpl` isolation: the caller's variables never change; a call that
   * raised, or that did not invoke anything, leaves the caller's context as it
   * was; on the mandatory path success means the call was made.
   */
  lemma CallImplIsolation(e: Engine, h: Handler, task: string, needs: seq<string>, w: World, optional: bool)
    ensures var o := CallImplSpec(e, h, task, needs, w, optional);
            o.world.ctx.vars == w.ctx.vars
    ensures var o := CallImplSpec(e, h, task, needs, w, optional);
            o.err.Some? || |o.world.calls| == |w.calls| ==> o.world.ctx == w.ctx
    ensures var o := CallImplSpec(e, h, task, needs, w, optional);
            !optional && o.err.None? ==> |o.world.calls| == |w.calls| + 1
  {
  }

  /**
   * The one call `callImpl` makes runs the code of the last need overriding
   * the handler (the handler itself if none does).
   */
  lemma CallImplRunsLastOverride(e: Engine, h: Handler, task: string, needs: seq<string>, w: World, optional: bool)
    requires |CallImplSpec(e, h, task, needs, w, optional).world.calls| == |w.calls| + 1
    ensures var o := CallImplSpec(e, h, task, needs, w, optional);
            var inv := o.world.calls[|w.calls|];
            forall j :: LastOverrider(e.methods, w.cache, needs, h.name, j) ==>
              Resolve(e.methods, w.cache, needs[j]).Some? && inv.handler == Resolve(e.methods, w.cache, needs[j]).value.name
    ensures var o := CallImplSpec(e, h, task, needs, w, optional);
            var inv := o.world.calls[|w.calls|];
            (forall j :: 0 <= j < |needs| ==> !OverridesAs(Resolve(e.methods, w.cache, needs[j]), h.name)) ==>
              inv.handler == h.name
  {
    var scan := ScanSpec(e, needs, w.cache, map[]);
    ScanKeepsResolution(e, needs, w.cache, map[]);
    assert scan.err.None?;
    ScanOverriddenIff(e, needs, w.cache, map[], h.name);
    ScanLastWinsAt(e, needs, w.cache, map[], h.name);
    var o := CallImplSpec(e, h, task, needs, w, optional);
    var inv := o.world.calls[|w.calls|];
    if h.name in scan.overrides {
      RememberKeepsResolution(e.methods, scan.cache, scan.overrides[h.name]);
      var j0 :| LastOverrider(e.methods, w.cache, needs, h.name, j0) && scan.overrides[h.name] == needs[j0];
      forall j | LastOverrider(e.methods, w.cache, needs, h.name, j)
        ensures Resolve(e.methods, w.cache, needs[j]).Some? && inv.handler == Resolve(e.methods, w.cache, needs[j]).value.name
      {
        LastOverriderUnique(e.methods, w.cache, needs, h.name, j0, j);
      }
    }
  }

  /**
   * The one call `callImpl` makes runs on a clone whose `currentMethod` is the
   * original handler's name; what it raises is the outcome, and its results
   * are merged back only when it did not raise.
   */
  lemma CallImplRaisesOrMerges(e: Engine, h: Handler, task: string, needs: seq<string>, w: World, optional: bool)
    requires |CallImplSpec(e, h, task, needs, w, optional).world.calls| == |w.calls| + 1
    ensures var o := CallImplSpec(e, h, task, needs, w, optional);
            var inv := o.world.calls[|w.calls|];
            var s := e.perform(inv, CloneFor(w.ctx, h.name));
            o.err == s.raised && (o.err.None? ==> o.world.ctx.results == Merge(w.ctx.results, s.ctx.results))
  {
    assert ScanSpec(e, needs, w.cache, map[]).err.None?;
  }

  lemma LastOverriderUnique(methods: seq<Handler>, cache: map<string, Handler>, needs: seq<string>, x: string, j0: int, j1: int)
    requires LastOverrider(methods, cache, needs, x, j0) && LastOverrider(methods, cache, needs, x, j1)
    ensures j0 == j1
  {
  }

  /**
   * The optional and the mandatory paths of `callImpl` differ only when the
   * implementation lacks the task: then the mandatory path raises
   * TaskNotFoundInMethod and the optional path does nothing.
   */
  lemma OnlyMandatoryCallRaisesTaskNotFound(e: Engine, h: Handler, task: string, needs: seq<string>, w: World)
    ensures var scan := ScanSpec(e, needs, w.cache, map[]);
            var impl := Implementation(e, h, scan);
            !(scan.err.None? && impl.Some? && !impl.value.Has(task)) ==>
              CallImplSpec(e, h, task, needs, w, true) == CallImplSpec(e, h, task, needs, w, false)
    ensures var scan := ScanSpec(e, needs, w.cache, map[]);
            var impl := Implementation(e, h, scan);
            var opt := CallImplSpec(e, h, task, needs, w, true);
            var man := CallImplSpec(e, h, task, needs, w, false);
            scan.err.None? && impl.Some? && !impl.value.Has(task) ==>
              man.err == Some(TaskNotFoundInMethod(task, h.name)) && opt.err.None? &&
              opt.world == man.world && opt.world.calls == w.calls && opt.world.ctx == w.ctx
  {
  }

  /** Every call logged from position `from` on is the task hook of `task`. */
  predicate TaskCallsFrom(calls: seq<Invocation>, from: nat, task: string)
  {
    forall i :: from <= i < |calls| ==> calls[i].hook == TaskHook && calls[i].task == task
  }

  lemma TaskCallsJoin(a: seq<Invocation>, b: seq<Invocation>, from: nat, task: string)
    requires a <= b && TaskCallsFrom(a, from, task) && TaskCallsFrom(b, |a|, task)
    ensures TaskCallsFrom(b, from, task)
  {
    forall i | from <= i < |b|
      ensures b[i].hook == TaskHook && b[i].task == task
    {
      if i < |a| {
        assert b[i] == a[i];
      }
    }
  }

  /** The first loop of `runTaskImpl` only appends task calls to the log. */
  lemma {:induction false} CallEachLogs(e: Engine, task: string, rest: seq<string>, needs: seq<string>, w: World, fired: bool)
    ensures var c := CallEachSpec(e, task, rest, needs, w, fired);
            Extends(e.methods, w, c.outcome.world) && TaskCallsFrom(c.outcome.world.calls, |w.calls|, task)
    decreases |rest|
  {
    if rest != [] {
      RememberKeepsResolution(e.methods, w.cache, rest[0]);
      match Resolve(e.methods, w.cache, rest[0])
      case None =>
      case Some(h) =>
        var w1 := w.(cache := Remember(e.methods, w.cache, rest[0]));
        if h.Has(task) {
          CallImplLogsOneCall(e, h, task, needs, w1, true);
          var o := CallImplSpec(e, h, task, needs, w1, true);
          ExtendsTrans(e.methods, w, w1, o.world);
          assert TaskCallsFrom(o.world.calls, |w.calls|, task);
          if o.err.None? {
            CallEachLogs(e, task, rest[1..], needs, o.world, true);
            var last := CallEachSpec(e, task, rest[1..], needs, o.world, true).outcome.world;
            ExtendsTrans(e.methods, w, o.world, last);
            TaskCallsJoin(o.world.calls, last.calls, |w.calls|, task);
          }
        } else {
          CallEachLogs(e, task, rest[1..], needs, w1, fired);
        }
    }
  }

  /** The first loop of `runTaskImpl`, when it completes, resolved every need. */
  lemma {:induction false} CallEachResolves(e: Engine, task: string, rest: seq<string>, needs: seq<string>, w: World, fired: bool)
    ensures var c := CallEachSpec(e, task, rest, needs, w, fired);
            c.outcome.err.None? ==> forall k :: 0 <= k < |rest| ==> Resolve(e.methods, w.cache, rest[k]).Some?
    decreases |rest|
  {
    if rest != [] && Resolve(e.methods, w.cache, rest[0]).Some? {
      var h := Resolve(e.methods, w.cache, rest[0]).value;
      var w1 := w.(cache := Remember(e.methods, w.cache, rest[0]));
      var w2 := w1;
      if h.Has(task) {
        CallImplLogsOneCall(e, h, task, needs, w1, true);
        w2 := CallImplSpec(e, h, task, needs, w1, true).world;
      }
      var c := CallEachSpec(e, task, rest, needs, w, fired);
      if c.outcome.err.None? {
        assert c == CallEachSpec(e, task, rest[1..], needs, w2, h.Has(task) || fired);
        CallEachResolves(e, task, rest[1..], needs, w2, h.Has(task) || fired);
        RememberKeepsResolution(e.methods, w.cache, rest[0]);
        forall k | 0 < k < |rest|
          ensures Resolve(e.methods, w.cache, rest[k]).Some?
        {
          assert Resolve(e.methods, w2.cache, rest[1..][k - 1]).Some?;
        }
      }
    }
  }

  /** The first loop of `runTaskImpl`, when it completes, called something iff some need's handler implements the task. */
  lemma {:induction false} CallEachClaims(e: Engine, task: string, rest: seq<string>, needs: seq<string>, w: World, fired: bool)
    ensures var c := CallEachSpec(e, task, rest, needs, w, fired);
            c.outcome.err.None? ==>
              (c.fired <==> fired || exists k :: 0 <= k < |rest| && Claims(e.methods, w.cache, task, rest[k]))
    decreases |rest|
  {
    if rest != [] {
      match Resolve(e.methods, w.cache, rest[0])
      case None =>
      case Some(h) =>
        var w1 := w.(cache := Remember(e.methods, w.cache, rest[0]));
        if h.Has(task) {
          var o := CallImplSpec(e, h, task, needs, w1, true);
          if o.err.None? {
            CallEachClaims(e, task, rest[1..], needs, o.world, true);
            assert Claims(e.methods, w.cache, task, rest[0]);
          }
        } else {
          CallEachClaims(e, task, rest[1..], needs, w1, fired);
          var c := CallEachSpec(e, task, rest[1..], needs, w1, fired);
          if c.outcome.err.None? && exists k :: 0 <= k < |rest| && Claims(e.methods, w.cache, task, rest[k]) {
            var k :| 0 <= k < |rest| && Claims(e.methods, w.cache, task, rest[k]);
            RememberKeepsResolution(e.methods, w.cache, rest[0]);
            assert k > 0 && Claims(e.methods, w1.cache, task, rest[1..][k - 1]);
          }
        }
    }
  }

  /** The first loop of `runTaskImpl`, when it called nothing, left the log and the context alone. */
  lemma {:induction false} CallEachQuiet(e: Engine, task: string, rest: seq<string>, needs: seq<string>, w: World, fired: bool)
    ensures var c := CallEachSpec(e, task, rest, needs, w, fired);
            c.outcome.err.None? && !c.fired ==> c.outcome.world.calls == w.calls && c.outcome.world.ctx == w.ctx
    decreases |rest|
  {
    if rest != [] {
      match Resolve(e.methods, w.cache, rest[0])
      case None =>
      case Some(h) =>
        var w1 := w.(cache := Remember(e.methods, w.cache, rest[0]));
        if h.Has(task) {
          var o := CallImplSpec(e, h, task, needs, w1, true);
          if o.err.None? {
            CallEachClaims(e, task, rest[1..], needs, o.world, true);
          }
        } else {
          CallEachQuiet(e, task, rest[1..], needs, w1, fired);
        }
    }
  }

  /** The handler whose code runs for `h`: the last need overriding `h`'s name, or `h` itself. */
  ghost function Implementer(methods: seq<Handler>, cache: map<string, Handler>, needs: seq<string>, h: Handler): Handler
  {
    if exists j :: LastOverrider(methods, cache, needs, h.name, j) then
      var j :| LastOverrider(methods, cache, needs, h.name, j);
      Resolve(methods, cache, needs[j]).value
    else h
  }

  lemma LastOverriderTransfer(methods: seq<Handler>, c1: map<string, Handler>, c2: map<string, Handler>,
                              needs: seq<string>, x: string, j: int)
    requires forall m :: Resolve(methods, c1, m) == Resolve(methods, c2, m)
    ensures LastOverrider(methods, c1, needs, x, j) <==> LastOverrider(methods, c2, needs, x, j)
  {
    if 0 <= j < |needs| {
      assert Resolve(methods, c1, needs[j]) == Resolve(methods, c2, needs[j]);
      forall j' | j < j' < |needs|
        ensures Resolve(methods, c1, needs[j']) == Resolve(methods, c2, needs[j'])
      {
      }
    }
  }

  lemma ImplementerTransfer(methods: seq<Handler>, c1: map<string, Handler>, c2: map<string, Handler>,
                            needs: seq<string>, h: Handler)
    requires forall m :: Resolve(methods, c1, m) == Resolve(methods, c2, m)
    ensures Implementer(methods, c1, needs, h) == Implementer(methods, c2, needs, h)
  {
    if j1 :| LastOverrider(methods, c1, needs, h.name, j1) {
      LastOverriderTransfer(methods, c1, c2, needs, h.name, j1);
      var k1 :| LastOverrider(methods, c1, needs, h.name, k1) && Implementer(methods, c1, needs, h) == Resolve(methods, c1, needs[k1]).value;
      var k2 :| LastOverrider(methods, c2, needs, h.name, k2) && Implementer(methods, c2, needs, h) == Resolve(methods, c2, needs[k2]).value;
      LastOverriderTransfer(methods, c1, c2, needs, h.name, k2);
      LastOverriderUnique(methods, c1, needs, h.name, k1, k2);
      assert Resolve(methods, c1, needs[k1]) == Resolve(methods, c2, needs[k1]);
    } else {
      forall j | LastOverrider(methods, c2, needs, h.name, j) ensures false {
        LastOverriderTransfer(methods, c1, c2, needs, h.name, j);
      }
    }
  }

  /**
   * The call the first loop of `runTaskImpl` makes for need `n`: none unless
   * `n`'s handler implements the task; otherwise the task call attributed to
   * that handler and run by its implementer, or none when the implementer
   * lacks the task (`callImpl` is optional there).
   */
  ghost function ClaimCall(methods: seq<Handler>, cache: map<string, Handler>, needs: seq<string>, task: string, n: string)
    : (r: seq<Invocation>)
    ensures !Claims(methods, cache, task, n) ==> r == []
    ensures |r| <= 1 && forall i :: 0 <= i < |r| ==>
              r[i].hook == TaskHook && r[i].task == task && r[i].attributedTo == Resolve(methods, cache, n).value.name
    ensures Claims(methods, cache, task, n) &&
            (forall j :: 0 <= j < |needs| ==> !OverridesAs(Resolve(methods, cache, needs[j]), Resolve(methods, cache, n).value.name)) ==>
              r == [Invocation(TaskHook, Resolve(methods, cache, n).value.name, Resolve(methods, cache, n).value.name, task)]
  {
    if !Claims(methods, cache, task, n) then []
    else
      var h := Resolve(methods, cache, n).value;
      var impl := Implementer(methods, cache, needs, h);
      if impl.Has(task) then [Invocation(TaskHook, impl.name, h.name, task)] else []
  }

  /** The calls of the first loop of `runTaskImpl` over `rest`: each need's claim call, in order. */
  ghost function ClaimCalls(methods: seq<Handler>, cache: map<string, Handler>, needs: seq<string>, task: string,
                            rest: seq<string>): seq<Invocation>
    decreases |rest|
  {
    if rest == [] then [] else ClaimCall(methods, cache, needs, task, rest[0]) + ClaimCalls(methods, cache, needs, task, rest[1..])
  }

  lemma {:induction false} ClaimCallsTransfer(methods: seq<Handler>, c1: map<string, Handler>, c2: map<string, Handler>,
                                              needs: seq<string>, task: string, rest: seq<string>)
    requires forall m :: Resolve(methods, c1, m) == Resolve(methods, c2, m)
    ensures ClaimCalls(methods, c1, needs, task, rest) == ClaimCalls(methods, c2, needs, task, rest)
    decreases |rest|
  {
    if rest != [] {
      if Claims(methods, c1, task, rest[0]) {
        ImplementerTransfer(methods, c1, c2, needs, Resolve(methods, c1, rest[0]).value);
      }
      ClaimCallsTransfer(methods, c1, c2, needs, task, rest[1..]);
    }
  }

  /** Without an error, `callImpl` on the optional path adds exactly the claim call of a claiming need. */
  lemma CallImplMakesClaimCall(e: Engine, n: string, task: string, needs: seq<string>, w: World)
    requires Claims(e.methods, w.cache, task, n)
    requires CallImplSpec(e, Resolve(e.methods, w.cache, n).value, task, needs, w, true).err.None?
    ensures CallImplSpec(e, Resolve(e.methods, w.cache, n).value, task, needs, w, true).world.calls ==
              w.calls + ClaimCall(e.methods, w.cache, needs, task, n)
  {
    var h := Resolve(e.methods, w.cache, n).value;
    var scan := ScanSpec(e, needs, w.cache, map[]);
    assert scan.err.None?;
    ScanKeepsResolution(e, needs, w.cache, map[]);
    ScanOverriddenIff(e, needs, w.cache, map[], h.name);
    ScanLastWinsAt(e, needs, w.cache, map[], h.name);
    var impl := Implementer(e.methods, w.cache, needs, h);
    if h.name in scan.overrides {
      var j0 :| LastOverrider(e.methods, w.cache, needs, h.name, j0) && scan.overrides[h.name] == needs[j0];
      var j :| LastOverrider(e.methods, w.cache, needs, h.name, j) && impl == Resolve(e.methods, w.cache, needs[j]).value;
      LastOverriderUnique(e.methods, w.cache, needs, h.name, j0, j);
      assert Implementation(e, h, scan) == Some(impl);
    } else {
      assert impl == h;
    }
  }

  /**
   * The first loop of `runTaskImpl`, when it completes, adds exactly the claim
   * calls of the needs, need by need in order (a need listed twice is called twice).
   */
  lemma {:induction false} CallEachCallsEachClaim(e: Engine, task: string, rest: seq<string>, needs: seq<string>,
                                                  w: World, fired: bool)
    ensures var c := CallEachSpec(e, task, rest, needs, w, fired);
            c.outcome.err.None? ==> c.outcome.world.calls == w.calls + ClaimCalls(e.methods, w.cache, needs, task, rest)
    decreases |rest|
  {
    var c := CallEachSpec(e, task, rest, needs, w, fired);
    if rest != [] && c.outcome.err.None? {
      var h := Resolve(e.methods, w.cache, rest[0]).value;
      var w1 := w.(cache := Remember(e.methods, w.cache, rest[0]));
      RememberKeepsResolution(e.methods, w.cache, rest[0]);
      var tail := ClaimCalls(e.methods, w.cache, needs, task, rest[1..]);
      if h.Has(task) {
        var o := CallImplSpec(e, h, task, needs, w1, true);
        assert Claims(e.methods, w1.cache, task, rest[0]);
        CallImplMakesClaimCall(e, rest[0], task, needs, w1);
        CallImplLogsOneCall(e, h, task, needs, w1, true);
        CallEachCallsEachClaim(e, task, rest[1..], needs, o.world, true);
        ClaimCallsTransfer(e.methods, o.world.cache, w.cache, needs, task, rest[1..]);
        ImplementerTransfer(e.methods, w1.cache, w.cache, needs, h);
        assert ClaimCall(e.methods, w1.cache, needs, task, rest[0]) == ClaimCall(e.methods, w.cache, needs, task, rest[0]);
        AppendAssoc(w.calls, ClaimCall(e.methods, w.cache, needs, task, rest[0]), tail);
      } else {
        CallEachCallsEachClaim(e, task, rest[1..], needs, w1, fired);
        ClaimCallsTransfer(e.methods, w1.cache, w.cache, needs, task, rest[1..]);
        assert ClaimCall(e.methods, w.cache, needs, task, rest[0]) == [];
      }
    }
  }

  /** `runTaskImpl` only appends to the log and keeps every resolution. */
  lemma TaskImplExtends(e: Engine, task: string, needs: seq<string>, w: World, allowed: bool)
    ensures Extends(e.methods, w, TaskImplSpec(e, task, needs, w, allowed).world)
  {
    CallEachLogs(e, task, needs, needs, w, false);
    var c := CallEachSpec(e, task, needs, needs, w, false);
    if c.outcome.err.None? && !c.fired && allowed {
      VisitExtends(e, FallbackHook, task, needs, c.outcome.world);
      ExtendsTrans(e.methods, w, c.outcome.world, VisitSpec(e, FallbackHook, task, needs, c.outcome.world).world);
    }
  }

  /**
   * `runTaskImpl`: fallback is called on every need, in order, iff fallback is
   * allowed and no need's handler implements the task; otherwise every call
   * made is the task itself.
   */
  lemma FallbackIffUnclaimed(e: Engine, task: string, needs: seq<string>, w: World, allowed: bool)
    ensures var o := TaskImplSpec(e, task, needs, w, allowed);
            forall i :: |w.calls| <= i < |o.world.calls| ==>
              o.world.calls[i].task == task &&
              (o.world.calls[i].hook == TaskHook || (allowed && o.world.calls[i].hook == FallbackHook))
    ensures var o := TaskImplSpec(e, task, needs, w, allowed);
            o.err.None? && allowed && (forall k :: 0 <= k < |needs| ==> !Claims(e.methods, w.cache, task, needs[k])) ==>
              w.calls <= o.world.calls && VisitsAll(e.methods, w.cache, FallbackHook, task, needs, o.world.calls[|w.calls|..])
    ensures var o := TaskImplSpec(e, task, needs, w, allowed);
            o.err.None? && !(allowed && forall k :: 0 <= k < |needs| ==> !Claims(e.methods, w.cache, task, needs[k])) ==>
              forall i :: |w.calls| <= i < |o.world.calls| ==> o.world.calls[i].hook == TaskHook
    ensures var o := TaskImplSpec(e, task, needs, w, allowed);
            o.err.None? && !(allowed && forall k :: 0 <= k < |needs| ==> !Claims(e.methods, w.cache, task, needs[k])) ==>
              o.world.calls == w.calls + ClaimCalls(e.methods, w.cache, needs, task, needs)
  {
    CallEachCallsEachClaim(e, task, needs, needs, w, false);
    CallEachLogs(e, task, needs, needs, w, false);
    CallEachClaims(e, task, needs, needs, w, false);
    CallEachQuiet(e, task, needs, needs, w, false);
    var c := CallEachSpec(e, task, needs, needs, w, false);
    if c.outcome.err.None? && !c.fired && allowed {
      VisitExtends(e, FallbackHook, task, needs, c.outcome.world);
      var o := VisitSpec(e, FallbackHook, task, needs, c.outcome.world);
      if o.err.None? {
        var seg := VisitLogsEachNeed(e, FallbackHook, task, needs, c.outcome.world);
        assert o.world.calls[|w.calls|..] == seg;
        VisitsAllTransfer(e.methods, c.outcome.world.cache, w.cache, FallbackHook, task, needs, seg);
      }
      forall i | |w.calls| <= i < |o.world.calls|
        ensures o.world.calls[i].task == task && o.world.calls[i].hook == FallbackHook
      {
        VisitLogsHookOnly(e, FallbackHook, task, needs, c.outcome.world, i);
      }
    }
  }

  /** A `runTaskImpl` that completed: the calls it added, all of them the task (or its fallback). */
  lemma TaskImplSegment(e: Engine, task: string, needs: seq<string>, w: World, allowed: bool) returns (seg: seq<Invocation>)
    requires TaskImplSpec(e, task, needs, w, allowed).err.None?
    ensures var o := TaskImplSpec(e, task, needs, w, allowed);
            o.world.calls == w.calls + seg && Extends(e.methods, w, o.world)
    ensures forall i :: 0 <= i < |seg| ==>
              seg[i].task == task && (seg[i].hook == TaskHook || (allowed && seg[i].hook == FallbackHook))
  {
    var o := TaskImplSpec(e, task, needs, w, allowed);
    TaskImplExtends(e, task, needs, w, allowed);
    FallbackIffUnclaimed(e, task, needs, w, allowed);
    seg := o.world.calls[|w.calls|..];
    SplitPrefix(w.calls, o.world.calls);
    forall i | 0 <= i < |seg|
      ensures seg[i].task == task && (seg[i].hook == TaskHook || (allowed && seg[i].hook == FallbackHook))
    {
      assert seg[i] == o.world.calls[|w.calls| + i];
    }
  }

  /**
   * A `runTaskImpl` that completed adds, when some need claims the task or
   * fallback is not allowed, the claim calls of the needs in order; otherwise
   * the fallback on every need in order.
   */
  lemma TaskImplCalls(e: Engine, task: string, needs: seq<string>, w: World, allowed: bool) returns (seg: seq<Invocation>)
    requires TaskImplSpec(e, task, needs, w, allowed).err.None?
    ensures TaskImplSpec(e, task, needs, w, allowed).world.calls == w.calls + seg
    ensures !(allowed && forall k :: 0 <= k < |needs| ==> !Claims(e.methods, w.cache, task, needs[k])) ==>
              seg == ClaimCalls(e.methods, w.cache, needs, task, needs)
    ensures (allowed && forall k :: 0 <= k < |needs| ==> !Claims(e.methods, w.cache, task, needs[k])) ==>
              VisitsAll(e.methods, w.cache, FallbackHook, task, needs, seg)
  {
    var o := TaskImplSpec(e, task, needs, w, allowed);
    TaskImplExtends(e, task, needs, w, allowed);
    FallbackIffUnclaimed(e, task, needs, w, allowed);
    seg := o.world.calls[|w.calls|..];
    SplitPrefix(w.calls, o.world.calls);
    if !(allowed && forall k :: 0 <= k < |needs| ==> !Claims(e.methods, w.cache, task, needs[k])) {
      assert seg == ClaimCalls(e.methods, w.cache, needs, task, needs);
    }
  }

  /** Every call a hook loop logs is that hook on that task, whether or not it completed. */
  lemma {:induction false} VisitLogsHookOnly(e: Engine, hook: Hook, task: string, needs: seq<string>, w: World, i: int)
    requires |w.calls| <= i < |VisitSpec(e, hook, task, needs, w).world.calls|
    ensures VisitSpec(e, hook, task, needs, w).world.calls[i].hook == hook
    ensures VisitSpec(e, hook, task, needs, w).world.calls[i].task == task
    decreases |needs|
  {
    if needs != [] {
      match Resolve(e.methods, w.cache, needs[0])
      case None =>
      case Some(h) =>
        var inv := Invocation(hook, h.name, h.name, task);
        var s := e.perform(inv, w.ctx);
        var w' := World(Remember(e.methods, w.cache, needs[0]), w.calls + [inv], s.ctx);
        if s.raised.None? {
          VisitExtends(e, hook, task, needs[1..], w');
          if i > |w.calls| {
            VisitLogsHookOnly(e, hook, task, needs[1..], w', i);
          }
        }
    }
  }

  lemma {:induction false} RunTaskExtends(e: Engine, task: string, needs: seq<string>, next: seq<string>, w: World, fuel: nat)
    ensures Extends(e.methods, w, RunTaskSpec(e, task, needs, next, w, fuel).world)
    decreases fuel, 1, 0
  {
    var w0 := w.(ctx := w.ctx.(results := w.ctx.results[RunNextTasks := StrList(next)]));
    VisitExtends(e, PreflightHook, task, needs, w0);
    var o1 := VisitSpec(e, PreflightHook, task, needs, w0);
    if o1.err.None? {
      TaskImplExtends(e, task + "Prepare", needs, o1.world, false);
      var o2 := TaskImplSpec(e, task + "Prepare", needs, o1.world, false);
      ExtendsTrans(e.methods, w, o1.world, o2.world);
      if o2.err.None? {
        TaskImplExtends(e, task, needs, o2.world, true);
        var o3 := TaskImplSpec(e, task, needs, o2.world, true);
        ExtendsTrans(e.methods, w, o2.world, o3.world);
        if o3.err.None? {
          ChainExtends(e, ChainedTasks(o3.world.ctx.results), needs, o3.world, fuel);
          var o4 := ChainSpec(e, ChainedTasks(o3.world.ctx.results), needs, o3.world, fuel);
          ExtendsTrans(e.methods, w, o3.world, o4.world);
          if o4.err.None? {
            TaskImplExtends(e, task + "Finished", needs, o4.world, false);
            var o5 := TaskImplSpec(e, task + "Finished", needs, o4.world, false);
            ExtendsTrans(e.methods, w, o4.world, o5.world);
            if o5.err.None? {
              VisitExtends(e, PostflightHook, task, needs, o5.world);
              ExtendsTrans(e.methods, w, o5.world, VisitSpec(e, PostflightHook, task, needs, o5.world).world);
            }
          }
        }
      }
    }
  }

  lemma {:induction false} ChainExtends(e: Engine, tasks: seq<string>, needs: seq<string>, w: World, fuel: nat)
    ensures Extends(e.methods, w, ChainSpec(e, tasks, needs, w, fuel).world)
    decreases fuel, 0, |tasks|
  {
    if tasks != [] && fuel > 0 {
      RunTaskExtends(e, tasks[0], needs, [], w, fuel - 1);
      var o := RunTaskSpec(e, tasks[0], needs, [], w, fuel - 1);
      if o.err.None? {
        ChainExtends(e, tasks[1..], needs, o.world, fuel);
        ExtendsTrans(e.methods, w, o.world, ChainSpec(e, tasks[1..], needs, o.world, fuel).world);
      }
    }
  }

  lemma ChainSegment(e: Engine, tasks: seq<string>, needs: seq<string>, w: World, fuel: nat) returns (seg: seq<Invocation>)
    ensures var o := ChainSpec(e, tasks, needs, w, fuel);
            o.world.calls == w.calls + seg && Extends(e.methods, w, o.world)
  {
    var o := ChainSpec(e, tasks, needs, w, fuel);
    ChainExtends(e, tasks, needs, w, fuel);
    seg := o.world.calls[|w.calls|..];
    SplitPrefix(w.calls, o.world.calls);
  }

  /**
   * `runTask` phase order: with `runNextTasks` seeded to the next tasks,
   * preflight on every need, then the `<task>Prepare` phase, then the `<task>`
   * phase (falling back when no need implements it), then the chained tasks
   * read from the results the main phase left, then the `<task>Finished`
   * phase, then postflight on every need. Each phase starts from the world the
   * one before it left (`ws[0]` to `ws[4]`), and each adds its own segment to
   * the log. Prepare and Finished never fall back.
   */
  lemma RunTaskPhases(e: Engine, task: string, needs: seq<string>, next: seq<string>, w: World, fuel: nat)
    returns (ws: seq<World>, pre: seq<Invocation>, prepare: seq<Invocation>, main: seq<Invocation>,
             chain: seq<Invocation>, finished: seq<Invocation>, post: seq<Invocation>)
    requires RunTaskSpec(e, task, needs, next, w, fuel).err.None?
    ensures |ws| == 5
    ensures VisitSpec(e, PreflightHook, task, needs, w.(ctx := w.ctx.(results := w.ctx.results[RunNextTasks := StrList(next)])))
              == Outcome(ws[0], None)
    ensures TaskImplSpec(e, task + "Prepare", needs, ws[0], false) == Outcome(ws[1], None)
    ensures TaskImplSpec(e, task, needs, ws[1], true) == Outcome(ws[2], None)
    ensures ChainSpec(e, ChainedTasks(ws[2].ctx.results), needs, ws[2], fuel) == Outcome(ws[3], None)
    ensures TaskImplSpec(e, task + "Finished", needs, ws[3], false) == Outcome(ws[4], None)
    ensures VisitSpec(e, PostflightHook, task, needs, ws[4]) == RunTaskSpec(e, task, needs, next, w, fuel)
    ensures ws[0].calls == w.calls + pre && ws[1].calls == ws[0].calls + prepare && ws[2].calls == ws[1].calls + main
    ensures ws[3].calls == ws[2].calls + chain && ws[4].calls == ws[3].calls + finished
    ensures RunTaskSpec(e, task, needs, next, w, fuel).world.calls == w.calls + pre + prepare + main + chain + finished + post
    ensures VisitsAll(e.methods, w.cache, PreflightHook, task, needs, pre)
    ensures forall i :: 0 <= i < |prepare| ==> prepare[i].hook == TaskHook && prepare[i].task == task + "Prepare"
    ensures forall i :: 0 <= i < |main| ==>
              main[i].task == task && (main[i].hook == TaskHook || main[i].hook == FallbackHook)
    ensures forall i :: 0 <= i < |finished| ==> finished[i].hook == TaskHook && finished[i].task == task + "Finished"
    ensures VisitsAll(e.methods, w.cache, PostflightHook, task, needs, post)
  {
    var w0 := w.(ctx := w.ctx.(results := w.ctx.results[RunNextTasks := StrList(next)]));
    var o1 := VisitSpec(e, PreflightHook, task, needs, w0);
    assert o1.err.None?;
    pre := VisitSegment(e, PreflightHook, task, needs, w0);
    var o2 := TaskImplSpec(e, task + "Prepare", needs, o1.world, false);
    assert o2.err.None?;
    prepare := TaskImplSegment(e, task + "Prepare", needs, o1.world, false);
    var o3 := TaskImplSpec(e, task, needs, o2.world, true);
    assert o3.err.None?;
    main := TaskImplSegment(e, task, needs, o2.world, true);
    var o4 := ChainSpec(e, ChainedTasks(o3.world.ctx.results), needs, o3.world, fuel);
    assert o4.err.None?;
    chain := ChainSegment(e, ChainedTasks(o3.world.ctx.results), needs, o3.world, fuel);
    var o5 := TaskImplSpec(e, task + "Finished", needs, o4.world, false);
    assert o5.err.None?;
    finished := TaskImplSegment(e, task + "Finished", needs, o4.world, false);
    var o6 := VisitSpec(e, PostflightHook, task, needs, o5.world);
    assert o6 == RunTaskSpec(e, task, needs, next, w, fuel);
    post := VisitSegment(e, PostflightHook, task, needs, o5.world);
    ws := [o1.world, o2.world, o3.world, o4.world, o5.world];
    ExtendsTrans(e.methods, w0, o1.world, o2.world);
    ExtendsTrans(e.methods, w0, o2.world, o3.world);
    ExtendsTrans(e.methods, w0, o3.world, o4.world);
    ExtendsTrans(e.methods, w0, o4.world, o5.world);
    VisitsAllTransfer(e.methods, o5.world.cache, w.cache, PostflightHook, task, needs, post);
  }

  lemma SplitPrefix<T>(a: seq<T>, b: seq<T>)
    requires a <= b
    ensures b == a + b[|a|..]
  {
  }

  lemma ExtendsTrans(methods: seq<Handler>, a: World, b: World, c: World)
    requires Extends(methods, a, b) && Extends(methods, b, c)
    ensures Extends(methods, a, c)
  {
  }

  /**
   * The chained tasks run in list order, each as a full `runTask` whose own
   * `runNextTasks` is reseeded to the empty list, each starting where the
   * previous one stopped.
   */
  lemma {:induction false} ChainRunsEachInOrder(e: Engine, tasks: seq<string>, needs: seq<string>, w: World, fuel: nat)
    returns (ws: seq<World>)
    requires ChainSpec(e, tasks, needs, w, fuel).err.None?
    ensures tasks != [] ==> fuel > 0
    ensures |ws| == |tasks| + 1 && ws[0] == w && ws[|tasks|] == ChainSpec(e, tasks, needs, w, fuel).world
    ensures forall k :: 0 <= k < |tasks| ==> RunTaskSpec(e, tasks[k], needs, [], ws[k], fuel - 1) == Outcome(ws[k + 1], None)
    decreases |tasks|
  {
    if tasks == [] {
      ws := [w];
    } else {
      var o := RunTaskSpec(e, tasks[0], needs, [], w, fuel - 1);
      var rest := ChainRunsEachInOrder(e, tasks[1..], needs, o.world, fuel);
      ws := [w] + rest;
      forall k | 0 <= k < |tasks|
        ensures RunTaskSpec(e, tasks[k], needs, [], ws[k], fuel - 1) == Outcome(ws[k + 1], None)
      {
        if k > 0 {
          assert tasks[k] == tasks[1..][k - 1];
        }
      }
    }
  }

  /**
   * `call()`: preflight on every need, exactly one task call attributed to the
   * named handler, then postflight on every need.
   */
  lemma CallRunsHooksAroundOneCall(e: Engine, methodName: string, task: string, needs: seq<string>, w: World)
    returns (pre: seq<Invocation>, inv: Invocation, post: seq<Invocation>)
    requires CallSpec(e, methodName, task, needs, w).err.None?
    ensures Resolve(e.methods, w.cache, methodName).Some?
    ensures CallSpec(e, methodName, task, needs, w).world.calls == w.calls + pre + [inv] + post
    ensures VisitsAll(e.methods, w.cache, PreflightHook, task, needs, pre)
    ensures inv.hook == TaskHook && inv.task == task &&
            inv.attributedTo == Resolve(e.methods, w.cache, methodName).value.name
    ensures VisitsAll(e.methods, w.cache, PostflightHook, task, needs, post)
  {
    var h := Resolve(e.methods, w.cache, methodName).value;
    RememberKeepsResolution(e.methods, w.cache, methodName);
    var w1 := w.(cache := Remember(e.methods, w.cache, methodName));
    var o1 := VisitSpec(e, PreflightHook, task, needs, w1);
    assert o1.err.None?;
    pre := VisitSegment(e, PreflightHook, task, needs, w1);
    CallImplLogsOneCall(e, h, task, needs, o1.world, false);
    CallImplIsolation(e, h, task, needs, o1.world, false);
    var o2 := CallImplSpec(e, h, task, needs, o1.world, false);
    assert o2.err.None?;
    var o3 := VisitSpec(e, PostflightHook, task, needs, o2.world);
    assert o3 == CallSpec(e, methodName, task, needs, w);
    post := VisitSegment(e, PostflightHook, task, needs, o2.world);
    inv := o2.world.calls[|o1.world.calls|];
    assert o2.world.calls == o1.world.calls + [inv];
    ExtendsTrans(e.methods, w1, o1.world, o2.world);
    VisitsAllTransfer(e.methods, w1.cache, w.cache, PreflightHook, task, needs, pre);
    VisitsAllTransfer(e.methods, o2.world.cache, w.cache, PostflightHook, task, needs, post);
  }
}
