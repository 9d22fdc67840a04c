/**
 * TaskContext: the per-dispatch state carrier, with request variables and a
 * separate map of results. The class itself is not part of this model's
 * source; its behaviour is stated here as assumptions:
 *  - `setResult` overwrites a key, `addResult` appends to the list at a key;
 *  - a clone copies both maps;
 *  - `mergeResults(other)` copies every result of `other` over the receiver's.
 * Because a clone starts from the caller's results, an `addResult` in the clone
 * already contains the caller's earlier entries, so the overwrite-merge keeps
 * both the overwrite discipline and the append discipline.
 */
module Context {
  import opened Common
  import opened ShellProvider

  /** A value snapshot of a task context. */
  datatype Ctx = Ctx(vars: map<string, Value>, results: map<string, Value>)

  const CurrentMethod := "currentMethod"
  const RunNextTasks := "runNextTasks"
  const ExitCode := "exitCode"

  /** The items of a list value; anything else reads as an empty list. */
  function Items(v: Value): seq<Value>
  {
    if v.List? then v.items else []
  }

  /** `addResult($key, $items)` on a results map. */
  function Appended(results: map<string, Value>, key: string, items: seq<Value>): (r: map<string, Value>)
    ensures r.Keys == results.Keys + {key}
    ensures r[key] == List(Items(Lookup(results, key)) + items)
    ensures forall k :: k in results && k != key ==> r[k] == results[k]
  {
    results[key := List(Items(Lookup(results, key)) + items)]
  }

  /** Two `addResult` calls on the same key amount to one with both item lists, in order. */
  lemma AppendedAccumulates(results: map<string, Value>, key: string, xs: seq<Value>, ys: seq<Value>)
    ensures Appended(Appended(results, key, xs), key, ys) == Appended(results, key, xs + ys)
  {
    var before := Items(Lookup(results, key));
    assert Items(Lookup(Appended(results, key, xs), key)) == before + xs;
    AppendAssoc(before, xs, ys);
  }

  /** `mergeResults`: every result of the clone overwrites the caller's. */
  function Merge(into: map<string, Value>, from: map<string, Value>): (r: map<string, Value>)
    ensures r.Keys == into.Keys + from.Keys
    ensures forall k :: k in from ==> r[k] == from[k]
    ensures forall k :: k in into && k !in from ==> r[k] == into[k]
  {
    into + from
  }

  /** `get($key, $default)` on a variables map: a missing or null variable reads as the default. */
  function VarOr(vars: map<string, Value>, key: string, default: Value): (v: Value)
    ensures IsSet(vars, key) ==> v == vars[key]
    ensures !IsSet(vars, key) ==> v == default
  {
    if IsSet(vars, key) then vars[key] else default
  }

  /** `getResult($key, $default)`. */
  function ResultOr(results: map<string, Value>, key: string, default: Value): (v: Value)
    ensures key in results ==> v == results[key]
    ensures key !in results ==> v == default
  {
    if key in results then results[key] else default
  }

  /**
   * Two handler calls that each run on a clone and add one entry to the same
   * key leave both entries, in call order, in the caller's results.
   */
  lemma AddedContributionsAccumulate(r0: map<string, Value>, key: string, x: Value, y: Value)
    requires key !in r0
    ensures var r1 := Merge(r0, Appended(r0, key, [x]));
            var r2 := Merge(r1, Appended(r1, key, [y]));
            r2[key] == List([x, y])
  {
    var r1 := Merge(r0, Appended(r0, key, [x]));
    assert r1[key] == List([x]);
  }

  /** Two handler calls that each set the same key leave the later value. */
  lemma SetContributionsOverwrite(r0: map<string, Value>, key: string, x: Value, y: Value)
    ensures var r1 := Merge(r0, r0[key := x]);
            var r2 := Merge(r1, r1[key := y]);
            r2[key] == y && r2.Keys == r0.Keys + {key}
  {
  }

  class TaskContext {
    var vars: map<string, Value>
    var results: map<string, Value>
    var commandResult: Option<CommandResult>

    constructor (vars: map<string, Value>)
      ensures this.vars == vars && results == map[] && commandResult == None
    {
      this.vars := vars;
      results := map[];
      commandResult := None;
    }

    /** `clone $context` */
    constructor Clone(other: TaskContext)
      ensures vars == other.vars && results == other.results
      ensures commandResult == other.commandResult
    {
      vars := other.vars;
      results := other.results;
      commandResult := other.commandResult;
    }

    function Snapshot(): Ctx
      reads this
    {
      Ctx(vars, results)
    }

    /** `get($key, $default)`: a missing or null variable reads as the default. */
    function Get(key: string, default: Value): Value
      reads this
    {
      VarOr(vars, key, default)
    }

    function GetResult(key: string, default: Value): Value
      reads this
    {
      ResultOr(results, key, default)
    }

    method Set(key: string, v: Value)
      modifies this`vars
      ensures vars == old(vars)[key := v]
    {
      vars := vars[key := v];
    }

    method SetResult(key: string, v: Value)
      modifies this`results
      ensures results == old(results)[key := v]
    {
      results := results[key := v];
    }

    method AddResult(key: string, items: seq<Value>)
      modifies this`results
      ensures results == Appended(old(results), key, items)
    {
      results := Appended(results, key, items);
    }

    method MergeResults(other: TaskContext)
      modifies this`results
      ensures results == Merge(old(results), other.results)
    {
      results := Merge(results, other.results);
    }

    method SetCommandResult(r: CommandResult)
      modifies this`commandResult
      ensures commandResult == Some(r)
    {
      commandResult := Some(r);
    }

    /** Replaces both maps with a snapshot (the effect of an unseen handler). */
    method Restore(c: Ctx)
      modifies this`vars, this`results
      ensures Snapshot() == c
    {
      vars := c.vars;
      results := c.results;
    }
  }
}
