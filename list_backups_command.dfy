/**
 * ListBackupsCommand (`list:backups`): runs the `listBackups` task, keeps the
 * backups whose type was asked for, orders them newest first and renders one
 * row per backup.
 *
 * The filter/sort/row pipeline is a function of the task's `files` result and
 * the `what` argument; `uasort` is modelled by an insertion sort under the
 * command's comparator, proved to order the rows and to keep every backup.
 */
module ListBackupsCommand {
  import opened Common
  import opened Context
  import opened Dispatch
  import opened BaseOptionsCommand

  const Task := "listBackups"
  /** The default of the `what` argument. */
  const DefaultWhat: seq<string> := ["files", "db"]

  /** One entry of the `files` result, read through its keys. */
  datatype Backup = Backup(kind: string, date: string, time: string, hash: string, file: string)

  // ---------------------------------------------------------------------------
  // The `what` argument.

  /** The asked-for types: the default when none is given, each entry lowercased then trimmed. */
  function What(args: seq<string>): (r: seq<string>)
    ensures |r| == |if args == [] then DefaultWhat else args|
  {
    var given := if args == [] then DefaultWhat else args;
    seq(|given|, k requires 0 <= k < |given| => Trim(Lower(given[k])))
  }

  predicate HasUpper(s: string)
  {
    exists k :: 0 <= k < |s| && 'A' <= s[k] <= 'Z'
  }

  /** Trimming keeps a contiguous part of the string. */
  lemma {:induction false} TrimLeftInfix(s: string) returns (i: nat)
    ensures i <= |s| && TrimLeft(s) == s[i..]
    decreases |s|
  {
    if s != [] && IsTrimChar(s[0]) {
      var i' := TrimLeftInfix(s[1..]);
      assert s[1..][i'..] == s[i' + 1..];
      i := i' + 1;
    } else {
      i := 0;
    }
  }

  lemma {:induction false} TrimRightInfix(s: string) returns (j: nat)
    ensures j <= |s| && TrimRight(s) == s[..j]
    decreases |s|
  {
    if s != [] && IsTrimChar(s[|s| - 1]) {
      j := TrimRightInfix(s[..|s| - 1]);
      assert s[..|s| - 1][..j] == s[..j];
    } else {
      j := |s|;
    }
  }

  lemma SliceKeepsLower(s: string, i: int, j: int)
    requires !HasUpper(s) && 0 <= i <= j <= |s|
    ensures !HasUpper(s[i..j])
  {
    forall k | 0 <= k < j - i
      ensures !('A' <= s[i..j][k] <= 'Z')
    {
      assert s[i..j][k] == s[i + k];
    }
  }

  lemma TrimKeepsLower(s: string)
    requires !HasUpper(s)
    ensures !HasUpper(Trim(s))
  {
    var i := TrimLeftInfix(s);
    var j := TrimRightInfix(s[i..]);
    assert Trim(s) == s[i..][..j];
    assert s[i..][..j] == s[i..i + j];
    SliceKeepsLower(s, i, i + j);
  }

  lemma LowerHasNoUpper(s: string)
    ensures !HasUpper(Lower(s))
  {
  }

  lemma LowerOfLower(s: string)
    requires !HasUpper(s)
    ensures Lower(s) == s
  {
    forall k | 0 <= k < |s|
      ensures Lower(s)[k] == s[k]
    {
      assert !('A' <= s[k] <= 'Z');
    }
  }

  /** Trimming a trimmed string changes nothing. */
  lemma TrimTwice(s: string)
    ensures Trim(Trim(s)) == Trim(s)
  {
    var u := TrimLeft(s);
    var v := TrimRight(u);
    if v != [] {
      var j := TrimRightInfix(u);
      assert v[0] == u[0];
    }
  }

  /** The asked-for types contain no upper-case letter and no surrounding blanks; normalising them again changes nothing. */
  lemma WhatIsNormal(args: seq<string>)
    ensures forall k :: 0 <= k < |What(args)| ==> !HasUpper(What(args)[k])
    ensures forall k :: 0 <= k < |What(args)| ==> What(args)[k] == Trim(What(args)[k])
    ensures args != [] ==> What(What(args)) == What(args)
  {
    var r := What(args);
    var given := if args == [] then DefaultWhat else args;
    forall k | 0 <= k < |r|
      ensures !HasUpper(r[k]) && r[k] == Trim(r[k]) && Trim(Lower(r[k])) == r[k]
    {
      LowerHasNoUpper(given[k]);
      TrimKeepsLower(Lower(given[k]));
      TrimTwice(Lower(given[k]));
      LowerOfLower(r[k]);
    }
  }

  /** With no argument, the files and database backups are listed. */
  lemma DefaultWhatListsAll()
    ensures What([]) == ["files", "db"]
  {
    var r := What([]);
    assert DefaultWhat[0] == "files" && DefaultWhat[1] == "db";
    assert Lower("files") == "files" by { LowerOfLower("files"); }
    assert Lower("db") == "db" by { LowerOfLower("db"); }
    assert TrimLeft("files") == "files" && TrimRight("files") == "files";
    assert TrimLeft("db") == "db" && TrimRight("db") == "db";
    assert r[0] == Trim(Lower("files")) && r[1] == Trim(Lower("db"));
    assert Trim("files") == "files" && Trim("db") == "db";
  }

  // ---------------------------------------------------------------------------
  // The filter.

  /** The backups whose type is one of `what`, in their original order (`array_filter`). */
  function Kept(files: seq<Backup>, what: seq<string>): (r: seq<Backup>)
    ensures |r| <= |files|
  {
    if files == [] then []
    else (if InList(files[0].kind, what) then [files[0]] else []) + Kept(files[1..], what)
  }

  /** Every backup of an asked-for type is kept as often as it occurs, and no other is kept. */
  lemma {:induction false} KeptCounts(files: seq<Backup>, what: seq<string>, b: Backup)
    ensures multiset(Kept(files, what))[b] == if InList(b.kind, what) then multiset(files)[b] else 0
  {
    if files != [] {
      KeptCounts(files[1..], what, b);
      assert files == [files[0]] + files[1..];
    }
  }

  // ---------------------------------------------------------------------------
  // The order.

  /** PHP `strcmp`, reduced to its sign. */
  function StrCmp(x: string, y: string): (r: int)
    ensures -1 <= r <= 1
  {
    if x == [] && y == [] then 0
    else if x == [] then -1
    else if y == [] then 1
    else if x[0] < y[0] then -1
    else if x[0] > y[0] then 1
    else StrCmp(x[1..], y[1..])
  }

  lemma {:induction false} StrCmpSwap(x: string, y: string)
    ensures StrCmp(x, y) == -StrCmp(y, x)
    ensures StrCmp(x, y) == 0 <==> x == y
  {
    if x != [] && y != [] && x[0] == y[0] {
      StrCmpSwap(x[1..], y[1..]);
      if x[1..] == y[1..] {
        assert x == [x[0]] + x[1..] && y == [y[0]] + y[1..];
      }
    }
  }

  lemma {:induction false} StrCmpTrans(x: string, y: string, z: string)
    requires StrCmp(x, y) <= 0 && StrCmp(y, z) <= 0
    ensures StrCmp(x, z) <= 0
  {
    if x != [] && y != [] && z != [] && x[0] == y[0] && y[0] == z[0] {
      StrCmpTrans(x[1..], y[1..], z[1..]);
    }
  }

  /** The `uasort` comparator: later date first, and on the same date later time first. */
  function Compare(a: Backup, b: Backup): int
  {
    if a.date == b.date then StrCmp(b.time, a.time) else StrCmp(b.date, a.date)
  }

  /** `a` may be listed before `b`. */
  predicate ListedBefore(a: Backup, b: Backup)
  {
    Compare(a, b) <= 0
  }

  lemma ListedBeforeTotal(a: Backup, b: Backup)
    ensures ListedBefore(a, b) || ListedBefore(b, a)
  {
    StrCmpSwap(a.time, b.time);
    StrCmpSwap(a.date, b.date);
  }

  lemma ListedBeforeTrans(a: Backup, b: Backup, c: Backup)
    requires ListedBefore(a, b) && ListedBefore(b, c)
    ensures ListedBefore(a, c)
  {
    StrCmpSwap(b.date, a.date);
    StrCmpSwap(c.date, b.date);
    StrCmpSwap(c.date, a.date);
    if a.date == b.date && b.date == c.date {
      StrCmpTrans(c.time, b.time, a.time);
    } else if a.date == b.date {
      assert StrCmp(c.date, a.date) <= 0;
    } else if b.date == c.date {
      assert StrCmp(c.date, a.date) <= 0;
    } else {
      StrCmpTrans(c.date, b.date, a.date);
    }
  }

  predicate Sorted(s: seq<Backup>)
  {
    forall i, j :: 0 <= i < j < |s| ==> ListedBefore(s[i], s[j])
  }

  /** `b` placed before the first backup it may precede. */
  function Insert(b: Backup, s: seq<Backup>): (r: seq<Backup>)
    ensures |r| == |s| + 1
    ensures multiset(r) == multiset(s) + multiset{b}
  {
    if s == [] then [b]
    else if ListedBefore(b, s[0]) then [b] + s
    else
      assert s == [s[0]] + s[1..];
      [s[0]] + Insert(b, s[1..])
  }

  lemma {:induction false} InsertSorted(b: Backup, s: seq<Backup>)
    requires Sorted(s)
    ensures Sorted(Insert(b, s))
  {
    if s == [] {
    } else if ListedBefore(b, s[0]) {
      var r := [b] + s;
      forall i, j | 0 <= i < j < |r|
        ensures ListedBefore(r[i], r[j])
      {
        if i == 0 && j > 1 {
          ListedBeforeTrans(b, s[0], s[j - 1]);
        }
      }
    } else {
      ListedBeforeTotal(b, s[0]);
      InsertSorted(b, s[1..]);
      var rest := Insert(b, s[1..]);
      var r := [s[0]] + rest;
      forall j | 0 < j < |r|
        ensures ListedBefore(s[0], r[j])
      {
        assert r[j] in multiset(rest);
        assert r[j] in multiset(s[1..]) + multiset{b};
        if r[j] != b {
          var m :| 0 <= m < |s[1..]| && s[1..][m] == r[j];
          assert s[1 + m] == r[j];
        }
      }
    }
  }

  /** The backups in listing order (`uasort` with the comparator). */
  function Sort(s: seq<Backup>): (r: seq<Backup>)
    ensures multiset(r) == multiset(s)
  {
    if s == [] then []
    else
      assert s == [s[0]] + s[1..];
      Insert(s[0], Sort(s[1..]))
  }

  lemma {:induction false} SortSorted(s: seq<Backup>)
    ensures Sorted(Sort(s))
  {
    if s != [] {
      SortSorted(s[1..]);
      InsertSorted(s[0], Sort(s[1..]));
    }
  }

  /** The listing is newest first: dates descend, and on one date times descend. */
  lemma NewestFirst(s: seq<Backup>, i: int, j: int)
    requires 0 <= i < j < |Sort(s)|
    ensures var r := Sort(s);
            StrCmp(r[j].date, r[i].date) <= 0 &&
            (r[i].date == r[j].date ==> StrCmp(r[j].time, r[i].time) <= 0)
  {
    SortSorted(s);
    var r := Sort(s);
    assert ListedBefore(r[i], r[j]);
    StrCmpSwap(r[j].date, r[i].date);
  }

  // ---------------------------------------------------------------------------
  // The table.

  /** An entry of the `files` result: each key read as a string, a missing key as "". */
  function BackupOf(v: Value): Backup
  {
    var m := DictEntries(v);
    Backup(Text(m, "type"), Text(m, "date"), Text(m, "time"), Text(m, "hash"), Text(m, "file"))
  }

  /** The `files` result as backups; anything but a list holds none. */
  function Backups(files: Value): (r: seq<Backup>)
    ensures |r| == |Items(files)|
  {
    var items := Items(files);
    seq(|items|, k requires 0 <= k < |items| => BackupOf(items[k]))
  }

  function Row(b: Backup): seq<string>
  {
    [b.date, b.time, b.hash, b.file]
  }

  /** The rows of the table: the kept backups, newest first. */
  function Table(files: Value, what: seq<string>): seq<seq<string>>
  {
    var listed := Sort(Kept(Backups(files), what));
    seq(|listed|, k requires 0 <= k < |listed| => Row(listed[k]))
  }

  /** The table lists each backup of an asked-for type as often as the task reported it, and no other. */
  lemma TableRowsAreKept(files: Value, what: seq<string>, b: Backup)
    ensures var listed := Sort(Kept(Backups(files), what));
            multiset(listed)[b] == if InList(b.kind, what) then multiset(Backups(files))[b] else 0
  {
    KeptCounts(Backups(files), what, b);
  }

  /** Every row is the date, time, hash and file of a reported backup of an asked-for type, newest first. */
  lemma TableRows(files: Value, what: seq<string>, k: int)
    requires 0 <= k < |Table(files, what)|
    ensures exists b :: b in Backups(files) && InList(b.kind, what) && Table(files, what)[k] == Row(b)
  {
    var listed := Sort(Kept(Backups(files), what));
    var b := listed[k];
    assert b in multiset(listed);
    TableRowsAreKept(files, what, b);
    assert b in multiset(Backups(files));
  }

  // ---------------------------------------------------------------------------
  // execute

  /** The command's effect on the dispatcher and what it ends with. */
  datatype Run = Run(cache: map<string, Handler>, calls: seq<Invocation>, rows: seq<seq<string>>, exit: Exit)

  /**
   * `execute`: a truthy result of the base command is returned at once;
   * otherwise `listBackups` runs on a fresh context, an exception escapes,
   * and the table is built from the `files` result and the `exitCode`
   * result (0 if unset) is returned.
   */
  function ExecuteSpec(e: Engine, parent: Value, args: seq<string>, needs: seq<string>,
                       cache: map<string, Handler>, calls: seq<Invocation>, fuel: nat): Run
  {
    if !Empty(parent) then Run(cache, calls, [], Returned(parent))
    else
      var o := RunTaskSpec(e, Task, needs, [], World(cache, calls, Ctx(map[], map[])), fuel);
      if o.err.Some? then Run(o.world.cache, o.world.calls, [], Raised(o.err.value))
      else
        var results := o.world.ctx.results;
        Run(o.world.cache, o.world.calls, Table(ResultOr(results, "files", Null), What(args)),
            Returned(ResultOr(results, ExitCode, Int(0))))
  }

  /** A failing base command runs no task and lists nothing. */
  lemma ParentFailureRunsNothing(e: Engine, parent: Value, args: seq<string>, needs: seq<string>,
                                 cache: map<string, Handler>, calls: seq<Invocation>, fuel: nat)
    requires !Empty(parent)
    ensures var r := ExecuteSpec(e, parent, args, needs, cache, calls, fuel);
            r.calls == calls && r.rows == [] && r.exit == Returned(parent)
  {
  }

  method Execute(factory: MethodFactory, parent: Value, args: seq<string>, needs: seq<string>, fuel: nat)
    returns (rows: seq<seq<string>>, exit: Exit)
    modifies factory`lookupCache, factory`calls
    ensures Run(factory.lookupCache, factory.calls, rows, exit) ==
            ExecuteSpec(factory.Setup(), parent, args, needs, old(factory.lookupCache), old(factory.calls), fuel)
  {
    if !Empty(parent) {
      return [], Returned(parent);
    }
    var context := new TaskContext(map[]);
    var what := What(args);
    var err := factory.RunTask(Task, needs, context, [], fuel);
    if err.Some? {
      return [], Raised(err.value);
    }
    rows := Table(context.GetResult("files", Null), what);
    exit := Returned(context.GetResult(ExitCode, Int(0)));
  }
}
