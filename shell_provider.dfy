/**
 * The execution surface every handler talks to (ShellProviderInterface and
 * CommandResult). Nothing is executed: a shell is an object that appends each
 * operation to a log, and answers commands and existence probes from two
 * oracles indexed by the position of the operation in that log, so that the
 * same command may answer differently at different times.
 */
module ShellProvider {
  import opened Common

  /** CommandResult: exit code and captured output lines. */
  datatype CommandResult = CommandResult(exitCode: int, output: seq<string>)
  {
    predicate Succeeded() { exitCode == 0 }
    predicate Failed() { exitCode != 0 }
  }

  /** An environment as PHP iterates it: (name, value) pairs in insertion order. */
  type Env = seq<(string, string)>

  /**
   * One operation on a shell. `Invoked` records an inline script callback at
   * the point a script ran it, so that the log of a script run shows callbacks
   * and shell commands in one order.
   */
  datatype Op =
    | ChangedDir(dir: string)
    | EnvApplied(env: Env)
    | Ran(command: string)
    | Probed(path: string)
    | Uploaded(source: string, dest: string)
    | Invoked(callback: string, args: seq<string>)

  /** The result of the command run as operation number `i` of the log. */
  type Answer = (nat, string) -> CommandResult
  /** Whether the path probed as operation number `i` of the log exists. */
  type Presence = (nat, string) -> bool

  /** The commands of the `Ran` operations in a log, in order. */
  function Commands(log: seq<Op>): (r: seq<string>)
    ensures |r| <= |log|
  {
    if log == [] then []
    else if log[0].Ran? then [log[0].command] + Commands(log[1..])
    else Commands(log[1..])
  }

  lemma {:induction false} CommandsAppend(a: seq<Op>, b: seq<Op>)
    ensures Commands(a + b) == Commands(a) + Commands(b)
  {
    if a != [] {
      assert (a + b)[0] == a[0] && (a + b)[1..] == a[1..] + b;
      CommandsAppend(a[1..], b);
      if a[0].Ran? {
        assert Commands(a + b) == [a[0].command] + (Commands(a[1..]) + Commands(b));
      }
    } else {
      assert a + b == b;
    }
  }

  /** The log of running `commands` one after the other. */
  function RanOps(commands: seq<string>): (r: seq<Op>)
    ensures |r| == |commands| && forall k :: 0 <= k < |commands| ==> r[k] == Ran(commands[k])
  {
    seq(|commands|, k requires 0 <= k < |commands| => Ran(commands[k]))
  }

  /** `n` copies of `command`: the same command run `n` times. */
  function Repeated(command: string, n: nat): (r: seq<string>)
    ensures |r| == n
    ensures forall k :: 0 <= k < n ==> r[k] == command
  {
    if n == 0 then [] else [command] + Repeated(command, n - 1)
  }

  lemma RanOpsCons(command: string, rest: seq<string>)
    ensures RanOps([command] + rest) == [Ran(command)] + RanOps(rest)
  {
    assert forall k :: 1 <= k <= |rest| ==> ([command] + rest)[k] == rest[k - 1];
  }

  /** Running one more command of a list extends the operations by it. */
  lemma RanOpsSnoc(commands: seq<string>, i: nat)
    requires i < |commands|
    ensures RanOps(commands[..i + 1]) == RanOps(commands[..i]) + [Ran(commands[i])]
  {
  }

  lemma {:induction false} CommandsOfRanOps(commands: seq<string>)
    ensures Commands(RanOps(commands)) == commands
  {
    if commands != [] {
      RanOpsCons(commands[0], commands[1..]);
      assert commands == [commands[0]] + commands[1..];
      CommandsOfRanOps(commands[1..]);
    }
  }

  class Shell {
    var log: seq<Op>
    var workingDir: string
    const answer: Answer
    const present: Presence

    constructor (answer: Answer, present: Presence, workingDir: string)
      ensures this.answer == answer && this.present == present
      ensures this.workingDir == workingDir && log == []
    {
      this.answer := answer;
      this.present := present;
      this.workingDir := workingDir;
      log := [];
    }

    /** ShellProviderInterface::run */
    method Run(command: string) returns (r: CommandResult)
      modifies this`log
      ensures log == old(log) + [Ran(command)]
      ensures r == answer(|old(log)|, command)
    {
      r := answer(|log|, command);
      log := log + [Ran(command)];
    }

    /** ShellProviderInterface::cd */
    method Cd(dir: string)
      modifies this`log, this`workingDir
      ensures log == old(log) + [ChangedDir(dir)] && workingDir == dir
    {
      log := log + [ChangedDir(dir)];
      workingDir := dir;
    }

    /** ShellProviderInterface::getWorkingDir */
    method GetWorkingDir() returns (dir: string)
      ensures dir == workingDir
    {
      dir := workingDir;
    }

    /** ShellProviderInterface::exists */
    method Exists(path: string) returns (found: bool)
      modifies this`log
      ensures log == old(log) + [Probed(path)]
      ensures found == present(|old(log)|, path)
    {
      found := present(|log|, path);
      log := log + [Probed(path)];
    }

    /** ShellProviderInterface::putFile */
    method PutFile(source: string, dest: string)
      modifies this`log
      ensures log == old(log) + [Uploaded(source, dest)]
    {
      log := log + [Uploaded(source, dest)];
    }

    /** ShellProviderInterface::applyEnvironment */
    method ApplyEnvironment(env: Env)
      modifies this`log
      ensures log == old(log) + [EnvApplied(env)]
    {
      log := log + [EnvApplied(env)];
    }

    /** Records an inline script callback being called with `args`. */
    method RecordCallback(name: string, args: seq<string>)
      modifies this`log
      ensures log == old(log) + [Invoked(name, args)]
    {
      log := log + [Invoked(name, args)];
    }
  }
}
