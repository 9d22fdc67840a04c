/**
 * BaseOptionsCommand: the base of every console command. It declares the
 * `--fabfile` and `--offline` options, completes `--offline` values, turns the
 * `--fabfile` option into the argument for reading the configuration, and
 * rejects a run in which a value-required option is missing or empty.
 *
 * It also holds what the commands built on it report: the value `execute`
 * returns, or the exception that escaped it.
 */
module BaseOptionsCommand {
  import opened Common

  /** What a command's `execute` ends with. */
  datatype Exit = Returned(code: Value) | Raised(err: Error)

  /** An option of the command's input definition, as `InputOption` describes it. */
  datatype OptionDef = OptionDef(name: string, valueRequired: bool, isArray: bool)

  const Offline := "offline"
  const Fabfile := "fabfile"

  /** `completeOptionValues`: `--offline` completes to "1" and "0"; nothing else completes. */
  function CompleteOptionValues(optionName: string): (r: Option<seq<string>>)
    ensures r.Some? <==> optionName == Offline
    ensures r.Some? ==> r.value == ["1", "0"]
  {
    if optionName == Offline then Some(["1", "0"]) else None
  }

  /** The fabfile argument of `readConfiguration`: an empty option (unset, "" or "0") becomes "". */
  function FabfileArgument(option: Value): (r: Value)
    ensures Empty(option) ==> r == Str("")
    ensures !Empty(option) ==> r == option
  {
    if !Empty(option) then option else Str("")
  }

  /** What `readConfiguration` hands the configuration service: the working directory, the fabfile and the offline flag. */
  datatype ConfigurationRequest = ConfigurationRequest(cwd: string, fabfile: Value, offline: Value)

  /** `readConfiguration`, with the working directory passed in. */
  function ReadConfiguration(cwd: string, options: map<string, Value>): (r: ConfigurationRequest)
    ensures r.cwd == cwd && r.offline == Lookup(options, Offline)
    ensures r.fabfile == FabfileArgument(Lookup(options, Fabfile))
  {
    ConfigurationRequest(cwd, FabfileArgument(Lookup(options, Fabfile)), Lookup(options, Offline))
  }

  /** Reading an already-defaulted fabfile again changes nothing, and a named fabfile is passed on as given. */
  lemma FabfileArgumentSettles(option: Value)
    ensures FabfileArgument(FabfileArgument(option)) == FabfileArgument(option)
    ensures option.Str? && TruthyString(option.s) ==> FabfileArgument(option) == option
  {
  }

  // ---------------------------------------------------------------------------
  // checkAllRequiredOptionsAreNotEmpty

  /** An option that requires a value but got null, "" or, for an array option, an empty value. */
  predicate Unfilled(def: OptionDef, value: Value)
  {
    def.valueRequired && (value == Null || value == Str("") || (def.isArray && Empty(value)))
  }

  function Message(name: string): string
  {
    "The required option --" + name + " is not set or is empty"
  }

  const Separator := "\n\n"

  /** The error messages, one per unfilled option, in definition order. */
  function Errors(defs: seq<OptionDef>, values: map<string, Value>): (r: seq<string>)
    ensures |r| <= |defs|
    decreases |defs|
  {
    if defs == [] then []
    else
      var rest := Errors(defs[..|defs| - 1], values);
      var d := defs[|defs| - 1];
      if Unfilled(d, Lookup(values, d.name)) then rest + [Message(d.name)] else rest
  }

  /** The check's verdict: no exception, or one whose message joins all errors. */
  function CheckSpec(defs: seq<OptionDef>, values: map<string, Value>): Option<Error>
  {
    var errors := Errors(defs, values);
    if |errors| > 0 then Some(InvalidArgument(Join(errors, Separator))) else None
  }

  /** Each message names an unfilled option, and each unfilled option has its message. */
  lemma {:induction false} ErrorsNameUnfilled(defs: seq<OptionDef>, values: map<string, Value>)
    ensures forall k :: 0 <= k < |defs| && Unfilled(defs[k], Lookup(values, defs[k].name)) ==>
              Message(defs[k].name) in Errors(defs, values)
    ensures forall m :: m in Errors(defs, values) ==>
              exists k :: 0 <= k < |defs| && Unfilled(defs[k], Lookup(values, defs[k].name)) && m == Message(defs[k].name)
    decreases |defs|
  {
    if defs != [] {
      var init := defs[..|defs| - 1];
      ErrorsNameUnfilled(init, values);
      forall m | m in Errors(defs, values)
        ensures exists k :: 0 <= k < |defs| && Unfilled(defs[k], Lookup(values, defs[k].name)) && m == Message(defs[k].name)
      {
        if m in Errors(init, values) {
          var k :| 0 <= k < |init| && Unfilled(init[k], Lookup(values, init[k].name)) && m == Message(init[k].name);
          assert defs[k] == init[k];
        } else {
          assert m == Message(defs[|defs| - 1].name);
        }
      }
      forall k | 0 <= k < |defs| && Unfilled(defs[k], Lookup(values, defs[k].name))
        ensures Message(defs[k].name) in Errors(defs, values)
      {
        if k < |init| {
          assert init[k] == defs[k];
        }
      }
    }
  }

  /** No exception exactly when no option is unfilled. */
  lemma NoExceptionIffAllFilled(defs: seq<OptionDef>, values: map<string, Value>)
    ensures CheckSpec(defs, values).None? <==>
              forall k :: 0 <= k < |defs| ==> !Unfilled(defs[k], Lookup(values, defs[k].name))
  {
    ErrorsNameUnfilled(defs, values);
    if CheckSpec(defs, values).Some? {
      var errors := Errors(defs, values);
      assert errors[0] in errors;
    }
  }

  /** Only the last option unfilled: the message is that option's message alone. */
  lemma SingleErrorMessage(defs: seq<OptionDef>, values: map<string, Value>)
    requires |defs| > 0
    requires forall k :: 0 <= k < |defs| - 1 ==> !Unfilled(defs[k], Lookup(values, defs[k].name))
    requires Unfilled(defs[|defs| - 1], Lookup(values, defs[|defs| - 1].name))
    ensures CheckSpec(defs, values) == Some(InvalidArgument(Message(defs[|defs| - 1].name)))
  {
    var init := defs[..|defs| - 1];
    NoExceptionIffAllFilled(init, values);
    assert Errors(init, values) == [];
  }

  /**
   * `checkAllRequiredOptionsAreNotEmpty`: the loop over the definition's
   * options appends one message per unfilled option, then raises if any.
   */
  method CheckAllRequiredOptionsAreNotEmpty(defs: seq<OptionDef>, values: map<string, Value>)
    returns (err: Option<Error>)
    ensures err == CheckSpec(defs, values)
  {
    var errors: seq<string> := [];
    for i := 0 to |defs|
      invariant errors == Errors(defs[..i], values)
    {
      var def := defs[i];
      var value := Lookup(values, def.name);
      if def.valueRequired && (value == Null || value == Str("") || (def.isArray && Empty(value))) {
        errors := errors + [Message(def.name)];
      }
      assert defs[..i + 1][..i] == defs[..i];
    }
    assert defs[..|defs|] == defs;
    if |errors| > 0 {
      return Some(InvalidArgument(Join(errors, Separator)));
    }
    return None;
  }
}
