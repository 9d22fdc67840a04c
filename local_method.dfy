/**
 * LocalMethod: the handler that runs a host's commands on the local machine.
 * It only contributes configuration: defaults, the `needs` entry that selects
 * it, and a deprecation warning for the old `runLocally` flag.
 */
module LocalMethod {
  import opened Common
  import opened Validation

  const Name := "local"
  /** The name the local shell provider registers under. */
  const LocalShellProvider := "local"
  const RunLocallyDeprecation := "Please add `local` to your `needs`!"

  /** `supports` */
  predicate Supports(methodName: string)
  {
    methodName == Name
  }

  /** `getDefaultConfig`: the fabfile's path is the root folder. */
  function DefaultConfig(fabfilePath: string, host: map<string, Value>): (r: map<string, Value>)
    ensures "rootFolder" in r && r["rootFolder"] == Str(fabfilePath)
    ensures "shellProvider" in r && r["shellProvider"] == Str(LocalShellProvider)
    ensures "needs" in r <==> !Empty(Lookup(host, "runLocally"))
    ensures "needs" in r ==> r["needs"] == List([Str(Name)])
    ensures r.Keys <= {"rootFolder", "shellProvider", "needs"}
  {
    var result := map["rootFolder" := Str(fabfilePath), "shellProvider" := Str(LocalShellProvider)];
    if !Empty(Lookup(host, "runLocally")) then result["needs" := List([Str(Name)])] else result
  }

  /** `validateConfig`: only a warning, and only for a host still using `runLocally`. */
  function ValidateConfig(config: map<string, Value>): (r: seq<Issue>)
    ensures !HasErrors(r)
    ensures r != [] <==> "runLocally" in config
  {
    Deprecate(config, "runLocally", RunLocallyDeprecation)
  }

  /** A host whose defaults add `needs` asks for exactly this handler. */
  lemma DefaultNeedsSelectLocal(fabfilePath: string, host: map<string, Value>)
    requires !Empty(Lookup(host, "runLocally"))
    ensures var needs := Strings(DefaultConfig(fabfilePath, host)["needs"]);
            needs == [Name] && Supports(needs[0])
  {
    StringsOfStrList([Name]);
    assert StrList([Name]) == List([Str(Name)]);
  }
}
