/**
 * What the handlers' `validateConfig` methods report. The validation service
 * and its error bag are not part of this model; their behaviour is stated here
 * as assumptions:
 *  - `hasKey($key, $msg)` reports an error on `$key` when it is not set
 *    (missing or null);
 *  - `hasKeys([$key => $msg, ...])` is `hasKey` on each pair, in order;
 *  - `isArray($key, $msg)` reports an error when `$key` is not set to an array;
 *  - `deprecate([$key => $msg])` reports a warning when `$key` is present;
 *  - `addError` / `addWarning` append one issue.
 * An issue keeps the key and the explanation the handler passed; the wording
 * the service wraps around them is not modelled.
 */
module Validation {
  import opened Common

  datatype Issue = Error(key: string, message: string) | Warning(key: string, message: string)

  /** `hasErrors()` */
  predicate HasErrors(issues: seq<Issue>)
  {
    exists k :: 0 <= k < |issues| && issues[k].Error?
  }

  function HasKey(config: map<string, Value>, key: string, message: string): (r: seq<Issue>)
    ensures r == [] <==> IsSet(config, key)
    ensures r != [] ==> r == [Error(key, message)]
  {
    if IsSet(config, key) then [] else [Error(key, message)]
  }

  function HasKeys(config: map<string, Value>, keys: seq<(string, string)>): (r: seq<Issue>)
    ensures r == [] <==> forall k :: 0 <= k < |keys| ==> IsSet(config, keys[k].0)
    ensures forall i :: 0 <= i < |r| ==> r[i].Error? && !IsSet(config, r[i].key)
    ensures !HasErrors(r) <==> r == []
  {
    if keys == [] then []
    else
      var rest := HasKeys(config, keys[1..]);
      assert forall k :: 1 <= k < |keys| ==> keys[k] == keys[1..][k - 1];
      var r := HasKey(config, keys[0].0, keys[0].1) + rest;
      assert r != [] ==> HasErrors(r) by {
        if r != [] {
          assert r[0].Error?;
        }
      }
      r
  }

  function IsArrayKey(config: map<string, Value>, key: string, message: string): (r: seq<Issue>)
    ensures r == [] <==> IsSet(config, key) && IsArray(config[key])
    ensures r != [] ==> r == [Error(key, message)]
  {
    if IsSet(config, key) && IsArray(config[key]) then [] else [Error(key, message)]
  }

  function Deprecate(config: map<string, Value>, key: string, message: string): (r: seq<Issue>)
    ensures r == [] <==> key !in config
    ensures r != [] ==> r == [Warning(key, message)]
  {
    if key in config then [Warning(key, message)] else []
  }

  /** Issues reported one after the other contain an error iff either part does. */
  lemma HasErrorsConcat(a: seq<Issue>, b: seq<Issue>)
    ensures HasErrors(a + b) <==> HasErrors(a) || HasErrors(b)
  {
    if HasErrors(a) {
      var k :| 0 <= k < |a| && a[k].Error?;
      assert (a + b)[k].Error?;
    }
    if HasErrors(b) {
      var k :| 0 <= k < |b| && b[k].Error?;
      assert (a + b)[|a| + k].Error?;
    }
    if HasErrors(a + b) {
      var k :| 0 <= k < |a + b| && (a + b)[k].Error?;
      if k < |a| {
        assert a[k].Error?;
      } else {
        assert b[k - |a|].Error?;
      }
    }
  }
}
