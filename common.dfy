/**
 * Shared vocabulary of the model: optional values, the exceptions the
 * orchestration engine raises, PHP values as they appear in host
 * configurations and task contexts, and the few PHP string functions the
 * handlers rely on (implode, trim, strtolower, strpos, strrpos, str_replace).
 */
module Common {

  datatype Option<T> = None | Some(value: T)

  /** The exceptions raised (and sometimes caught) by the engine and its handlers. */
  datatype Error =
    | MethodNotFound(name: string)                    // MethodNotFoundException
    | TaskNotFoundInMethod(task: string, handler: string)  // TaskNotFoundInMethodException
    | MissingScriptCallback(callback: string)         // MissingScriptCallbackImplementation
    | UnknownReplacementPattern(line: string)         // UnknownReplacementPatternException
    | EarlyTaskExit                                   // EarlyTaskExitException
    | ValidationFailed(messages: seq<string>)         // ValidationFailedException
    | InvalidArgument(message: string)                // \InvalidArgumentException
    | Runtime(message: string)                        // \RuntimeException, \Exception, PHP Error
    | FailedShellCommand(message: string)             // CommandResult::throwException
    | ChainTooDeep(task: string)                      // chained tasks nested deeper than the model's fuel

  /**
   * A PHP value. PHP arrays are split into lists (consecutive integer keys)
   * and dictionaries (string keys); dictionaries are unordered here.
   */
  datatype Value =
    | Null
    | Bool(b: bool)
    | Int(i: int)
    | Str(s: string)
    | List(items: seq<Value>)
    | Dict(entries: map<string, Value>)

  /** PHP `empty()`. */
  predicate Empty(v: Value)
  {
    match v
    case Null => true
    case Bool(b) => !b
    case Int(i) => i == 0
    case Str(s) => s == "" || s == "0"
    case List(xs) => xs == []
    case Dict(m) => m == map[]
  }

  /** PHP truthiness of a string: only "" and "0" are falsy. */
  predicate TruthyString(s: string)
  {
    s != "" && s != "0"
  }

  /** Reading `$array[$key]`: a missing key reads as null. */
  function Lookup(m: map<string, Value>, key: string): (v: Value)
    ensures key !in m ==> v == Null
  {
    if key in m then m[key] else Null
  }

  /** `$value[$key]` on a value that may not be a dictionary. */
  function Field(v: Value, key: string): (r: Value)
    ensures !v.Dict? ==> r == Null
  {
    if v.Dict? then Lookup(v.entries, key) else Null
  }

  /** The entries of an associative array; anything else has none. */
  function DictEntries(v: Value): map<string, Value>
  {
    if v.Dict? then v.entries else map[]
  }

  /** PHP `isset($array[$key])`: present and not null. */
  predicate IsSet(m: map<string, Value>, key: string)
  {
    key in m && m[key] != Null
  }

  predicate IsArray(v: Value)
  {
    v.List? || v.Dict?
  }

  /** Decimal digits of a natural number, most significant first. */
  function NatToString(n: nat): (s: string)
    ensures |s| > 0
    ensures forall k :: 0 <= k < |s| ==> '0' <= s[k] <= '9'
    decreases n
  {
    var d := ['0' + (n % 10) as char];
    if n < 10 then d else NatToString(n / 10) + d
  }

  /** PHP's `(string)` of an int. */
  function IntToString(i: int): (s: string)
    ensures |s| > 0
  {
    if i < 0 then "-" + NatToString(-i) else NatToString(i)
  }

  predicate IsDigitChar(c: char)
  {
    '0' <= c <= '9'
  }

  /** The number of decimal digits `s` starts with. */
  function LeadingDigits(s: string): (n: nat)
    ensures n <= |s| && forall k :: 0 <= k < n ==> IsDigitChar(s[k])
    ensures n < |s| ==> !IsDigitChar(s[n])
  {
    if s != [] && IsDigitChar(s[0]) then 1 + LeadingDigits(s[1..]) else 0
  }

  /** The value of a string of decimal digits, most significant first. */
  function DigitsValue(ds: string): nat
    requires forall k :: 0 <= k < |ds| ==> IsDigitChar(ds[k])
  {
    if ds == [] then 0
    else
      assert IsDigitChar(ds[|ds| - 1]);
      DigitsValue(ds[..|ds| - 1]) * 10 + (ds[|ds| - 1] as int - '0' as int)
  }

  /** The whitespace PHP skips before a number in a string. */
  predicate IsNumberSpace(c: char)
  {
    c == ' ' || c == '\t' || c == '\n' || c == '\r' || c == 11 as char || c == 12 as char
  }

  function SkipNumberSpace(s: string): (r: string)
    ensures |r| <= |s| && (r != [] ==> !IsNumberSpace(r[0]))
  {
    if s != [] && IsNumberSpace(s[0]) then SkipNumberSpace(s[1..]) else s
  }

  /**
   * PHP 7's integer reading of a string (`(int)`, `%d`, and a string compared
   * with an int): leading whitespace, an optional sign, then the leading
   * decimal digits; a string without them reads as 0.
   */
  function StringToInt(s: string): int
  {
    var t := SkipNumberSpace(s);
    if t != [] && (t[0] == '-' || t[0] == '+') then
      var u := t[1..];
      var v: int := DigitsValue(u[..LeadingDigits(u)]);
      if t[0] == '-' then -v else v
    else DigitsValue(t[..LeadingDigits(t)])
  }

  lemma {:induction false} AllDigitsLead(ds: string)
    requires forall k :: 0 <= k < |ds| ==> IsDigitChar(ds[k])
    ensures LeadingDigits(ds) == |ds|
    decreases |ds|
  {
    if ds != [] {
      AllDigitsLead(ds[1..]);
    }
  }

  lemma {:induction false} NatToStringValue(n: nat)
    ensures DigitsValue(NatToString(n)) == n
    decreases n
  {
    var s := NatToString(n);
    if n >= 10 {
      NatToStringValue(n / 10);
      assert s[..|s| - 1] == NatToString(n / 10);
    } else {
      assert s[..|s| - 1] == [];
    }
  }

  lemma DigitsRead(ds: string)
    requires ds != [] && forall k :: 0 <= k < |ds| ==> IsDigitChar(ds[k])
    ensures SkipNumberSpace(ds) == ds
    ensures ds[..LeadingDigits(ds)] == ds
  {
    AllDigitsLead(ds);
  }

  lemma NatStringReads(n: nat)
    ensures StringToInt(NatToString(n)) == n
  {
    var ds := NatToString(n);
    DigitsRead(ds);
    NatToStringValue(n);
  }

  lemma NegativeStringReads(n: nat)
    requires n > 0
    ensures StringToInt("-" + NatToString(n)) == -(n as int)
  {
    var ds := NatToString(n);
    var t := "-" + ds;
    assert SkipNumberSpace(t) == t;
    assert t[1..] == ds;
    DigitsRead(ds);
    NatToStringValue(n);
  }

  /** Reading back the string form of an int gives the int. */
  lemma StringToIntOfIntToString(i: int)
    ensures StringToInt(IntToString(i)) == i
  {
    if i < 0 {
      NegativeStringReads(-i);
    } else {
      NatStringReads(i);
    }
  }

  /**
   * PHP 7's `$word == $v` for a word that is not a numeric string: against an
   * int the word reads as a number, against a bool as its truthiness, against
   * null as empty, against a string as text; an array equals no string.
   */
  predicate LooselyEqualsWord(word: string, v: Value)
  {
    match v
    case Null => word == ""
    case Bool(b) => b == TruthyString(word)
    case Int(i) => StringToInt(word) == i
    case Str(s) => s == word
    case List(_) => false
    case Dict(_) => false
  }

  /** PHP 7's loose `in_array($word, $v)`; it is false when `$v` is not an array. */
  predicate InArray(word: string, v: Value)
  {
    (v.List? && exists k :: 0 <= k < |v.items| && LooselyEqualsWord(word, v.items[k])) ||
    (v.Dict? && exists key :: key in v.entries && LooselyEqualsWord(word, v.entries[key]))
  }

  /** PHP's `(string)` conversion of a scalar; arrays render as "Array". */
  function ToStr(v: Value): string
  {
    match v
    case Null => ""
    case Bool(b) => if b then "1" else ""
    case Int(i) => IntToString(i)
    case Str(s) => s
    case List(_) => "Array"
    case Dict(_) => "Array"
  }

  /** `$array[$key]` as a string is interpolated into a command (`sprintf('%s')`, `.`). */
  function Text(m: map<string, Value>, key: string): (r: string)
    ensures key in m && m[key].Str? ==> r == m[key].s
    ensures key !in m ==> r == ""
  {
    ToStr(Lookup(m, key))
  }

  /** The items of a list, each in its string form, in order (what `implode` joins and
      what a string parameter receives); anything that is not a list has no items. */
  function Strings(v: Value): (r: seq<string>)
    ensures v.List? ==> |r| == |v.items| && forall k :: 0 <= k < |v.items| ==> r[k] == ToStr(v.items[k])
    ensures !v.List? ==> r == []
  {
    if v.List? then Texts(v.items) else []
  }

  /** The string forms of a sequence of values. */
  function Texts(xs: seq<Value>): (r: seq<string>)
    ensures |r| == |xs| && forall k :: 0 <= k < |xs| ==> r[k] == ToStr(xs[k])
  {
    seq(|xs|, k requires 0 <= k < |xs| => ToStr(xs[k]))
  }

  function StrList(xs: seq<string>): (v: Value)
    ensures v.List? && |v.items| == |xs|
  {
    List(seq(|xs|, k requires 0 <= k < |xs| => Str(xs[k])))
  }

  lemma StringsOfStrList(xs: seq<string>)
    ensures Strings(StrList(xs)) == xs
  {
  }

  /** PHP `in_array` on a list of strings. */
  predicate InList(x: string, xs: seq<string>)
  {
    exists k :: 0 <= k < |xs| && xs[k] == x
  }

  /** PHP `implode($sep, $xs)`. */
  function Join(xs: seq<string>, sep: string): string
  {
    if xs == [] then ""
    else if |xs| == 1 then xs[0]
    else xs[0] + sep + Join(xs[1..], sep)
  }

  /** The characters PHP's `trim` removes by default. */
  predicate IsTrimChar(c: char)
  {
    c == ' ' || c == '\t' || c == '\n' || c == '\r' || c == '\0' || c == 11 as char
  }

  function TrimLeft(s: string): (r: string)
    ensures |r| <= |s|
    ensures r == [] || !IsTrimChar(r[0])
  {
    if s != [] && IsTrimChar(s[0]) then TrimLeft(s[1..]) else s
  }

  function TrimRight(s: string): (r: string)
    ensures |r| <= |s|
    ensures r == [] || !IsTrimChar(r[|r| - 1])
  {
    if s != [] && IsTrimChar(s[|s| - 1]) then TrimRight(s[..|s| - 1]) else s
  }

  /** PHP `trim`. */
  function Trim(s: string): string
  {
    TrimRight(TrimLeft(s))
  }

  function LowerChar(c: char): char
  {
    if 'A' <= c <= 'Z' then (c as int + 32) as char else c
  }

  /** PHP `strtolower` on ASCII letters. */
  function Lower(s: string): (r: string)
    ensures |r| == |s|
    ensures forall k :: 0 <= k < |s| ==> r[k] == LowerChar(s[k])
  {
    seq(|s|, k requires 0 <= k < |s| => LowerChar(s[k]))
  }

  /** PHP `str_replace($from, $to, $s)` for one-character search and replacement. */
  function ReplaceChar(s: string, from: char, to: char): (r: string)
    ensures |r| == |s|
    ensures forall k :: 0 <= k < |s| ==> r[k] == (if s[k] == from then to else s[k])
  {
    seq(|s|, k requires 0 <= k < |s| => if s[k] == from then to else s[k])
  }

  predicate OccursAt(s: string, pat: string, k: nat)
  {
    k + |pat| <= |s| && s[k..k + |pat|] == pat
  }

  /** PHP `strpos`: the first position at which `pat` occurs, searching from `from`. */
  function IndexOfFrom(s: string, pat: string, from: nat): (r: Option<nat>)
    ensures r.Some? ==> from <= r.value && OccursAt(s, pat, r.value)
    ensures r.Some? ==> forall k :: from <= k < r.value ==> !OccursAt(s, pat, k)
    ensures r.None? ==> forall k :: from <= k ==> !OccursAt(s, pat, k)
    decreases |s| - from
  {
    if from + |pat| > |s| then None
    else if OccursAt(s, pat, from) then Some(from)
    else IndexOfFrom(s, pat, from + 1)
  }

  function IndexOf(s: string, pat: string): Option<nat>
  {
    IndexOfFrom(s, pat, 0)
  }

  /** The path without its trailing run of slashes. */
  function TrimTrailingSlashes(s: string): (r: string)
    ensures r <= s && (r == [] || r[|r| - 1] != '/')
    ensures forall k :: |r| <= k < |s| ==> s[k] == '/'
  {
    if s != [] && s[|s| - 1] == '/' then TrimTrailingSlashes(s[..|s| - 1]) else s
  }

  /** The path without its last name (the trailing run of non-slash characters). */
  function TrimLastName(s: string): (r: string)
    ensures r <= s && (r == [] || r[|r| - 1] == '/')
    ensures forall k :: |r| <= k < |s| ==> s[k] != '/'
  {
    if s != [] && s[|s| - 1] != '/' then TrimLastName(s[..|s| - 1]) else s
  }

  /**
   * PHP `dirname` on a Unix path: trailing slashes go (only slashes give "/"),
   * then the last name (no slash gives "."), then the slashes before it
   * (nothing left gives "/"). The empty path stays empty.
   */
  function Dirname(path: string): (r: string)
    ensures path == [] <==> r == []
    ensures r == "/" || r == "." || (r < path && r[|r| - 1] != '/') || path == []
  {
    if path == [] then []
    else
      var named := TrimTrailingSlashes(path);
      if named == [] then "/"
      else
        var parent := TrimLastName(named);
        if parent == [] then "."
        else
          var dir := TrimTrailingSlashes(parent);
          if dir == [] then "/" else dir
  }

  lemma {:induction false} TrimTrailingSlashesOf(d: string, slashes: string)
    requires d == [] || d[|d| - 1] != '/'
    requires forall k :: 0 <= k < |slashes| ==> slashes[k] == '/'
    ensures TrimTrailingSlashes(d + slashes) == d
  {
    if slashes != [] {
      assert (d + slashes)[..|d + slashes| - 1] == d + slashes[..|slashes| - 1];
      TrimTrailingSlashesOf(d, slashes[..|slashes| - 1]);
    } else {
      assert d + slashes == d;
    }
  }

  lemma {:induction false} TrimLastNameOf(p: string, name: string)
    requires p == [] || p[|p| - 1] == '/'
    requires forall k :: 0 <= k < |name| ==> name[k] != '/'
    ensures TrimLastName(p + name) == p
  {
    if name != [] {
      assert (p + name)[..|p + name| - 1] == p + name[..|name| - 1];
      TrimLastNameOf(p, name[..|name| - 1]);
    } else {
      assert p + name == p;
    }
  }

  /**
   * A directory, one or more slashes and a file name: `dirname` gives back the
   * directory with its own trailing slashes removed ("/" when that leaves nothing).
   */
  lemma DirnameOfJoin(dir: string, slashes: string, name: string)
    requires slashes != [] && forall k :: 0 <= k < |slashes| ==> slashes[k] == '/'
    requires name != [] && forall k :: 0 <= k < |name| ==> name[k] != '/'
    ensures var d := TrimTrailingSlashes(dir);
            Dirname(dir + slashes + name) == if d == [] then "/" else d
  {
    var parent := dir + slashes;
    var path := parent + name;
    assert path[|path| - 1] == name[|name| - 1];
    assert TrimTrailingSlashes(path) == path;
    assert parent[|parent| - 1] == '/';
    TrimLastNameOf(parent, name);
    TrimMoreSlashes(dir, slashes);
  }

  lemma TrimMoreSlashes(dir: string, slashes: string)
    requires forall k :: 0 <= k < |slashes| ==> slashes[k] == '/'
    ensures TrimTrailingSlashes(dir + slashes) == TrimTrailingSlashes(dir)
  {
    var d := TrimTrailingSlashes(dir);
    var tail := dir[|d|..] + slashes;
    assert dir + slashes == d + tail by { assert dir == d + dir[|d|..]; }
    TrimTrailingSlashesOf(d, tail);
  }

  /** PHP `strrpos` for a single character. */
  function LastIndexOfChar(s: string, c: char): (r: Option<nat>)
    ensures r.Some? ==> r.value < |s|
  {
    LastIndexBefore(s, c, |s|)
  }

  /** The last position before `n` holding `c`. */
  function LastIndexBefore(s: string, c: char, n: nat): (r: Option<nat>)
    requires n <= |s|
    ensures r.Some? ==> r.value < n
  {
    if n == 0 then None
    else if s[n - 1] == c then Some(n - 1)
    else LastIndexBefore(s, c, n - 1)
  }

  /** `strrpos` finds the last occurrence, and reports none only when there is none. */
  lemma LastIndexOfCharFinds(s: string, c: char)
    ensures var r := LastIndexOfChar(s, c);
            (r.Some? ==> s[r.value] == c && forall k :: r.value < k < |s| ==> s[k] != c) &&
            (r.None? ==> forall k :: 0 <= k < |s| ==> s[k] != c)
  {
    LastIndexBeforeFinds(s, c, |s|);
  }

  lemma {:induction false} LastIndexBeforeFinds(s: string, c: char, n: nat)
    requires n <= |s|
    ensures var r := LastIndexBefore(s, c, n);
            (r.Some? ==> s[r.value] == c && forall k :: r.value < k < n ==> s[k] != c) &&
            (r.None? ==> forall k :: 0 <= k < n ==> s[k] != c)
    decreases n
  {
    if n > 0 && s[n - 1] != c {
      LastIndexBeforeFinds(s, c, n - 1);
    }
  }

  /** Regrouping a single element between two sequences. */
  lemma AppendCons<T>(a: seq<T>, x: T, b: seq<T>)
    ensures a + ([x] + b) == (a + [x]) + b
  {
  }

  lemma AppendAssoc<T>(a: seq<T>, b: seq<T>, c: seq<T>)
    ensures a + (b + c) == (a + b) + c
  {
  }

  /** Appending elements one at a time is appending them all at once. */
  lemma AppendTwo<T>(s: seq<T>, a: T, b: T)
    ensures s + [a] + [b] == s + [a, b]
  {
  }

  lemma AppendThree<T>(s: seq<T>, a: T, b: T, c: T)
    ensures s + [a] + [b] + [c] == s + [a, b, c]
  {
  }

  lemma AppendOneThenTwo<T>(s: seq<T>, a: T, b: T, c: T)
    ensures s + [a] + [b, c] == s + [a, b, c]
  {
  }

  lemma AppendFive<T>(s: seq<T>, a: T, b: T, c: T, d: T, e: T)
    ensures s + [a] + [b] + [c] + [d] + [e] == s + [a, b, c, d, e]
  {
  }
}
