/** Lookup of a key in the handle's environment list (App.LookupEnv).

    The source fans the search out over one goroutine per entry and takes the first value
    any of them sends; here the search is a sequential scan, and the specification
    (`Admissible`) allows every value a racing goroutine could have delivered. */
module Env {

  /** The separator between the key and the value of an environment entry. */
  const Separator := '='

  /** Splits `s` at the first occurrence of `sep`, as strings.SplitN(s, sep, 2) does for a
      one-character separator: a single part when `sep` does not occur in `s`, otherwise the
      text before the first `sep` and everything after it. */
  function SplitOnce(s: string, sep: char): (parts: seq<string>)
    ensures |parts| == 1 || |parts| == 2
    ensures |parts| == 1 <==> sep !in s
    ensures |parts| == 1 ==> parts[0] == s
    ensures |parts| == 2 ==> sep !in parts[0] && parts[0] + [sep] + parts[1] == s
  {
    if s == [] then [s]
    else if s[0] == sep then [[], s[1..]]
    else
      var rest := SplitOnce(s[1..], sep);
      assert s == [s[0]] + s[1..];
      if |rest| == 1 then [s]
      else
        assert [s[0]] + rest[0] + [sep] + rest[1] == [s[0]] + (rest[0] + [sep] + rest[1]);
        [[s[0]] + rest[0], rest[1]]
  }

  /** The entry `entry` defines `key` with value `value`: it reads `key=value`, and `key`
      holds no `=`, so the `=` after the key is the first one of the entry. This is the
      reference definition, independent of how the entry is split. */
  predicate Matches(entry: string, key: string, value: string) {
    Separator !in key && entry == key + [Separator] + value
  }

  /** Some entry of `environment` defines `key`. */
  ghost predicate Defines(environment: seq<string>, key: string) {
    exists i, v :: 0 <= i < |environment| && Matches(environment[i], key, v)
  }

  /** The results LookupEnv may return: the empty string and false when the context was
      already cancelled or no entry defines `key`; otherwise true with the value of SOME
      entry that defines `key` (with duplicate keys any of them may win). */
  ghost predicate Admissible(environment: seq<string>, key: string, cancelled: bool, value: string, found: bool) {
    if cancelled || !Defines(environment, key) then value == "" && !found
    else found && exists i :: 0 <= i < |environment| && Matches(environment[i], key, value)
  }

  /** A string that starts with a separator-free part followed by the separator determines
      that part and the rest. */
  lemma {:induction false} FirstSeparatorUnique(a: string, b: string, c: string, d: string, sep: char)
    requires sep !in a && sep !in c
    requires a + [sep] + b == c + [sep] + d
    ensures a == c && b == d
  {
    var s := a + [sep] + b;
    assert s[|a|] == sep && s[|c|] == sep;
    assert forall k :: 0 <= k < |a| ==> s[k] == a[k];
    assert forall k :: 0 <= k < |c| ==> s[k] == c[k];
    assert |a| == |c|;
    assert a == s[..|a|];
    assert c == s[..|c|];
    assert b == s[|a| + 1..];
    assert d == s[|c| + 1..];
  }

  /** Splitting an entry at its first `=` gives `[key, value]` exactly when the entry
      defines `key` with `value`. */
  lemma SplitOnceMatches(entry: string, key: string, value: string)
    ensures SplitOnce(entry, Separator) == [key, value] <==> Matches(entry, key, value)
  {
    var parts := SplitOnce(entry, Separator);
    if Matches(entry, key, value) {
      assert Separator in entry by {
        assert entry[|key|] == Separator;
      }
      FirstSeparatorUnique(parts[0], parts[1], key, value, Separator);
    }
  }

  /** An entry defines a key with at most one value. */
  lemma MatchesFunctional(entry: string, key: string, v1: string, v2: string)
    requires Matches(entry, key, v1) && Matches(entry, key, v2)
    ensures v1 == v2
  {
    FirstSeparatorUnique(key, v1, key, v2, Separator);
  }

  /** An entry that differs from `key` somewhere within the key's length does not define
      `key`. */
  lemma DiffersFromKey(entry: string, key: string, k: int)
    requires 0 <= k < |key| && k < |entry| && entry[k] != key[k]
    ensures forall v :: !Matches(entry, key, v)
  {
  }

  /** The sequential model of LookupEnv: every entry is split at its first `=` and its key
      part compared with `key`, unless the context was cancelled when the call was made;
      the value part of a matching entry is the result. */
  method Lookup(environment: seq<string>, key: string, cancelled: bool) returns (value: string, found: bool)
    ensures Admissible(environment, key, cancelled, value, found)
  {
    value, found := "", false;
    var i := 0;
    while i < |environment| && !found
      invariant 0 <= i <= |environment|
      invariant cancelled ==> !found && value == ""
      invariant !found ==> value == ""
      invariant !found && !cancelled ==> forall j, v :: 0 <= j < i ==> !Matches(environment[j], key, v)
      invariant found ==> exists j :: 0 <= j < i && Matches(environment[j], key, value)
    {
      if !cancelled {
        var parts := SplitOnce(environment[i], Separator);
        if |parts| == 2 && parts[0] == key {
          value, found := parts[1], true;
          SplitOnceMatches(environment[i], key, value);
        } else {
          forall v ensures !Matches(environment[i], key, v) {
            SplitOnceMatches(environment[i], key, v);
          }
        }
      }
      i := i + 1;
    }
  }

  /** LookupEnv reports a value only when the context was not cancelled and some entry,
      split at its first `=`, has key part `key` and value part `value`; and whenever that
      holds, reporting `value` is a possible outcome. */
  lemma FoundIff(environment: seq<string>, key: string, cancelled: bool, value: string)
    ensures Admissible(environment, key, cancelled, value, true) <==>
      !cancelled && exists i :: 0 <= i < |environment| && SplitOnce(environment[i], Separator) == [key, value]
  {
    if Admissible(environment, key, cancelled, value, true) {
      var i :| 0 <= i < |environment| && Matches(environment[i], key, value);
      SplitOnceMatches(environment[i], key, value);
    }
    if !cancelled && exists i :: 0 <= i < |environment| && SplitOnce(environment[i], Separator) == [key, value] {
      var i :| 0 <= i < |environment| && SplitOnce(environment[i], Separator) == [key, value];
      SplitOnceMatches(environment[i], key, value);
    }
  }

  /** LookupEnv reports nothing, and the empty string, exactly when the context was cancelled
      or no entry's key part (text before its first `=`) equals `key`; entries without `=`
      never count. */
  lemma NotFoundIff(environment: seq<string>, key: string, cancelled: bool, value: string)
    ensures Admissible(environment, key, cancelled, value, false) <==>
      value == "" &&
      (cancelled || forall i :: 0 <= i < |environment| ==>
         var parts := SplitOnce(environment[i], Separator); |parts| == 1 || parts[0] != key)
  {
    if !cancelled && Defines(environment, key) {
      var i, v :| 0 <= i < |environment| && Matches(environment[i], key, v);
      SplitOnceMatches(environment[i], key, v);
    }
    if !cancelled && !Defines(environment, key) {
      forall i | 0 <= i < |environment|
        ensures var parts := SplitOnce(environment[i], Separator); |parts| == 1 || parts[0] != key
      {
        var parts := SplitOnce(environment[i], Separator);
        if |parts| == 2 && parts[0] == key {
          SplitOnceMatches(environment[i], key, parts[1]);
        }
      }
    }
  }

  /** When exactly one entry defines `key`, LookupEnv has a single possible result: that
      entry's value, and true (unless the context was cancelled). */
  lemma UniqueKeyDetermined(environment: seq<string>, key: string, i: int, v: string, value: string, found: bool)
    requires 0 <= i < |environment| && Matches(environment[i], key, v)
    requires forall j, w :: 0 <= j < |environment| && j != i ==> !Matches(environment[j], key, w)
    ensures Admissible(environment, key, false, value, found) <==> value == v && found
  {
    if Admissible(environment, key, false, value, found) {
      var j :| 0 <= j < |environment| && Matches(environment[j], key, value);
      MatchesFunctional(environment[i], key, v, value);
    }
  }

  /** With duplicate definitions of `key`, the value of every one of them is a possible
      result: the model does not fix which racing goroutine wins. */
  lemma AnyDefinitionAdmissible(environment: seq<string>, key: string, i: int, v: string)
    requires 0 <= i < |environment| && Matches(environment[i], key, v)
    ensures Admissible(environment, key, false, v, true)
  {
  }

  /** A key that itself holds `=` is never found: the entry is split at its first `=`. */
  lemma KeyWithSeparatorNeverFound(environment: seq<string>, key: string, value: string)
    requires Separator in key
    ensures !Admissible(environment, key, false, value, true)
  {
  }

  /** Only the first `=` separates key from value: `A=b=c` defines `A` as `b=c`. */
  lemma ValueMayHoldSeparator(value: string, found: bool)
    ensures SplitOnce("A=b=c", Separator) == ["A", "b=c"]
    ensures Admissible(["A=b=c"], "A", false, value, found) <==> value == "b=c" && found
  {
    assert Matches("A=b=c", "A", "b=c");
    SplitOnceMatches("A=b=c", "A", "b=c");
    UniqueKeyDetermined(["A=b=c"], "A", 0, "b=c", value, found);
  }
}
