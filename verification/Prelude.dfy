/** Shared vocabulary: optional values, and the JSON values the backend stores and validates. */
module Prelude {

  datatype Option<+T> = None | Some(value: T)

  /** `needle in haystack`. */
  predicate Contains(haystack: string, needle: string) {
    needle <= haystack || (haystack != "" && Contains(haystack[1..], needle))
  }

  /** The needle is found at some place of the haystack. */
  ghost predicate Occurs(haystack: string, needle: string) {
    exists i :: 0 <= i <= |haystack| - |needle| && haystack[i..][..|needle|] == needle
  }

  lemma {:induction false} ContainsExactly(haystack: string, needle: string)
    ensures Contains(haystack, needle) <==> Occurs(haystack, needle)
  {
    if needle <= haystack {
      assert haystack[0..][..|needle|] == needle;
    } else if haystack != "" {
      ContainsExactly(haystack[1..], needle);
      if i :| 0 <= i <= |haystack[1..]| - |needle| && haystack[1..][i..][..|needle|] == needle {
        assert haystack[1..][i..] == haystack[i + 1..];
      }
      if i :| 0 <= i <= |haystack| - |needle| && haystack[i..][..|needle|] == needle {
        assert i > 0 && haystack[1..][i - 1..] == haystack[i..];
      }
    }
  }

  /** No element occurs twice. */
  ghost predicate Distinct<T>(s: seq<T>) {
    forall i, j :: 0 <= i < j < |s| ==> s[i] != s[j]
  }

  /** Everything in `s`, whatever the order. */
  ghost function Elements<T>(s: seq<T>): set<T> {
    set x | x in s
  }

  /** More places than values: two places hold the same value. */
  lemma {:induction false} Pigeonhole<T>(s: seq<T>, values: set<T>) returns (i: nat, j: nat)
    requires |s| > |values|
    requires forall k :: 0 <= k < |s| ==> s[k] in values
    ensures i < j < |s| && s[i] == s[j]
    decreases |s|
  {
    var last := s[|s| - 1];
    if k :| 0 <= k < |s| - 1 && s[k] == last {
      i, j := k, |s| - 1;
    } else {
      var smaller := values - {last};
      var front := s[..|s| - 1];
      assert forall k :: 0 <= k < |front| ==> front[k] in smaller;
      i, j := Pigeonhole(front, smaller);
    }
  }

  lemma SubsetSize<T>(small: set<T>, big: set<T>)
    requires small <= big
    ensures |small| <= |big|
  {
    assert big == small + (big - small);
  }

  /** Distinct places fill at least as many values. */
  lemma {:induction false} DistinctElements<T>(s: seq<T>)
    requires Distinct(s)
    ensures |Elements(s)| == |s|
  {
    if |s| > 0 {
      var front := s[..|s| - 1];
      assert Distinct(front);
      DistinctElements(front);
      assert s == front + [s[|s| - 1]];
      assert Elements(s) == Elements(front) + {s[|s| - 1]};
      assert s[|s| - 1] !in Elements(front);
    }
  }
}

/** JSON values as Python's json module produces them, with the equality Python uses on them. */
module Json {
  import opened Prelude

  datatype Value =
    | Null
    | Bool(b: bool)
    | Int(i: int)
    | Float(r: real)
    | Str(s: string)
    | List(items: seq<Value>)
    | Obj(fields: Object)

  type Object = map<string, Value>

  /** `dict.get(key)`: an absent key reads as None. */
  function Get(o: Object, key: string): Value {
    if key in o then o[key] else Null
  }

  /** Python's `value == n` for an integer `n`: True is 1 and 1.0 is 1. */
  predicate EqualsInt(v: Value, n: int) {
    match v
    case Bool(b) => (if b then 1 else 0) == n
    case Int(i) => i == n
    case Float(r) => r == n as real
    case _ => false
  }
}
