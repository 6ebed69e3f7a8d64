/**
 * String primitives the classifiers are built from: substring containment
 * (JavaScript `includes`, Python `in`), ASCII lower-casing (`toLowerCase`,
 * `lower()`), and the first-match searches behind `some`/`find` and the
 * `for ... of` loops that return on the first hit.
 */
module Strings {

  datatype Option<+T> = None | Some(value: T)

  /** `p` is a prefix of `s`. */
  predicate IsPrefix(p: string, s: string) {
    |p| <= |s| && s[..|p|] == p
  }

  /** `s.includes(p)`: `p` occurs somewhere in `s` (the empty string occurs everywhere). */
  predicate Contains(s: string, p: string)
    decreases |s|
  {
    IsPrefix(p, s) || (|s| > 0 && Contains(s[1..], p))
  }

  /** A string is non-empty, i.e. truthy in JavaScript and Python. */
  predicate Truthy(s: string) {
    s != ""
  }

  /** `s || fallback` for a string. */
  function OrElse(s: string, fallback: string): (r: string)
    ensures Truthy(fallback) ==> Truthy(r)
    ensures Truthy(s) ==> r == s
  {
    if Truthy(s) then s else fallback
  }

  // ---------------------------------------------------------------------
  // Containment facts

  /** An occurrence at index `i` is an occurrence. */
  lemma {:induction false} ContainsAt(s: string, p: string, i: nat)
    requires i + |p| <= |s| && s[i..i + |p|] == p
    ensures Contains(s, p)
  {
    if i == 0 {
      assert s[..|p|] == s[0..|p|];
    } else {
      assert s[1..][i - 1..i - 1 + |p|] == s[i..i + |p|];
      ContainsAt(s[1..], p, i - 1);
    }
  }

  /** Every occurrence sits at some index. */
  lemma {:induction false} ContainsWitness(s: string, p: string) returns (i: nat)
    requires Contains(s, p)
    ensures i + |p| <= |s| && s[i..i + |p|] == p
    decreases |s|
  {
    if IsPrefix(p, s) {
      i := 0;
    } else {
      var j := ContainsWitness(s[1..], p);
      assert s[1..][j..j + |p|] == s[j + 1..j + 1 + |p|];
      i := j + 1;
    }
  }

  /** A string contains nothing longer than itself. */
  lemma {:induction false} ContainsLength(s: string, p: string)
    requires Contains(s, p)
    ensures |p| <= |s|
    decreases |s|
  {
    if !IsPrefix(p, s) {
      ContainsLength(s[1..], p);
    }
  }

  lemma ContainsSelf(p: string)
    ensures Contains(p, p)
  {
    ContainsAt(p, p, 0);
  }

  /** An occurrence in `x` is an occurrence in `x + y`. */
  lemma ContainsInLeft(x: string, y: string, p: string)
    requires Contains(x, p)
    ensures Contains(x + y, p)
  {
    var i := ContainsWitness(x, p);
    assert (x + y)[i..i + |p|] == x[i..i + |p|];
    ContainsAt(x + y, p, i);
  }

  /** An occurrence in `y` is an occurrence in `x + y`. */
  lemma ContainsInRight(x: string, y: string, p: string)
    requires Contains(y, p)
    ensures Contains(x + y, p)
  {
    var i := ContainsWitness(y, p);
    assert (x + y)[|x| + i..|x| + i + |p|] == y[i..i + |p|];
    ContainsAt(x + y, p, |x| + i);
  }

  // ---------------------------------------------------------------------
  // Lower-casing (ASCII letters only)

  function LowerChar(c: char): char {
    if 'A' <= c <= 'Z' then (c as int + 32) as char else c
  }

  /** `s.toLowerCase()` restricted to the ASCII letters. */
  function ToLower(s: string): string {
    seq(|s|, i requires 0 <= i < |s| => LowerChar(s[i]))
  }

  /** No ASCII upper-case letter occurs in `s`. */
  predicate IsLower(s: string) {
    forall i :: 0 <= i < |s| ==> !('A' <= s[i] <= 'Z')
  }

  lemma ToLowerIsLower(s: string)
    ensures |ToLower(s)| == |s| && IsLower(ToLower(s))
  {
  }

  /** Lower-casing leaves a lower-case string alone, so it is idempotent. */
  lemma LowerFixesLower(s: string)
    requires IsLower(s)
    ensures ToLower(s) == s
  {
  }

  lemma ToLowerIdempotent(s: string)
    ensures ToLower(ToLower(s)) == ToLower(s)
  {
    ToLowerIsLower(s);
    LowerFixesLower(ToLower(s));
  }

  lemma ToLowerEmpty(s: string)
    ensures ToLower(s) == "" <==> s == ""
  {
  }

  /** `ToLower` distributes over concatenation. */
  lemma ToLowerConcat(x: string, y: string)
    ensures ToLower(x + y) == ToLower(x) + ToLower(y)
  {
  }

  // ---------------------------------------------------------------------
  // First-match searches

  /** `pats.some(p => text.includes(p))`. */
  predicate AnyContained(text: string, pats: seq<string>) {
    exists p :: p in pats && Contains(text, p)
  }

  /** `pats.find(p => text.includes(p))`: the first pattern, in list order, that occurs in `text`. */
  function FirstContained(text: string, pats: seq<string>): (r: Option<string>)
    ensures r.Some? <==> AnyContained(text, pats)
    ensures r.Some? ==> r.value in pats && Contains(text, r.value)
  {
    if pats == [] then None
    else if Contains(text, pats[0]) then Some(pats[0])
    else
      var rest := FirstContained(text, pats[1..]);
      assert forall p :: p in pats && p != pats[0] ==> p in pats[1..];
      rest
  }

  /** The pattern `FirstContained` reports is preceded only by patterns that do not occur. */
  lemma {:induction false} FirstContainedIsFirst(text: string, pats: seq<string>) returns (k: nat)
    requires FirstContained(text, pats).Some?
    ensures k < |pats| && pats[k] == FirstContained(text, pats).value
    ensures forall j :: 0 <= j < k ==> !Contains(text, pats[j])
  {
    if Contains(text, pats[0]) {
      k := 0;
    } else {
      var k' := FirstContainedIsFirst(text, pats[1..]);
      k := k' + 1;
    }
  }

  /** Skipping a leading pattern that does not occur leaves the search result alone. */
  lemma FirstContainedSkip(text: string, pats: seq<string>, i: nat)
    requires i < |pats| && !Contains(text, pats[i])
    ensures FirstContained(text, pats[i..]) == FirstContained(text, pats[i + 1..])
  {
    assert pats[i..][1..] == pats[i + 1..];
  }

  /** `some` over a list is true iff one of its entries occurs. */
  lemma AnyContainedIndex(text: string, pats: seq<string>, i: nat)
    requires i < |pats| && Contains(text, pats[i])
    ensures AnyContained(text, pats)
  {
  }

  /** The first `(key, value)` entry of a table whose key occurs in `text` (iteration in insertion order). */
  function FirstKeyContained(text: string, table: seq<(string, string)>): (r: Option<(string, string)>)
    ensures r.Some? ==> r.value in table && Contains(text, r.value.0)
    ensures r.None? ==> forall e :: e in table ==> !Contains(text, e.0)
  {
    if table == [] then None
    else if Contains(text, table[0].0) then Some(table[0])
    else
      var rest := FirstKeyContained(text, table[1..]);
      assert forall e :: e in table && e != table[0] ==> e in table[1..];
      rest
  }

  /** Skipping a leading entry whose key does not occur leaves the search result alone. */
  lemma FirstKeyContainedSkip(text: string, table: seq<(string, string)>, i: nat)
    requires i < |table| && !Contains(text, table[i].0)
    ensures FirstKeyContained(text, table[i..]) == FirstKeyContained(text, table[i + 1..])
  {
    assert table[i..][1..] == table[i + 1..];
  }

  /** The entry `FirstKeyContained` reports is preceded only by entries whose keys do not occur. */
  lemma {:induction false} FirstKeyContainedIsFirst(text: string, table: seq<(string, string)>) returns (k: nat)
    requires FirstKeyContained(text, table).Some?
    ensures k < |table| && table[k] == FirstKeyContained(text, table).value
    ensures forall j :: 0 <= j < k ==> !Contains(text, table[j].0)
  {
    if Contains(text, table[0].0) {
      k := 0;
    } else {
      var k' := FirstKeyContainedIsFirst(text, table[1..]);
      k := k' + 1;
    }
  }

  /** `TABLE[key]` for an object literal: the value recorded for `key`, if any. */
  function Lookup(table: seq<(string, string)>, key: string): (r: Option<string>)
    ensures r.Some? <==> exists e :: e in table && e.0 == key
    ensures r.Some? ==> (key, r.value) in table
  {
    if table == [] then None
    else if table[0].0 == key then Some(table[0].1)
    else
      var rest := Lookup(table[1..], key);
      assert forall e :: e in table && e != table[0] ==> e in table[1..];
      rest
  }
}
