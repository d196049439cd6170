/**
 * The PHP string built-ins that NewClass.php relies on: `empty()` on a
 * string, `str_replace` with string and with array arguments, and
 * `lcfirst`. PHP strings are byte strings; here they are `seq<char>`.
 */
module PhpStrings {

  /**
   * PHP's `empty()` applied to a string: true for "" and for "0", so it is
   * wider than comparing with "" by exactly the one-character string "0".
   */
  predicate Empty(s: string)
    ensures Empty(s) <==> |s| <= 1 && forall i :: 0 <= i < |s| ==> s[i] == '0'
  {
    s == "" || s == "0"
  }

  /** `pat` occurs in `s` at some position. */
  predicate Occurs(pat: string, s: string) {
    exists i :: 0 <= i <= |s| && pat <= s[i..]
  }

  /** No occurrence of `pat` in `x + rest` starts inside `x`. */
  predicate NoMatchWithin(pat: string, x: string, rest: string) {
    forall i :: 0 <= i < |x| ==> !(pat <= (x + rest)[i..])
  }

  /**
   * `str_replace($search, $replace, $subject)` with string arguments: the
   * subject is scanned left to right and every non-overlapping occurrence of
   * `search` is replaced; an empty search string leaves the subject as it is.
   */
  function StrReplace(search: string, replace: string, subject: string): (r: string)
    ensures search == "" || subject == "" ==> r == subject
    ensures |search| == |replace| ==> |r| == |subject|
    decreases |subject|
  {
    if |search| == 0 || subject == [] then subject
    else if search <= subject then replace + StrReplace(search, replace, subject[|search|..])
    else [subject[0]] + StrReplace(search, replace, subject[1..])
  }

  /**
   * `str_replace($search, $replace, $subject)` with two arrays: each search
   * string in turn is replaced, in the result of the previous pass, by the
   * replacement at the same index, or by "" once the replacements run out.
   */
  function StrReplaceEach(search: seq<string>, replace: seq<string>, subject: string): (r: string)
    ensures subject == "" ==> r == ""
    ensures search == [] ==> r == subject
    decreases |search|
  {
    if search == [] then subject
    else
      var r := if replace == [] then "" else replace[0];
      var rest := if replace == [] then [] else replace[1..];
      StrReplaceEach(search[1..], rest, StrReplace(search[0], r, subject))
  }

  /** The ASCII lower-casing that `lcfirst` applies to one byte. */
  function Lower(c: char): (r: char)
    ensures 'A' <= c <= 'Z' ==> 'a' <= r <= 'z' && r as int == c as int + 32
    ensures !('A' <= c <= 'Z') ==> r == c
  {
    if 'A' <= c <= 'Z' then (c as int + 32) as char else c
  }

  /** `lcfirst`: lower-cases the first character only. */
  function Lcfirst(s: string): (r: string)
    ensures |r| == |s|
    ensures forall i :: 1 <= i < |s| ==> r[i] == s[i]
    ensures s != [] ==> r[0] == Lower(s[0])
  {
    if s == [] then s else [Lower(s[0])] + s[1..]
  }

  // ---------------------------------------------------------------------
  // Properties of the primitives
  // ---------------------------------------------------------------------

  /** `lcfirst` applied twice is `lcfirst` applied once. */
  lemma LcfirstIdempotent(s: string)
    ensures Lcfirst(Lcfirst(s)) == Lcfirst(s)
  {
    if s != [] {
      assert Lower(Lower(s[0])) == Lower(s[0]);
      assert Lcfirst(Lcfirst(s)) == [Lower(Lower(s[0]))] + Lcfirst(s)[1..];
    }
  }

  /** `lcfirst` introduces and removes no underscore. */
  lemma LcfirstKeepsUnderscores(s: string)
    ensures ('_' in Lcfirst(s)) == ('_' in s)
  {
    if s != [] {
      assert Lcfirst(s) == [Lower(s[0])] + s[1..];
      assert s == [s[0]] + s[1..];
    }
  }

  /** Replacing a string that does not occur returns the subject unchanged. */
  lemma {:induction false} StrReplaceAbsent(search: string, replace: string, subject: string)
    requires !Occurs(search, subject)
    ensures StrReplace(search, replace, subject) == subject
    decreases |subject|
  {
    if |search| == 0 || subject == [] {
    } else {
      assert subject[0..] == subject;
      assert !(search <= subject);
      forall i | 0 <= i <= |subject[1..]|
        ensures !(search <= subject[1..][i..])
      {
        assert subject[1..][i..] == subject[i + 1..];
      }
      StrReplaceAbsent(search, replace, subject[1..]);
    }
  }

  /** A prefix inside which no occurrence starts is copied through unchanged. */
  lemma {:induction false} StrReplaceSkip(search: string, replace: string, x: string, rest: string)
    requires |search| > 0
    requires NoMatchWithin(search, x, rest)
    ensures StrReplace(search, replace, x + rest) == x + StrReplace(search, replace, rest)
    decreases |x|
  {
    if x == [] {
      assert x + rest == rest;
    } else {
      var s := x + rest;
      assert s[0..] == s;
      assert !(search <= s);
      assert s[1..] == x[1..] + rest;
      forall i | 0 <= i < |x[1..]|
        ensures !(search <= (x[1..] + rest)[i..])
      {
        assert (x[1..] + rest)[i..] == s[i + 1..];
      }
      StrReplaceSkip(search, replace, x[1..], rest);
      assert x == [x[0]] + x[1..];
    }
  }

  /** An occurrence at the start is replaced and the scan resumes after it. */
  lemma StrReplaceAtStart(search: string, replace: string, rest: string)
    requires |search| > 0
    ensures StrReplace(search, replace, search + rest) == replace + StrReplace(search, replace, rest)
  {
    assert search <= search + rest;
    assert (search + rest)[|search|..] == rest;
  }

  /** A text without the first character of the search string is copied through. */
  lemma StrReplaceSkipFree(search: string, replace: string, x: string, rest: string)
    requires |search| > 0 && search[0] !in x
    ensures StrReplace(search, replace, x + rest) == x + StrReplace(search, replace, rest)
  {
    forall i | 0 <= i < |x|
      ensures !(search <= (x + rest)[i..])
    {
      assert (x + rest)[i..][0] == x[i];
    }
    StrReplaceSkip(search, replace, x, rest);
  }

  /**
   * Replacing one character by one character maps the subject character by
   * character: the length is kept, every occurrence of `a` becomes `b` and
   * every other character is left where it was.
   */
  lemma {:induction false} StrReplaceChar(a: char, b: char, s: string)
    ensures |StrReplace([a], [b], s)| == |s|
    ensures forall i :: 0 <= i < |s| ==>
      StrReplace([a], [b], s)[i] == if s[i] == a then b else s[i]
    decreases |s|
  {
    if s != [] {
      StrReplaceChar(a, b, s[1..]);
      var r := StrReplace([a], [b], s[1..]);
      if [a] <= s {
        assert s[1..] == s[|[a]|..];
        assert StrReplace([a], [b], s) == [b] + r;
      } else {
        assert StrReplace([a], [b], s) == [s[0]] + r;
      }
    }
  }

  /** An array replacement in which no search string occurs changes nothing. */
  lemma {:induction false} StrReplaceEachAbsent(search: seq<string>, replace: seq<string>, subject: string)
    requires forall i :: 0 <= i < |search| ==> !Occurs(search[i], subject)
    ensures StrReplaceEach(search, replace, subject) == subject
    decreases |search|
  {
    if search != [] {
      var r := if replace == [] then "" else replace[0];
      var rest := if replace == [] then [] else replace[1..];
      StrReplaceAbsent(search[0], r, subject);
      assert forall i :: 0 <= i < |search[1..]| ==> search[1..][i] == search[i + 1];
      StrReplaceEachAbsent(search[1..], rest, subject);
    }
  }
}
