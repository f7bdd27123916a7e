/** An optional value: the model's stand-in for TypeScript's `T | null` and for optional fields. */
module Wrappers {
  datatype Option<+T> = None | Some(value: T)
}

/** The JavaScript string operations the classifiers and validators rely on, over `seq<char>`. */
module Text {

  /** JavaScript's WhiteSpace and LineTerminator code points: the set `String.prototype.trim`
      strips and the regular-expression class `\s` matches. */
  predicate IsWhitespace(c: char) {
    (0x09 <= c as int <= 0x0D) || c as int == 0x20 || c as int == 0xA0 || c as int == 0x1680
    || (0x2000 <= c as int <= 0x200A) || c as int == 0x2028 || c as int == 0x2029
    || c as int == 0x202F || c as int == 0x205F || c as int == 0x3000 || c as int == 0xFEFF
  }

  predicate IsUpper(c: char) { 'A' <= c <= 'Z' }

  /** `toLowerCase` on one character, restricted to the ASCII letters. */
  function LowerChar(c: char): (d: char)
    ensures !IsUpper(d)
    ensures !IsUpper(c) ==> d == c
    ensures IsUpper(c) ==> 'a' <= d <= 'z' && d as int - c as int == 32
  {
    if IsUpper(c) then (c as int + 32) as char else c
  }

  /** `toLowerCase` on a string (ASCII letters only). */
  function ToLower(s: string): (r: string)
    ensures |r| == |s|
    ensures forall i :: 0 <= i < |s| ==> r[i] == LowerChar(s[i])
  {
    if s == [] then [] else [LowerChar(s[0])] + ToLower(s[1..])
  }

  lemma ToLowerIdempotent(s: string)
    ensures ToLower(ToLower(s)) == ToLower(s)
  {
  }

  lemma ToLowerHasNoUpper(s: string)
    ensures forall i :: 0 <= i < |s| ==> !IsUpper(ToLower(s)[i])
  {
  }

  /** `t` appears in `s` starting at index `i`. */
  ghost predicate OccursAt(s: string, t: string, i: int) {
    0 <= i && i + |t| <= |s| && s[i..i + |t|] == t
  }

  /** `s` begins with `t`, compared character by character. */
  function StartsWith(s: string, t: string): (r: bool)
    ensures r <==> OccursAt(s, t, 0)
  {
    if t == [] then
      true
    else if s == [] || s[0] != t[0] then
      assert s != [] && |t| <= |s| ==> s[..|t|][0] == s[0];
      false
    else
      var r := StartsWith(s[1..], t[1..]);
      assert |t| <= |s| ==> s[..|t|] == [s[0]] + s[1..][..|t| - 1];
      assert t == [t[0]] + t[1..];
      r
  }

  /** `String.prototype.includes`: `s` has `t` as a contiguous substring. */
  function Contains(s: string, t: string): (r: bool)
    ensures r <==> exists i :: OccursAt(s, t, i)
    decreases |s|
  {
    if StartsWith(s, t) then
      true
    else if s == [] then
      assert forall i :: OccursAt(s, t, i) ==> i == 0;
      false
    else
      var r := Contains(s[1..], t);
      ShiftOccurrence(s, t);
      r
  }

  /** Occurrences of `t` in `s` past index 0 are exactly the occurrences in `s[1..]`, shifted. */
  lemma ShiftOccurrence(s: string, t: string)
    requires |s| > 0
    ensures forall i :: OccursAt(s[1..], t, i) ==> OccursAt(s, t, i + 1)
    ensures forall i :: 1 <= i && OccursAt(s, t, i) ==> OccursAt(s[1..], t, i - 1)
  {
    forall i | OccursAt(s[1..], t, i)
      ensures OccursAt(s, t, i + 1)
    {
      assert s[1..][i..i + |t|] == s[i + 1..i + 1 + |t|];
    }
    forall i | 1 <= i && OccursAt(s, t, i)
      ensures OccursAt(s[1..], t, i - 1)
    {
      assert s[1..][i - 1..i - 1 + |t|] == s[i..i + |t|];
    }
  }

  /** An occurrence of `u` inside an occurrence of `w` is an occurrence of `u` in the whole string. */
  lemma OccursWithin(s: string, w: string, u: string, i: int, j: int)
    requires OccursAt(s, w, i) && OccursAt(w, u, j)
    ensures OccursAt(s, u, i + j)
  {
    forall k | 0 <= k < |u|
      ensures s[i + j + k] == u[k]
    {
      assert u[k] == w[j..j + |u|][k] == w[j + k];
      assert w[j + k] == s[i..i + |w|][j + k];
    }
  }

  /** A string that lacks some character of `t` cannot contain `t`. */
  lemma MissingCharNotContained(s: string, t: string, k: int)
    requires 0 <= k < |t| && t[k] !in s
    ensures !Contains(s, t)
  {
    forall i | 0 <= i && i + |t| <= |s|
      ensures !OccursAt(s, t, i)
    {
      assert s[i..i + |t|][k] == s[i + k];
    }
  }

  /** `String.prototype.endsWith`: `suffix` occurs at the last possible index of `s`. */
  predicate EndsWith(s: string, suffix: string)
    ensures EndsWith(s, suffix) <==> OccursAt(s, suffix, |s| - |suffix|)
    ensures EndsWith(s, suffix) ==> Contains(s, suffix)
  {
    |suffix| <= |s| && s[|s| - |suffix|..] == suffix
  }

  /** `trimStart`: drops the leading whitespace. */
  function TrimStart(s: string): (r: string)
    ensures |r| <= |s| && r == s[|s| - |r|..]
    ensures forall k :: 0 <= k < |s| - |r| ==> IsWhitespace(s[k])
    ensures r == [] || !IsWhitespace(r[0])
  {
    if s != [] && IsWhitespace(s[0]) then TrimStart(s[1..]) else s
  }

  /** `trimEnd`: drops the trailing whitespace. */
  function TrimEnd(s: string): (r: string)
    ensures |r| <= |s| && r == s[..|r|]
    ensures forall k :: |r| <= k < |s| ==> IsWhitespace(s[k])
    ensures r == [] || !IsWhitespace(r[|r| - 1])
  {
    if s != [] && IsWhitespace(s[|s| - 1]) then TrimEnd(s[..|s| - 1]) else s
  }

  /** `String.prototype.trim`: a substring of `s` that neither starts nor ends with whitespace,
      with only whitespace around it. */
  function Trim(s: string): (r: string)
    ensures |r| <= |s|
    ensures OccursAt(s, r, |s| - |TrimStart(s)|)
    ensures forall k :: 0 <= k < |s| - |TrimStart(s)| ==> IsWhitespace(s[k])
    ensures forall k :: |s| - |TrimStart(s)| + |r| <= k < |s| ==> IsWhitespace(s[k])
    ensures r == [] || (!IsWhitespace(r[0]) && !IsWhitespace(r[|r| - 1]))
  {
    TrimWithin(s, TrimStart(s));
    TrimEnd(TrimStart(s))
  }

  /** Trimming the end of the start-trimmed `t` leaves a substring of `s` followed by whitespace. */
  lemma TrimWithin(s: string, t: string)
    requires t == TrimStart(s)
    ensures OccursAt(s, TrimEnd(t), |s| - |t|)
    ensures forall k :: |s| - |t| + |TrimEnd(t)| <= k < |s| ==> IsWhitespace(s[k])
    ensures TrimEnd(t) == [] || !IsWhitespace(TrimEnd(t)[0])
  {
    SuffixPrefix(s, t, TrimEnd(t));
  }

  /** A prefix `r` of a suffix `t` of `s` occurs in `s`, and what follows it in `s` follows it in `t`. */
  lemma SuffixPrefix(s: string, t: string, r: string)
    requires |t| <= |s| && t == s[|s| - |t|..]
    requires |r| <= |t| && r == t[..|r|]
    ensures OccursAt(s, r, |s| - |t|)
    ensures forall k :: |s| - |t| + |r| <= k < |s| ==> s[k] == t[k - (|s| - |t|)]
    ensures r != [] ==> r[0] == t[0]
  {
  }

  /** `!s.trim()`: the trimmed string is empty, hence falsy. */
  predicate IsBlank(s: string)
    ensures s == [] ==> IsBlank(s)
    ensures |s| > 0 && !IsWhitespace(s[0]) ==> !IsBlank(s)
    ensures |s| > 0 && !IsWhitespace(s[|s| - 1]) ==> !IsBlank(s)
  {
    Trim(s) == ""
  }

  /** A string is blank exactly when every character of it is whitespace. */
  lemma BlankIffAllWhitespace(s: string)
    ensures IsBlank(s) <==> forall k :: 0 <= k < |s| ==> IsWhitespace(s[k])
  {
    var t := TrimStart(s);
    assert |t| > 0 ==> t[0] == s[|s| - |t|];
    if !forall k :: 0 <= k < |s| ==> IsWhitespace(s[k]) {
      assert t != [];
    }
  }

  /** `parts.join(sep)`: the first part, then each further part preceded by one separator. */
  function Join(parts: seq<string>, sep: char): (r: string)
    ensures parts == [] ==> r == ""
    ensures |parts| >= 1 ==> StartsWith(r, parts[0])
    ensures |parts| >= 2 ==> |r| > |parts[0]| && r[|parts[0]|] == sep
    ensures |parts| >= 1 && parts[0] != "" ==> r != ""
  {
    if parts == [] then ""
    else if |parts| == 1 then parts[0]
    else parts[0] + [sep] + Join(parts[1..], sep)
  }

  /** Joining two parts puts one separator between them. */
  lemma JoinPair(a: string, b: string, sep: char)
    ensures Join([a, b], sep) == a + [sep] + b
  {
    assert [a, b][1..] == [b];
  }

  /** Index of the first `c` in `s`, or `|s|` when there is none. */
  function IndexOf(s: string, c: char): (i: nat)
    ensures i <= |s|
    ensures i < |s| ==> s[i] == c
    ensures forall k :: 0 <= k < i ==> s[k] != c
  {
    if s == [] then 0 else if s[0] == c then 0 else 1 + IndexOf(s[1..], c)
  }

  /** `s.split(c)` for a one-character separator: always at least one part. */
  function Split(s: string, c: char): (parts: seq<string>)
    ensures |parts| >= 1
    decreases |s|
  {
    var i := IndexOf(s, c);
    if i == |s| then [s] else [s[..i]] + Split(s[i + 1..], c)
  }

  /** Splitting a join on its separator gives the parts back, provided no part holds the separator. */
  lemma {:induction false} SplitJoin(parts: seq<string>, c: char)
    requires |parts| >= 1
    requires forall p | p in parts :: c !in p
    ensures Split(Join(parts, c), c) == parts
  {
    var p := parts[0];
    assert p in parts;
    if |parts| == 1 {
      assert forall k :: 0 <= k < |p| ==> p[k] in p;
    } else {
      var rest := Join(parts[1..], c);
      var s := p + [c] + rest;
      assert s[|p|] == c;
      var i := IndexOf(s, c);
      assert forall k :: 0 <= k < |p| ==> s[k] == p[k] && p[k] in p;
      assert s[..i] == p;
      assert s[i + 1..] == rest;
      SplitJoin(parts[1..], c);
    }
  }

  /** The decimal digit for `d`. */
  function DigitChar(d: nat): (c: char)
    requires d < 10
    ensures '0' <= c <= '9'
  {
    ('0' as int + d) as char
  }

  /** Template-literal rendering `${n}` of a non-negative integer. */
  function DecimalString(n: nat): (s: string)
    ensures |s| >= 1
    ensures forall k :: 0 <= k < |s| ==> '0' <= s[k] <= '9'
  {
    if n < 10 then [DigitChar(n)] else DecimalString(n / 10) + [DigitChar(n % 10)]
  }

  /** Reads a string of decimal digits back as a number. */
  function ParseDecimal(s: string): nat
    requires forall k :: 0 <= k < |s| ==> '0' <= s[k] <= '9'
  {
    if s == [] then 0 else 10 * ParseDecimal(s[..|s| - 1]) + (s[|s| - 1] as int - '0' as int)
  }

  lemma {:induction false} ParseDecimalString(n: nat)
    ensures ParseDecimal(DecimalString(n)) == n
  {
    var s := DecimalString(n);
    if n >= 10 {
      ParseDecimalString(n / 10);
      assert s[..|s| - 1] == DecimalString(n / 10);
    }
  }
}
