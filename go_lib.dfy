/** The three Go standard-library functions whose exact behaviour the plugin
    code depends on: `strings.Count`, `strconv.Itoa` (on non-negative numbers)
    and `path.Base`. A Go string is a byte sequence; here each `char` stands
    for one byte, which is exact for the ASCII text these functions see. */
module GoLib {

  // ---------------------------------------------------------------------
  // strings.Count
  // ---------------------------------------------------------------------

  /** `sub` occurs in `s` starting at index `i`. */
  predicate OccursAt(s: string, sub: string, i: nat) {
    i + |sub| <= |s| && s[i..i + |sub|] == sub
  }

  /** `s` contains `sub` somewhere. */
  ghost predicate Contains(s: string, sub: string) {
    exists i: nat :: OccursAt(s, sub, i)
  }

  /** `strings.Count(s, sub)`: the number of non-overlapping occurrences of
      `sub` in `s`, found left to right, each search resuming after the end of
      the previous match. For an empty `sub` Go answers the length of `s` plus
      one (counted in runes; here in chars). */
  function Count(s: string, sub: string): (n: nat)
    ensures |sub| > 0 ==> n * |sub| <= |s|
    decreases |s|
  {
    if |sub| == 0 then |s| + 1
    else if |s| < |sub| then 0
    else if s[..|sub|] == sub then 1 + Count(s[|sub|..], sub)
    else Count(s[1..], sub)
  }

  /** An occurrence one place to the right in `s` is an occurrence in `s[1..]`. */
  lemma OccursAtTail(s: string, sub: string, i: nat)
    requires |s| > 0
    ensures OccursAt(s, sub, i + 1) <==> OccursAt(s[1..], sub, i)
  {
    if i + 1 + |sub| <= |s| {
      assert s[1..][i..i + |sub|] == s[i + 1..i + 1 + |sub|];
    }
  }

  /** A non-empty pattern is counted zero times exactly when it does not occur. */
  lemma {:induction false} CountZeroIff(s: string, sub: string)
    requires |sub| > 0
    ensures Count(s, sub) == 0 <==> !Contains(s, sub)
    decreases |s|
  {
    if |s| < |sub| {
      assert !Contains(s, sub);
    } else if s[..|sub|] == sub {
      assert OccursAt(s, sub, 0);
    } else {
      CountZeroIff(s[1..], sub);
      if Contains(s, sub) {
        var i: nat :| OccursAt(s, sub, i);
        assert i != 0;
        OccursAtTail(s, sub, i - 1);
        assert Contains(s[1..], sub);
      }
      if Contains(s[1..], sub) {
        var i: nat :| OccursAt(s[1..], sub, i);
        OccursAtTail(s, sub, i);
        assert Contains(s, sub);
      }
    }
  }

  // ---------------------------------------------------------------------
  // strconv.Itoa
  // ---------------------------------------------------------------------

  predicate IsDigit(c: char) {
    '0' <= c <= '9'
  }

  /** A decimal numeral: non-empty, digits only. */
  predicate IsNumeral(s: string) {
    |s| > 0 && forall k :: 0 <= k < |s| ==> IsDigit(s[k])
  }

  function DigitChar(d: nat): (c: char)
    requires d < 10
    ensures IsDigit(c)
  {
    (48 + d) as char
  }

  function DigitValue(c: char): (d: nat)
    requires IsDigit(c)
    ensures d < 10
  {
    c as int - 48
  }

  lemma DigitValueOfChar(d: nat)
    requires d < 10
    ensures DigitValue(DigitChar(d)) == d
  {
  }

  /** `strconv.Itoa(n)` for `n >= 0`: the decimal numeral of `n`, with no
      leading zero unless `n` is zero. */
  function Itoa(n: nat): (s: string)
    ensures IsNumeral(s)
    ensures s[0] == '0' ==> n == 0
    decreases n
  {
    if n < 10 then [DigitChar(n)] else Itoa(n / 10) + [DigitChar(n % 10)]
  }

  /** The value of a decimal numeral (the inverse of `Itoa`). */
  function Atoi(s: string): nat
    requires IsNumeral(s)
    decreases |s|
  {
    if |s| == 1 then DigitValue(s[0])
    else Atoi(s[..|s| - 1]) * 10 + DigitValue(s[|s| - 1])
  }

  lemma {:induction false} AtoiItoa(n: nat)
    ensures Atoi(Itoa(n)) == n
    decreases n
  {
    if n < 10 {
      DigitValueOfChar(n);
    } else {
      var s := Itoa(n);
      assert s[..|s| - 1] == Itoa(n / 10);
      AtoiItoa(n / 10);
      DigitValueOfChar(n % 10);
    }
  }

  /** Different numbers have different decimal strings. */
  lemma ItoaInjective(i: nat, j: nat)
    ensures Itoa(i) == Itoa(j) ==> i == j
  {
    AtoiItoa(i);
    AtoiItoa(j);
  }

  // ---------------------------------------------------------------------
  // path.Base
  // ---------------------------------------------------------------------

  /** `s` with every trailing '/' removed. */
  function StripTrailingSlashes(s: string): (r: string)
    ensures |r| <= |s|
    decreases |s|
  {
    if |s| > 0 && s[|s| - 1] == '/' then StripTrailingSlashes(s[..|s| - 1]) else s
  }

  /** Stripping keeps a prefix, ends in something other than '/', and
      removes only slashes. */
  lemma {:induction false} StripTrailingSlashesFacts(s: string)
    ensures var r := StripTrailingSlashes(s);
      r <= s && (r == [] || r[|r| - 1] != '/') && (forall k :: |r| <= k < |s| ==> s[k] == '/')
    decreases |s|
  {
    if |s| > 0 && s[|s| - 1] == '/' {
      var init := s[..|s| - 1];
      StripTrailingSlashesFacts(init);
      assert forall k :: 0 <= k < |init| ==> init[k] == s[k];
    }
  }

  /** The index of the last '/' in `s`, or -1 when there is none. */
  function LastSlash(s: string): (i: int)
    ensures -1 <= i < |s|
    decreases |s|
  {
    if |s| == 0 then -1
    else if s[|s| - 1] == '/' then |s| - 1
    else LastSlash(s[..|s| - 1])
  }

  /** LastSlash finds a '/' when it answers an index, and there is none
      after it. */
  lemma {:induction false} LastSlashFacts(s: string)
    ensures var i := LastSlash(s);
      (i >= 0 ==> s[i] == '/') && (forall k :: i < k < |s| ==> s[k] != '/')
    decreases |s|
  {
    if |s| > 0 && s[|s| - 1] != '/' {
      var init := s[..|s| - 1];
      LastSlashFacts(init);
      assert forall k :: 0 <= k < |init| ==> init[k] == s[k];
    }
  }

  /** `path.Base(p)`: the last element of a slash-separated path, after
      trailing slashes are dropped; "." for the empty path and "/" for a path
      of slashes only. */
  function Base(p: string): (r: string)
    ensures r != []
  {
    if p == [] then "."
    else
      var q := StripTrailingSlashes(p);
      var i := LastSlash(q);
      var t := if i >= 0 then q[i + 1..] else q;
      if t == [] then "/" else t
  }

  /** The base is never empty, and it is either "/" or free of '/'. */
  lemma BaseFacts(p: string)
    ensures Base(p) != []
    ensures Base(p) == "/" || '/' !in Base(p)
  {
    if p != [] {
      var q := StripTrailingSlashes(p);
      var i := LastSlash(q);
      LastSlashFacts(q);
      var t := if i >= 0 then q[i + 1..] else q;
      assert forall j :: 0 <= j < |t| ==> t[j] == q[i + 1 + j];
    }
  }

  /** Joining a directory (ending in '/') with a plain file name and taking
      the base gives back the file name. */
  lemma BaseOfJoin(dir: string, name: string)
    requires |dir| > 0 && dir[|dir| - 1] == '/'
    requires name != [] && '/' !in name
    ensures Base(dir + name) == name
  {
    var p := dir + name;
    assert p[|p| - 1] == name[|name| - 1];
    var q := StripTrailingSlashes(p);
    assert q == p;
    var i := LastSlash(q);
    LastSlashFacts(q);
    assert p[|dir| - 1] == '/';
    assert forall k :: |dir| <= k < |p| ==> p[k] == name[k - |dir|];
    assert i == |dir| - 1;
    assert q[i + 1..] == name;
  }
}
