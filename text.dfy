/** The string operations the session layer applies: the `a || b || c`
    chain over strings, `split("@")[0]`, `trim()` and `toLowerCase()`. */
module Text {

  /** Where a `c0 || c1 || ...` chain over strings stops: the index of the first
      non-empty candidate, or `|candidates|` when every one is empty. */
  function FirstNonEmptyAt(candidates: seq<string>): (k: nat)
    ensures k <= |candidates|
    ensures forall j :: 0 <= j < k ==> candidates[j] == ""
    ensures k < |candidates| ==> candidates[k] != ""
  {
    if candidates == [] then 0
    else if candidates[0] != "" then 0
    else 1 + FirstNonEmptyAt(candidates[1..])
  }

  /** `c0 || c1 || ... || last`: the first non-empty candidate, else `last`. */
  function Coalesce(candidates: seq<string>, last: string): (r: string)
    ensures r == last || r in candidates
    ensures r == "" ==> last == "" && forall j :: 0 <= j < |candidates| ==> candidates[j] == ""
  {
    var k := FirstNonEmptyAt(candidates);
    if k < |candidates| then candidates[k] else last
  }

  /** The chain keeps its priority order: a candidate wins exactly when every
      candidate before it is empty and it is not. */
  lemma CoalescePicksFirstNonEmpty(candidates: seq<string>, last: string, i: nat)
    requires i < |candidates| && candidates[i] != ""
    requires forall j :: 0 <= j < i ==> candidates[j] == ""
    ensures Coalesce(candidates, last) == candidates[i]
  {
  }

  /** With every candidate empty the chain yields its last operand. */
  lemma CoalesceAllEmpty(candidates: seq<string>, last: string)
    requires forall j :: 0 <= j < |candidates| ==> candidates[j] == ""
    ensures Coalesce(candidates, last) == last
  {
  }

  /** `s.split("@")[0]`: the text before the first `@`, or all of `s` when it
      has none. */
  function BeforeFirstAt(s: string): (r: string)
    ensures r <= s
    ensures '@' !in r
    ensures |r| < |s| ==> s[|r|] == '@'
  {
    if s == [] || s[0] == '@' then []
    else [s[0]] + BeforeFirstAt(s[1..])
  }

  /** Splitting an address `local@rest` at the first `@` gives back `local`. */
  lemma {:induction false} BeforeFirstAtOfAddress(local: string, rest: string)
    requires '@' !in local
    ensures BeforeFirstAt(local + "@" + rest) == local
  {
    if local != [] {
      assert (local + "@" + rest)[1..] == local[1..] + "@" + rest;
      BeforeFirstAtOfAddress(local[1..], rest);
    } else {
      assert (local + "@" + rest)[0] == '@';
    }
  }

  /** The characters `trim()` removes, restricted to a fixed set: ASCII white
      space, no-break space, byte-order mark and the two Unicode line
      terminators. */
  predicate IsSpace(c: char)
  {
    c == ' ' || c == '\t' || c == '\n' || c == '\r' || c == '\U{B}' || c == '\U{C}'
    || c == '\U{A0}' || c == '\U{FEFF}' || c == '\U{2028}' || c == '\U{2029}'
  }

  /** `trimStart()`: drops the leading white space, keeps the rest. */
  function TrimStart(s: string): (r: string)
    ensures |r| <= |s| && r == s[|s| - |r|..]
    ensures forall i :: 0 <= i < |s| - |r| ==> IsSpace(s[i])
    ensures r != [] ==> !IsSpace(r[0])
  {
    if s != [] && IsSpace(s[0]) then TrimStart(s[1..]) else s
  }

  /** `trimEnd()`: drops the trailing white space, keeps the rest. */
  function TrimEnd(s: string): (r: string)
    ensures |r| <= |s| && r == s[..|r|]
    ensures forall i :: |r| <= i < |s| ==> IsSpace(s[i])
    ensures r != [] ==> !IsSpace(r[|r| - 1])
  {
    if s != [] && IsSpace(s[|s| - 1]) then TrimEnd(s[..|s| - 1]) else s
  }

  /** `trim()`: the text between the leading and the trailing white space. */
  function Trim(s: string): (r: string)
    ensures |r| <= |s|
    ensures r != [] ==> !IsSpace(r[0]) && !IsSpace(r[|r| - 1])
    ensures r == [] <==> forall i :: 0 <= i < |s| ==> IsSpace(s[i])
  {
    var t := TrimStart(s);
    var r := TrimEnd(t);
    assert r != [] ==> r[0] == t[0];
    assert forall i :: 0 <= i < |t| ==> t[i] == s[|s| - |t| + i];
    r
  }

  /** True of a string made of white space only. */
  predicate AllSpace(w: string)
  {
    forall i :: 0 <= i < |w| ==> IsSpace(w[i])
  }

  lemma {:induction false} TrimStartPadding(w: string, t: string)
    requires AllSpace(w)
    requires t != [] ==> !IsSpace(t[0])
    ensures TrimStart(w + t) == t
  {
    if w != [] {
      assert (w + t)[1..] == w[1..] + t;
      TrimStartPadding(w[1..], t);
    }
  }

  lemma {:induction false} TrimEndPadding(t: string, w: string)
    requires AllSpace(w)
    requires t != [] ==> !IsSpace(t[|t| - 1])
    ensures TrimEnd(t + w) == t
  {
    if w != [] {
      assert (t + w)[..|t + w| - 1] == t + w[..|w| - 1];
      TrimEndPadding(t, w[..|w| - 1]);
    }
  }

  /** Padding a text that neither starts nor ends with white space, then
      trimming it, gives the text back. */
  lemma TrimRemovesPadding(left: string, t: string, right: string)
    requires AllSpace(left) && AllSpace(right)
    requires t != [] ==> !IsSpace(t[0]) && !IsSpace(t[|t| - 1])
    ensures Trim(left + t + right) == t
  {
    if t == [] {
      assert left + t + right == left + right;
      assert AllSpace(left + right);
    } else {
      assert left + t + right == left + (t + right);
      assert (t + right)[0] == t[0];
      TrimStartPadding(left, t + right);
      TrimEndPadding(t, right);
    }
  }

  /** Trimming twice is trimming once. */
  lemma TrimIdempotent(s: string)
    ensures Trim(Trim(s)) == Trim(s)
  {
    TrimRemovesPadding([], Trim(s), []);
    assert [] + Trim(s) + [] == Trim(s);
  }

  /** `toLowerCase()` on one character, restricted to ASCII letters. */
  function LowerChar(c: char): char
  {
    if 'A' <= c <= 'Z' then (c as int + 32) as char else c
  }

  predicate IsUpper(c: char)
  {
    'A' <= c <= 'Z'
  }

  /** `toLowerCase()`: every upper-case ASCII letter is replaced by its
      lower-case form, everything else is kept. */
  function ToLower(s: string): (r: string)
    ensures |r| == |s|
    ensures forall i :: 0 <= i < |s| ==> !IsUpper(r[i])
    ensures forall i :: 0 <= i < |s| ==> r[i] == LowerChar(s[i])
  {
    if s == [] then [] else [LowerChar(s[0])] + ToLower(s[1..])
  }

  /** A string is its own lower-cased form exactly when it has no upper-case
      letter. */
  lemma ToLowerFixpoint(s: string)
    ensures ToLower(s) == s <==> forall i :: 0 <= i < |s| ==> !IsUpper(s[i])
  {
    if forall i :: 0 <= i < |s| ==> !IsUpper(s[i]) {
      assert ToLower(s) == s;
    }
  }

  /** Lower-casing twice is lower-casing once. */
  lemma ToLowerIdempotent(s: string)
    ensures ToLower(ToLower(s)) == ToLower(s)
  {
    ToLowerFixpoint(ToLower(s));
  }
}
