/**
 * Detecting a JSON object embedded in an assistant reply
 * (`extract_json` and `is_potential_json_object` in agent_1.py).
 */
module Extraction {
  import opened Sequences

  /** The characters Python's `str.strip()` removes (`str.isspace`). */
  predicate IsSpace(c: char) {
    || c == ' '
    || ('\t' <= c <= '\r')
    || ('\U{1C}' <= c <= '\U{1F}')
    || c == '\U{85}' || c == '\U{A0}' || c == '\U{1680}'
    || ('\U{2000}' <= c <= '\U{200A}')
    || c == '\U{2028}' || c == '\U{2029}' || c == '\U{202F}'
    || c == '\U{205F}' || c == '\U{3000}'
  }

  /** `t` without its leading whitespace: a suffix of `t`. */
  function TrimStart(t: string): (r: string)
    ensures |r| <= |t| && r == t[|t| - |r|..]
    ensures forall i :: 0 <= i < |t| - |r| ==> IsSpace(t[i])
    ensures r != [] ==> !IsSpace(r[0])
  {
    if t != [] && IsSpace(t[0]) then TrimStart(t[1..]) else t
  }

  /** `t` without its trailing whitespace: a prefix of `t`. */
  function TrimEnd(t: string): (r: string)
    ensures |r| <= |t| && r == t[..|r|]
    ensures forall i :: |r| <= i < |t| ==> IsSpace(t[i])
    ensures r != [] ==> !IsSpace(r[|r| - 1])
  {
    if t != [] && IsSpace(t[|t| - 1]) then TrimEnd(t[..|t| - 1]) else t
  }

  /** Python's `str.strip()` with no argument. */
  function Strip(t: string): (r: string)
    ensures r != [] ==> !IsSpace(r[0]) && !IsSpace(r[|r| - 1])
  {
    var u := TrimStart(t);
    var r := TrimEnd(u);
    assert r != [] ==> r[0] == u[0];
    r
  }

  /** Stripping leaves nothing exactly when the text is all whitespace. */
  lemma StripEmptyIff(t: string)
    ensures Strip(t) == [] <==> forall i :: 0 <= i < |t| ==> IsSpace(t[i])
  {
    StripUnfold(t);
    var u := TrimStart(t);
    if u != [] {
      assert TrimEnd(u) != [] by { assert !IsSpace(u[0]); }
      assert t[|t| - |u|] == u[0];
    }
  }

  /** `is_potential_json_object`: the stripped text starts with `{` and ends with `}`. */
  predicate IsPotentialJsonObject(text: string): (r: bool)
    ensures r ==> 2 <= |Strip(text)|
  {
    StartsAndEndsWithBraces(Strip(text))
  }

  /** `s.startswith("{") and s.endswith("}")`. */
  predicate StartsAndEndsWithBraces(s: string) {
    |s| > 0 && s[0] == '{' && s[|s| - 1] == '}'
  }

  /**
   * What `extract_json` computes: the slice from the first `{` to the last `}`
   * when that `}` lies after that `{`, and the empty string otherwise.
   */
  function BraceSlice(text: string): (r: string)
    ensures r == [] || (2 <= |r| && r[0] == '{' && r[|r| - 1] == '}')
  {
    var s := FirstIndexOf(text, '{');
    var e := LastIndexOf(text, '}');
    if s < e then text[s..e + 1] else []
  }

  /** `extract_json`: two cursors move inward, `s` to a `{`, then `e` to a `}`. */
  method ExtractJson(text: string) returns (r: string)
    ensures r == BraceSlice(text)
  {
    var s, e := 0, |text| - 1;
    while s < e && text[s] != '{'
      invariant 0 <= s <= FirstIndexOf(text, '{')
      invariant e == |text| - 1
      invariant s <= e || (s == 0 && e == -1)
    {
      s := s + 1;
    }
    assert s < |text| - 1 ==> text[s] == '{';
    while e > s && text[e] != '}'
      invariant s - 1 <= e <= |text| - 1
      invariant s <= e || (s == 0 && e == -1)
      invariant LastIndexOf(text, '}') <= e
    {
      e := e - 1;
    }
    if s < e {
      r := text[s..e + 1];
    } else {
      r := "";
    }
  }

  /** Stripping a string whose ends are not whitespace changes nothing. */
  lemma StripKeeps(t: string)
    requires t != [] && !IsSpace(t[0]) && !IsSpace(t[|t| - 1])
    ensures Strip(t) == t
  {
  }

  /** The leading whitespace of `t` ends at its first non-space character. */
  lemma TrimStartAt(t: string, i: nat)
    requires i < |t| && !IsSpace(t[i])
    requires forall k :: 0 <= k < i ==> IsSpace(t[k])
    ensures TrimStart(t) == t[i..]
    decreases i
  {
    if i > 0 {
      TrimStartAt(t[1..], i - 1);
      assert t[1..][i - 1..] == t[i..];
    }
  }

  /** The trailing whitespace of `t` starts after its last non-space character. */
  lemma TrimEndAt(t: string, j: nat)
    requires j < |t| && !IsSpace(t[j])
    requires forall k :: j < k < |t| ==> IsSpace(t[k])
    ensures TrimEnd(t) == t[..j + 1]
    decreases |t| - j
  {
    if j < |t| - 1 {
      TrimEndAt(t[..|t| - 1], j);
      assert t[..|t| - 1][..j + 1] == t[..j + 1];
    }
  }

  /** `text[i]` is `{`, `text[j]` a later `}`, and only whitespace lies outside them. */
  predicate Delimited(text: string, i: int, j: int) {
    && 0 <= i < j < |text| && text[i] == '{' && text[j] == '}'
    && (forall k :: 0 <= k < i ==> IsSpace(text[k]))
    && (forall k :: j < k < |text| ==> IsSpace(text[k]))
  }

  /** When `is_potential_json_object` holds, the braces it saw lie at `i` and `j` of `text`. */
  lemma PotentialJsonObjectDelimited(text: string) returns (i: int, j: int)
    requires IsPotentialJsonObject(text)
    ensures Delimited(text, i, j)
  {
    var u := TrimStart(text);
    var s := Strip(text);
    var a := |text| - |u|;
    i, j := a, a + |s| - 1;
    assert s == u[..|s|];
    assert text[i] == u[0];
    assert text[j] == u[|s| - 1];
    forall k | j < k < |text| ensures IsSpace(text[k]) {
      assert text[k] == u[k - a];
    }
  }

  /** Stripping keeps exactly the span from the first to the last non-space character. */
  lemma StripAt(text: string, i: nat, j: nat)
    requires i <= j < |text| && !IsSpace(text[i]) && !IsSpace(text[j])
    requires forall k :: 0 <= k < i ==> IsSpace(text[k])
    requires forall k :: j < k < |text| ==> IsSpace(text[k])
    ensures Strip(text) == text[i..j + 1]
  {
    TrimStartAt(text, i);
    TrimEndFrom(text, i, j);
    StripUnfold(text);
  }

  /** The right strip of a suffix of `text` ends after the last non-space character. */
  lemma TrimEndFrom(text: string, i: nat, j: nat)
    requires i <= j < |text| && !IsSpace(text[j])
    requires forall k :: j < k < |text| ==> IsSpace(text[k])
    ensures TrimEnd(text[i..]) == text[i..j + 1]
  {
    var u := text[i..];
    var m := j - i;
    assert u[m] == text[j];
    forall k | m < k < |u| ensures IsSpace(u[k]) {
      assert u[k] == text[k + i];
    }
    TrimEndAt(u, m);
    assert u[..m + 1] == text[i..j + 1];
  }

  /** `strip` is a left strip followed by a right strip. */
  lemma StripUnfold(t: string)
    ensures Strip(t) == TrimEnd(TrimStart(t))
  {
  }

  /** Braces with only whitespace outside them pass `is_potential_json_object`. */
  lemma DelimitedIsPotentialJsonObject(text: string, i: int, j: int)
    requires Delimited(text, i, j)
    ensures IsPotentialJsonObject(text)
  {
    assert !IsSpace('{') && !IsSpace('}');
    StripAt(text, i, j);
    var st := text[i..j + 1];
    assert st[0] == text[i] && st[|st| - 1] == text[j];
    assert StartsAndEndsWithBraces(st);
  }

  /**
   * `is_potential_json_object` without `strip`: `text` is a `{` and, later, a
   * `}`, with nothing but whitespace around them.
   */
  lemma PotentialJsonObjectIff(text: string)
    ensures IsPotentialJsonObject(text) <==> exists i, j :: Delimited(text, i, j)
  {
    if IsPotentialJsonObject(text) {
      var i, j := PotentialJsonObjectDelimited(text);
    }
    if exists i, j :: Delimited(text, i, j) {
      var i, j :| Delimited(text, i, j);
      DelimitedIsPotentialJsonObject(text, i, j);
    }
  }

  /**
   * `extract_json` is empty exactly when no `}` follows a `{`: in particular
   * for empty text and for text without `{`.
   */
  lemma BraceSliceEmptyIff(text: string)
    ensures BraceSlice(text) == [] <==>
      !exists i, j :: 0 <= i < j < |text| && text[i] == '{' && text[j] == '}'
  {
    var s := FirstIndexOf(text, '{');
    var e := LastIndexOf(text, '}');
    if s < e {
      assert text[s] == '{' && text[e] == '}';
    }
  }

  /** A non-empty result runs from the first `{` of `text` to its last `}`. */
  lemma BraceSliceSpan(text: string, s: nat, e: nat)
    requires s < e < |text| && text[s] == '{' && text[e] == '}'
    requires forall i :: 0 <= i < s ==> text[i] != '{'
    requires forall i :: e < i < |text| ==> text[i] != '}'
    ensures BraceSlice(text) == text[s..e + 1]
  {
    assert FirstIndexOf(text, '{') == s;
    assert LastIndexOf(text, '}') == e;
  }

  /** Extracting from an extracted object gives it back unchanged. */
  lemma BraceSliceIdempotent(text: string)
    ensures BraceSlice(BraceSlice(text)) == BraceSlice(text)
  {
    var r := BraceSlice(text);
    if r != [] {
      BraceSliceSpan(r, 0, |r| - 1);
      assert r[0..|r|] == r;
    }
  }

  /**
   * The caller's check `is_potential_json_object(extract_json(t))` holds
   * exactly when the extraction found something.
   */
  lemma BraceSliceIsPotentialObject(text: string)
    ensures IsPotentialJsonObject(BraceSlice(text)) <==> BraceSlice(text) != []
  {
    var r := BraceSlice(text);
    if r != [] {
      StripKeeps(r);
    }
  }
}
