/** Python's `str.strip()` with no argument: remove every leading and every
    trailing character that Python classifies as whitespace. */
module Whitespace {

  /** The characters CPython's `str.isspace` (and so `str.strip()`) treats as
      whitespace. U+FEFF (zero width no-break space) is not among them. */
  predicate IsSpace(c: char)
    ensures IsSpace(c) ==> c <= '\U{3000}'
    ensures ('\t' <= c <= '\r' || c == ' ') ==> IsSpace(c)
  {
    ('\t' <= c <= '\r') ||                  // tab, line feed, vertical tab, form feed, carriage return
    ('\U{1C}' <= c <= '\U{1F}') ||          // file, group, record and unit separators
    c == ' ' || c == '\U{85}' || c == '\U{A0}' || c == '\U{1680}' ||
    ('\U{2000}' <= c <= '\U{200A}') ||
    c == '\U{2028}' || c == '\U{2029}' || c == '\U{202F}' || c == '\U{205F}' || c == '\U{3000}'
  }

  predicate AllSpace(s: string) {
    forall k :: 0 <= k < |s| ==> IsSpace(s[k])
  }

  /** Neither the first nor the last character (if any) is whitespace. */
  predicate NoEdgeSpace(s: string) {
    s == [] || (!IsSpace(s[0]) && !IsSpace(s[|s| - 1]))
  }

  /** The index of the first character at or after `i` that is not whitespace,
      or `|s|` if there is none: the left scan of CPython's strip. */
  function FirstNonSpace(s: string, i: nat): (n: nat)
    requires i <= |s|
    ensures i <= n <= |s|
    ensures forall k :: i <= k < n ==> IsSpace(s[k])
    ensures n == |s| || !IsSpace(s[n])
    decreases |s| - i
  {
    if i == |s| || !IsSpace(s[i]) then i else FirstNonSpace(s, i + 1)
  }

  /** The end of `s[lo..hi]` once its trailing whitespace is cut back: the
      right scan of CPython's strip, which never passes the left one. */
  function EndOfNonSpace(s: string, lo: nat, hi: nat): (n: nat)
    requires lo <= hi <= |s|
    ensures lo <= n <= hi
    ensures forall k :: n <= k < hi ==> IsSpace(s[k])
    ensures n == lo || !IsSpace(s[n - 1])
  {
    if hi == lo || !IsSpace(s[hi - 1]) then hi else EndOfNonSpace(s, lo, hi - 1)
  }

  /** `s.strip()`: what remains of `s` once its whitespace margins are cut off. */
  function Strip(s: string): (r: string)
    ensures NoEdgeSpace(r)
  {
    var i := FirstNonSpace(s, 0);
    s[i..EndOfNonSpace(s, i, |s|)]
  }

  /** Only whitespace is cut off: `s` is the stripped text between two
      whitespace margins. */
  lemma StripMargins(s: string) returns (lead: string, trail: string)
    ensures AllSpace(lead) && AllSpace(trail)
    ensures s == lead + Strip(s) + trail
  {
    var i := FirstNonSpace(s, 0);
    var j := EndOfNonSpace(s, i, |s|);
    lead, trail := s[..i], s[j..];
    assert s == lead + s[i..j] + trail;
  }

  /** Strip is determined by the decomposition: whitespace, a middle without
      edge whitespace, whitespace. Together with Strip's own contract this
      characterises Strip completely. */
  lemma StripOfPadded(lead: string, middle: string, trail: string)
    requires AllSpace(lead) && AllSpace(trail) && NoEdgeSpace(middle)
    ensures Strip(lead + middle + trail) == middle
  {
    var s := lead + middle + trail;
    var a, b := |lead|, |lead| + |middle|;
    assert forall k :: 0 <= k < a ==> s[k] == lead[k];
    assert forall k :: b <= k < |s| ==> s[k] == trail[k - b];
    var i := FirstNonSpace(s, 0);
    if middle == [] {
      assert i == |s|;
    } else {
      assert s[a] == middle[0] && s[b - 1] == middle[|middle| - 1];
      assert i == a;
      var j := EndOfNonSpace(s, i, |s|);
      assert j == b;
      assert s[a..b] == middle;
    }
  }

  /** Whitespace runs join into a whitespace run. */
  lemma AllSpaceConcat(a: string, b: string)
    requires AllSpace(a) && AllSpace(b)
    ensures AllSpace(a + b)
  {
    var s := a + b;
    forall k | 0 <= k < |s| ensures IsSpace(s[k]) {
      if k < |a| { assert s[k] == a[k]; } else { assert s[k] == b[k - |a|]; }
    }
  }

  /** Adding whitespace on either side does not change what strip returns. */
  lemma StripIgnoresPadding(lead: string, s: string, trail: string)
    requires AllSpace(lead) && AllSpace(trail)
    ensures Strip(lead + s + trail) == Strip(s)
  {
    var m := Strip(s);
    var l, t := StripMargins(s);
    AllSpaceConcat(lead, l);
    AllSpaceConcat(t, trail);
    assert lead + s + trail == (lead + l) + m + (t + trail);
    StripOfPadded(lead + l, m, t + trail);
  }

  /** Stripping twice is the same as stripping once. */
  lemma StripIdempotent(s: string)
    ensures Strip(Strip(s)) == Strip(s)
  {
    var m := Strip(s);
    assert [] + m + [] == m;
    StripOfPadded([], m, []);
  }

  /** A string with no edge whitespace is left as it is. */
  lemma StripKeeps(s: string)
    requires NoEdgeSpace(s)
    ensures Strip(s) == s
  {
    assert [] + s + [] == s;
    StripOfPadded([], s, []);
  }
}
