/** ASCII models of the Python string primitives the core relies on:
    `isspace`, `isalpha`, `isupper`, `islower`, `upper`, `lower`,
    `strip` (with and without a character argument), `split()` with no
    separator and `str.join`. Characters outside ASCII are neither
    letters nor whitespace here. */
module AsciiStrings {

  /** Python's `str.isspace` on one ASCII character: tab, line feed, vertical
      tab, form feed, carriage return, the four separators 0x1C-0x1F and space. */
  predicate IsSpace(c: char) {
    c in Whitespace
  }

  /** The characters `str.strip()` and `str.split()` treat as whitespace. */
  const Whitespace: set<char> := set c: char | 9 <= c as int <= 13 || 28 <= c as int <= 32

  predicate IsUpperChar(c: char) { 'A' <= c <= 'Z' }

  predicate IsLowerChar(c: char) { 'a' <= c <= 'z' }

  predicate IsAlpha(c: char) { IsUpperChar(c) || IsLowerChar(c) }

  function ToUpperChar(c: char): (r: char)
    ensures IsLowerChar(c) ==> IsUpperChar(r) && r as int == c as int - 32
    ensures !IsLowerChar(c) ==> r == c
  {
    if IsLowerChar(c) then (c as int - 32) as char else c
  }

  function ToLowerChar(c: char): (r: char)
    ensures IsUpperChar(c) ==> IsLowerChar(r) && r as int == c as int + 32
    ensures !IsUpperChar(c) ==> r == c
  {
    if IsUpperChar(c) then (c as int + 32) as char else c
  }

  /** `s.upper()` */
  function Upper(s: string): (r: string)
    ensures |r| == |s|
    ensures forall i :: 0 <= i < |s| ==> r[i] == ToUpperChar(s[i])
  {
    if s == [] then [] else [ToUpperChar(s[0])] + Upper(s[1..])
  }

  /** `s.lower()` */
  function Lower(s: string): (r: string)
    ensures |r| == |s|
    ensures forall i :: 0 <= i < |s| ==> r[i] == ToLowerChar(s[i])
  {
    if s == [] then [] else [ToLowerChar(s[0])] + Lower(s[1..])
  }

  /** Lower-casing leaves a string without upper-case letters as it is. */
  lemma LowerFixed(s: string)
    requires forall i :: 0 <= i < |s| ==> !IsUpperChar(s[i])
    ensures Lower(s) == s
  {
    assert forall i :: 0 <= i < |s| ==> Lower(s)[i] == s[i];
  }

  /** Python's `str.isupper`: at least one cased character, and every cased
      character is upper case. */
  predicate StrIsUpper(s: string) {
    (exists i :: 0 <= i < |s| && IsAlpha(s[i])) &&
    (forall i :: 0 <= i < |s| && IsAlpha(s[i]) ==> IsUpperChar(s[i]))
  }


  /** Removes the longest prefix made of characters in `cs`. */
  function TrimLeft(s: string, cs: set<char>): (r: string)
    ensures |r| <= |s| && r == s[|s| - |r|..]
    ensures forall i :: 0 <= i < |s| - |r| ==> s[i] in cs
    ensures r != [] ==> r[0] !in cs
  {
    if s == [] || s[0] !in cs then s else TrimLeft(s[1..], cs)
  }

  /** Removes the longest suffix made of characters in `cs`. */
  function TrimRight(s: string, cs: set<char>): (r: string)
    ensures |r| <= |s| && r == s[..|r|]
    ensures forall i :: |r| <= i < |s| ==> s[i] in cs
    ensures r != [] ==> r[|r| - 1] !in cs
  {
    if s == [] || s[|s| - 1] !in cs then s else TrimRight(s[..|s| - 1], cs)
  }

  /** The number of characters `Trim` removes at the front. */
  function TrimOffset(s: string, cs: set<char>): nat {
    |s| - |TrimLeft(s, cs)|
  }

  /** `s.strip(chars)`: what remains is the slice of `s` between a prefix and
      a suffix made of characters in `cs`, and it starts and ends outside `cs`. */
  function Trim(s: string, cs: set<char>): (r: string)
    ensures TrimOffset(s, cs) + |r| <= |s|
    ensures r == s[TrimOffset(s, cs)..TrimOffset(s, cs) + |r|]
    ensures forall i :: 0 <= i < TrimOffset(s, cs) ==> s[i] in cs
    ensures forall i :: TrimOffset(s, cs) + |r| <= i < |s| ==> s[i] in cs
    ensures r != [] ==> r[0] !in cs && r[|r| - 1] !in cs
  {
    var l := TrimLeft(s, cs);
    var r := TrimRight(l, cs);
    TrimSlices(s, cs, |s| - |l|, l, r);
    r
  }

  /** A prefix of a suffix of `s` is a slice of `s`, and what the outer cut
      removes from the suffix lies in `s` past that slice. */
  lemma TrimSlices(s: string, cs: set<char>, k: nat, l: string, r: string)
    requires k <= |s| && l == s[k..] && |r| <= |l| && r == l[..|r|]
    requires forall i :: |r| <= i < |l| ==> l[i] in cs
    ensures r == s[k..k + |r|]
    ensures forall i :: k + |r| <= i < |s| ==> s[i] in cs
  {
    forall i | k + |r| <= i < |s| ensures s[i] in cs {
      assert s[i] == l[i - k];
    }
  }

  /** `s.strip()` */
  function Strip(s: string): (r: string)
    ensures r != [] ==> !IsSpace(r[0]) && !IsSpace(r[|r| - 1])
    ensures TrimOffset(s, Whitespace) + |r| <= |s|
    ensures forall i :: 0 <= i < TrimOffset(s, Whitespace) ==> IsSpace(s[i])
    ensures forall i :: TrimOffset(s, Whitespace) + |r| <= i < |s| ==> IsSpace(s[i])
  {
    Trim(s, Whitespace)
  }

  /** What `strip` returns is a slice of its argument. */
  lemma StripSlice(s: string)
    ensures Strip(s) == s[TrimOffset(s, Whitespace)..TrimOffset(s, Whitespace) + |Strip(s)|]
  {
  }

  /** Nothing to remove at either end: `strip` returns the string itself. */
  lemma TrimFixed(s: string, cs: set<char>)
    requires s != [] ==> s[0] !in cs && s[|s| - 1] !in cs
    ensures Trim(s, cs) == s
  {
    if s != [] {
      assert TrimLeft(s, cs) == s;
      assert TrimRight(s, cs) == s;
    }
  }

  /** `s.strip(ch)` for a single character. */
  function StripChar(s: string, ch: char): (r: string)
    ensures r != [] ==> r[0] != ch && r[|r| - 1] != ch
    ensures TrimOffset(s, {ch}) + |r| <= |s|
    ensures forall i :: 0 <= i < TrimOffset(s, {ch}) ==> s[i] == ch
    ensures forall i :: TrimOffset(s, {ch}) + |r| <= i < |s| ==> s[i] == ch
  {
    Trim(s, {ch})
  }

  /** What `strip(ch)` returns is a slice of its argument. */
  lemma StripCharSlice(s: string, ch: char)
    ensures StripChar(s, ch) == s[TrimOffset(s, {ch})..TrimOffset(s, {ch}) + |StripChar(s, ch)|]
  {
  }

  /** The longest prefix of `s` free of whitespace. */
  function TakeWord(s: string): (w: string)
    ensures |w| <= |s| && w == s[..|w|]
    ensures forall i :: 0 <= i < |w| ==> !IsSpace(s[i])
    ensures |w| < |s| ==> IsSpace(s[|w|])
  {
    if s == [] || IsSpace(s[0]) then [] else [s[0]] + TakeWord(s[1..])
  }

  /** A word as `split()` produces it: non-empty, without whitespace. */
  predicate IsWord(w: string) {
    w != [] && forall i :: 0 <= i < |w| ==> !IsSpace(w[i])
  }

  /** `s.split()` with no separator: the maximal runs of non-whitespace. */
  function Split(s: string): (ws: seq<string>)
    ensures forall k :: 0 <= k < |ws| ==> IsWord(ws[k])
    decreases |s|
  {
    if s == [] then []
    else if IsSpace(s[0]) then Split(s[1..])
    else
      var w := TakeWord(s);
      assert w[0] == s[0];
      [w] + Split(s[|w|..])
  }

  /** `sep.join(ws)` */
  function Join(sep: string, ws: seq<string>): string {
    if ws == [] then ""
    else if |ws| == 1 then ws[0]
    else ws[0] + sep + Join(sep, ws[1..])
  }

  /** `" ".join(s.split())`: whitespace runs collapsed to one space, ends trimmed. */
  function Normalize(s: string): string {
    Join(" ", Split(s))
  }

  /** Whitespace only as single spaces strictly between non-whitespace. */
  predicate IsNormalized(t: string) {
    forall i :: 0 <= i < |t| && IsSpace(t[i]) ==>
      t[i] == ' ' && 0 < i < |t| - 1 && !IsSpace(t[i - 1]) && !IsSpace(t[i + 1])
  }

  predicate AllSpace(s: string) {
    forall i :: 0 <= i < |s| ==> IsSpace(s[i])
  }

  lemma {:induction false} SplitEmptyIffAllSpace(s: string)
    ensures Split(s) == [] <==> AllSpace(s)
    decreases |s|
  {
    if s != [] && IsSpace(s[0]) {
      SplitEmptyIffAllSpace(s[1..]);
      assert AllSpace(s) <==> AllSpace(s[1..]) by {
        assert forall i :: 0 < i < |s| ==> s[i] == s[1..][i - 1];
      }
    }
  }

  lemma {:induction false} JoinSpaceNormalized(ws: seq<string>)
    requires forall k :: 0 <= k < |ws| ==> IsWord(ws[k])
    ensures IsNormalized(Join(" ", ws))
    ensures Join(" ", ws) == [] <==> ws == []
    ensures ws != [] ==> Join(" ", ws)[..|ws[0]|] == ws[0]
    ensures ws != [] ==> !IsSpace(Join(" ", ws)[|Join(" ", ws)| - 1])
    decreases |ws|
  {
    if |ws| > 1 {
      var rest := Join(" ", ws[1..]);
      JoinSpaceNormalized(ws[1..]);
      var t := ws[0] + " " + rest;
      assert t == Join(" ", ws);
      var n := |ws[0]|;
      assert t[..n] == ws[0];
      assert rest[0] == ws[1][0];
      forall i | 0 <= i < |t| && IsSpace(t[i])
        ensures t[i] == ' ' && 0 < i < |t| - 1 && !IsSpace(t[i - 1]) && !IsSpace(t[i + 1])
      {
        if i == n {
          assert t[i - 1] == ws[0][n - 1];
          assert t[i + 1] == rest[0];
        } else if i > n {
          assert t[i] == rest[i - n - 1];
          var j := i - n - 1;
          if j == 0 {
            assert false;
          }
          assert t[i - 1] == rest[j - 1];
          assert t[i + 1] == rest[j + 1];
        }
      }
      assert t[|t| - 1] == rest[|rest| - 1];
    }
  }

  /** The normal form has no leading or trailing whitespace and single spaces
      between the words; it is empty exactly when the line is blank. */
  lemma NormalizeShape(s: string)
    ensures IsNormalized(Normalize(s))
    ensures Normalize(s) == [] <==> AllSpace(s)
  {
    JoinSpaceNormalized(Split(s));
    SplitEmptyIffAllSpace(s);
  }

  /** Every whitespace-separated word costs a character, and two neighbouring
      words a separator as well: `len(s) >= 2 * len(s.split()) - 1`. */
  lemma {:induction false} SplitLength(s: string)
    ensures |s| >= 2 * |Split(s)| - (if s != [] && !IsSpace(s[0]) then 1 else 0)
    decreases |s|
  {
    if s != [] {
      if IsSpace(s[0]) {
        SplitLength(s[1..]);
      } else {
        var w := TakeWord(s);
        SplitLength(s[|w|..]);
      }
    }
  }
}
