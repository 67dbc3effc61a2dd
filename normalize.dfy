/** Text normalisation applied to a chat message before it is compared with the
    command words: JavaScript's `toLowerCase()` followed by `trim()`.
    Lower-casing is modelled on ASCII letters; trimming removes exactly the
    characters ECMAScript counts as WhiteSpace or LineTerminator. */
module Normalize {

  /** ECMAScript WhiteSpace (TAB, VT, FF, ZWNBSP and the Unicode space
      separators) and LineTerminator (LF, CR, LS, PS): what `trim()` strips. */
  const Whitespace: set<char> :=
    {'\t', '\n', '\U{000B}', '\U{000C}', '\r', ' ', '\U{00A0}', '\U{1680}',
     '\U{2000}', '\U{2001}', '\U{2002}', '\U{2003}', '\U{2004}', '\U{2005}',
     '\U{2006}', '\U{2007}', '\U{2008}', '\U{2009}', '\U{200A}',
     '\U{2028}', '\U{2029}', '\U{202F}', '\U{205F}', '\U{3000}', '\U{FEFF}'}

  predicate IsWhitespace(c: char) {
    c in Whitespace
  }

  predicate AllWhitespace(s: string) {
    forall i | 0 <= i < |s| :: IsWhitespace(s[i])
  }

  predicate IsUpper(c: char) {
    'A' <= c <= 'Z'
  }

  /** Lower-cases one character: ASCII capitals map to their small letter,
      every other character is kept. */
  function LowerChar(c: char): (d: char)
    ensures IsUpper(c) ==> 'a' <= d <= 'z' && d as int - c as int == 32
    ensures !IsUpper(c) ==> d == c
  {
    if IsUpper(c) then (c as int + 32) as char else c
  }

  /** Lower-casing changes only capitals, none of which is whitespace. */
  lemma {:induction false} LowerCharKeepsWhitespace(c: char)
    ensures IsWhitespace(LowerChar(c)) <==> IsWhitespace(c)
    ensures !IsUpper(LowerChar(c))
  {
    if IsUpper(c) {
      assert c !in Whitespace;
      assert LowerChar(c) !in Whitespace;
    }
  }

  /** `s.toLowerCase()`, character by character. */
  function ToLower(s: string): (r: string)
    ensures |r| == |s|
    ensures forall i | 0 <= i < |s| :: r[i] == LowerChar(s[i])
  {
    if s == [] then [] else [LowerChar(s[0])] + ToLower(s[1..])
  }

  /** Strips leading whitespace. */
  function TrimStart(s: string): (r: string)
    ensures |r| <= |s| && r == s[|s| - |r|..]
    ensures AllWhitespace(s[..|s| - |r|])
    ensures r == [] || !IsWhitespace(r[0])
  {
    if s != [] && IsWhitespace(s[0]) then TrimStart(s[1..]) else s
  }

  /** Strips trailing whitespace. */
  function TrimEnd(s: string): (r: string)
    ensures |r| <= |s| && r == s[..|r|]
    ensures AllWhitespace(s[|r|..])
    ensures r == [] || !IsWhitespace(r[|r| - 1])
  {
    if s != [] && IsWhitespace(s[|s| - 1]) then TrimEnd(s[..|s| - 1]) else s
  }

  /** `s.trim()`: neither end of the result is whitespace; TrimSplit shows
      that only whitespace was removed, TrimUnique that this determines it. */
  function Trim(s: string): (r: string)
    ensures |r| <= |s|
    ensures r == [] || (!IsWhitespace(r[0]) && !IsWhitespace(r[|r| - 1]))
  {
    TrimEnd(TrimStart(s))
  }

  lemma {:induction false} TrimStartSkips(ws: string, x: string)
    requires AllWhitespace(ws)
    requires x == [] || !IsWhitespace(x[0])
    ensures TrimStart(ws + x) == x
  {
    if ws != [] {
      assert (ws + x)[1..] == ws[1..] + x;
      TrimStartSkips(ws[1..], x);
    } else {
      assert ws + x == x;
    }
  }

  lemma {:induction false} TrimEndSkips(x: string, ws: string)
    requires AllWhitespace(ws)
    requires x == [] || !IsWhitespace(x[|x| - 1])
    ensures TrimEnd(x + ws) == x
  {
    if ws != [] {
      assert (x + ws)[..|x + ws| - 1] == x + ws[..|ws| - 1];
      TrimEndSkips(x, ws[..|ws| - 1]);
    } else {
      assert x + ws == x;
    }
  }

  /** The characterisation of `trim()` determines it: whatever lies between a
      whitespace-only prefix and suffix and has no whitespace at either end is
      the trimmed string. */
  lemma {:induction false} TrimUnique(ws1: string, c: string, ws2: string)
    requires AllWhitespace(ws1) && AllWhitespace(ws2)
    requires c == [] || (!IsWhitespace(c[0]) && !IsWhitespace(c[|c| - 1]))
    ensures Trim(ws1 + c + ws2) == c
  {
    if c == [] {
      assert ws1 + c + ws2 == (ws1 + ws2) + [];
      TrimStartSkips(ws1 + ws2, []);
    } else {
      assert ws1 + c + ws2 == ws1 + (c + ws2);
      TrimStartSkips(ws1, c + ws2);
      TrimEndSkips(c, ws2);
    }
  }

  lemma {:induction false} AllWhitespaceAppend(a: string, b: string)
    requires AllWhitespace(a) && AllWhitespace(b)
    ensures AllWhitespace(a + b)
  {
    forall i | 0 <= i < |a + b| ensures IsWhitespace((a + b)[i]) {
      if i >= |a| { assert (a + b)[i] == b[i - |a|]; }
    }
  }

  lemma {:induction false} TrimStartSplit(s: string) returns (ws: string)
    ensures s == ws + TrimStart(s) && AllWhitespace(ws)
  {
    ws := s[..|s| - |TrimStart(s)|];
  }

  lemma {:induction false} TrimEndSplit(s: string) returns (ws: string)
    ensures s == TrimEnd(s) + ws && AllWhitespace(ws)
  {
    ws := s[|TrimEnd(s)|..];
  }

  /** Splits `s` around its trimmed text: only whitespace was removed. */
  lemma {:induction false} TrimSplit(s: string) returns (ws1: string, ws2: string)
    ensures s == ws1 + Trim(s) + ws2
    ensures AllWhitespace(ws1) && AllWhitespace(ws2)
  {
    var t := TrimStart(s);
    ws1 := TrimStartSplit(s);
    ws2 := TrimEndSplit(t);
    Assoc(ws1, TrimEnd(t), ws2);
  }

  /** Surrounding whitespace never changes the trimmed text. */
  lemma {:induction false} TrimIgnoresPadding(ws1: string, s: string, ws2: string)
    requires AllWhitespace(ws1) && AllWhitespace(ws2)
    ensures Trim(ws1 + s + ws2) == Trim(s)
  {
    var p, q := TrimSplit(s);
    AllWhitespaceAppend(ws1, p);
    AllWhitespaceAppend(q, ws2);
    Regroup(ws1, p, Trim(s), q, ws2);
    TrimUnique(ws1 + p, Trim(s), q + ws2);
  }

  lemma Assoc<T>(a: seq<T>, b: seq<T>, c: seq<T>)
    ensures a + b + c == a + (b + c)
  {
  }

  lemma Unpadded<T>(a: seq<T>)
    ensures [] + a + [] == a
  {
  }

  lemma SplitAt<T>(s: seq<T>, i: nat, j: nat)
    requires i <= j <= |s|
    ensures s == s[..i] + s[i..j] + s[j..]
  {
  }

  lemma PiecesOf<T>(a: seq<T>, b: seq<T>, c: seq<T>)
    ensures var s := a + b + c;
      s[..|a|] == a && s[|a|..|a| + |b|] == b && s[|a| + |b|..] == c
  {
  }

  lemma Regroup<T>(a: seq<T>, b: seq<T>, c: seq<T>, d: seq<T>, e: seq<T>)
    ensures a + (b + c + d) + e == (a + b) + c + (d + e)
  {
  }

  /** Text with no whitespace at either end is already trimmed. */
  lemma {:induction false} TrimUnpadded(s: string)
    requires s == [] || (!IsWhitespace(s[0]) && !IsWhitespace(s[|s| - 1]))
    ensures Trim(s) == s
  {
    Unpadded(s);
    TrimUnique([], s, []);
  }

  /** Trimming twice is trimming once. */
  lemma {:induction false} TrimIdempotent(s: string)
    ensures Trim(Trim(s)) == Trim(s)
  {
    TrimUnpadded(Trim(s));
  }

  lemma {:induction false} ToLowerAppend(a: string, b: string)
    ensures ToLower(a + b) == ToLower(a) + ToLower(b)
  {
    var l, r := ToLower(a + b), ToLower(a) + ToLower(b);
    assert |l| == |r|;
    forall i | 0 <= i < |l| ensures l[i] == r[i] {
      if i < |a| { assert (a + b)[i] == a[i]; } else { assert (a + b)[i] == b[i - |a|]; }
    }
  }

  /** Lower-casing leaves whitespace alone, so the order in which the two
      normalisations run does not matter. */
  lemma {:induction false} TrimToLowerCommute(s: string)
    ensures Trim(ToLower(s)) == ToLower(Trim(s))
  {
    var r := Trim(s);
    var ws1, ws2 := TrimSplit(s);
    WhitespaceHasNoCapitals(ws1);
    WhitespaceHasNoCapitals(ws2);
    ToLowerIdentity(ws1);
    ToLowerIdentity(ws2);
    ToLowerAppend(ws1 + r, ws2);
    ToLowerAppend(ws1, r);
    var lr := ToLower(r);
    if lr != [] {
      LowerCharKeepsWhitespace(r[0]);
      LowerCharKeepsWhitespace(r[|r| - 1]);
    }
    TrimUnique(ws1, lr, ws2);
  }

  lemma {:induction false} WhitespaceHasNoCapitals(ws: string)
    requires AllWhitespace(ws)
    ensures forall i | 0 <= i < |ws| :: !IsUpper(ws[i])
  {
    forall i | 0 <= i < |ws| ensures !IsUpper(ws[i]) {
      assert ws[i] in Whitespace;
    }
  }

  lemma {:induction false} ToLowerSlice(s: string, i: nat, j: nat)
    requires i <= j <= |s|
    ensures ToLower(s[i..j]) == ToLower(s)[i..j]
  {
    assert forall k | 0 <= k < j - i :: ToLower(s[i..j])[k] == ToLower(s)[i..j][k];
  }

  /** Lower-casing neither creates nor removes whitespace. */
  lemma {:induction false} WhitespaceLowered(s: string)
    requires AllWhitespace(ToLower(s))
    ensures AllWhitespace(s)
  {
    forall i | 0 <= i < |s| ensures IsWhitespace(s[i]) {
      assert IsWhitespace(ToLower(s)[i]);
      LowerCharKeepsWhitespace(s[i]);
    }
  }

  /** Normalising (lower-case, then trim) ignores surrounding whitespace. */
  lemma {:induction false} NormaliseIgnoresPadding(ws1: string, s: string, ws2: string)
    requires AllWhitespace(ws1) && AllWhitespace(ws2)
    ensures Trim(ToLower(ws1 + s + ws2)) == Trim(ToLower(s))
  {
    WhitespaceHasNoCapitals(ws1);
    WhitespaceHasNoCapitals(ws2);
    ToLowerIdentity(ws1);
    ToLowerIdentity(ws2);
    ToLowerAppend(ws1 + s, ws2);
    ToLowerAppend(ws1, s);
    TrimIgnoresPadding(ws1, ToLower(s), ws2);
  }

  /** The normalised text of `s` is the lower-case form of a piece of `s`
      that only whitespace surrounds. */
  lemma {:induction false} NormaliseSplit(s: string) returns (ws1: string, mid: string, ws2: string)
    ensures s == ws1 + mid + ws2
    ensures AllWhitespace(ws1) && AllWhitespace(ws2)
    ensures ToLower(mid) == Trim(ToLower(s))
  {
    var lower := ToLower(s);
    var p, q := TrimSplit(lower);
    var i, j := |p|, |p| + |Trim(lower)|;
    PiecesOf(p, Trim(lower), q);
    LowerPieces(s, i, j);
    ws1, mid, ws2 := s[..i], s[i..j], s[j..];
    SplitAt(s, i, j);
  }

  lemma {:induction false} LowerPieces(s: string, i: nat, j: nat)
    requires i <= j <= |s|
    requires AllWhitespace(ToLower(s)[..i]) && AllWhitespace(ToLower(s)[j..])
    ensures AllWhitespace(s[..i]) && AllWhitespace(s[j..])
    ensures ToLower(s[i..j]) == ToLower(s)[i..j]
  {
    ToLowerSlice(s, i, j);
    WhitespacePrefixLowered(s, i);
    WhitespaceSuffixLowered(s, j);
  }

  lemma {:induction false} WhitespacePrefixLowered(s: string, i: nat)
    requires i <= |s| && AllWhitespace(ToLower(s)[..i])
    ensures AllWhitespace(s[..i])
  {
    forall k | 0 <= k < i ensures IsWhitespace(s[..i][k]) {
      assert ToLower(s)[..i][k] == LowerChar(s[k]);
      LowerCharKeepsWhitespace(s[k]);
    }
  }

  lemma {:induction false} WhitespaceSuffixLowered(s: string, j: nat)
    requires j <= |s| && AllWhitespace(ToLower(s)[j..])
    ensures AllWhitespace(s[j..])
  {
    forall k | 0 <= k < |s| - j ensures IsWhitespace(s[j..][k]) {
      assert ToLower(s)[j..][k] == LowerChar(s[j + k]);
      LowerCharKeepsWhitespace(s[j + k]);
    }
  }

  /** Text without capitals is its own lower-case form. */
  lemma {:induction false} ToLowerIdentity(s: string)
    requires forall i | 0 <= i < |s| :: !IsUpper(s[i])
    ensures ToLower(s) == s
  {
    assert forall i | 0 <= i < |s| :: ToLower(s)[i] == s[i];
  }
}
