/** The string routines of PHP that the plugin relies on, written out:
    strpos-based prefix and substring tests, trim, rtrim of '/', explode,
    implode and the decimal rendering used by sprintf('%d'). */
module Strings {
  import opened Wrappers

  predicate StartsWith(s: string, prefix: string) {
    |prefix| <= |s| && s[..|prefix|] == prefix
  }

  /** strpos($s, $sub) !== false */
  predicate Contains(s: string, sub: string)
    decreases |s|
  {
    StartsWith(s, sub) || (|s| > 0 && Contains(s[1..], sub))
  }

  /** strpos($s, $sub): the index of the first occurrence, if any. */
  function IndexOf(s: string, sub: string): (r: Option<nat>)
    requires |sub| > 0
    ensures r.None? <==> !Contains(s, sub)
    ensures r.Some? ==> r.value + |sub| <= |s| && s[r.value..r.value + |sub|] == sub
    ensures r.Some? ==> forall j | 0 <= j < r.value :: !StartsWith(s[j..], sub)
    decreases |s|
  {
    if StartsWith(s, sub) then Some(0)
    else if |s| == 0 then None
    else match IndexOf(s[1..], sub)
      case Some(k) =>
        assert s[1..][k..k + |sub|] == s[k + 1..k + 1 + |sub|];
        assert forall j | 1 <= j < k + 1 :: s[j..] == s[1..][j - 1..];
        Some(k + 1)
      case None => None
  }

  /** The characters PHP's trim() removes by default: " \t\n\r\0\x0B". */
  predicate IsTrimChar(c: char) {
    c == ' ' || c == '\t' || c == '\n' || c == '\r' || c == '\0' || c == '\U{000B}'
  }

  function TrimLeft(s: string): (r: string)
    ensures |r| <= |s| && r == s[|s| - |r|..]
    ensures r == [] || !IsTrimChar(r[0])
    decreases |s|
  {
    if |s| > 0 && IsTrimChar(s[0]) then TrimLeft(s[1..]) else s
  }

  function TrimRight(s: string): (r: string)
    ensures |r| <= |s| && r == s[..|r|]
    ensures r == [] || !IsTrimChar(r[|r| - 1])
    decreases |s|
  {
    if |s| > 0 && IsTrimChar(s[|s| - 1]) then TrimRight(s[..|s| - 1]) else s
  }

  /** PHP trim($s). */
  function Trim(s: string): (r: string)
    ensures |r| <= |s|
    ensures r == [] || (!IsTrimChar(r[0]) && !IsTrimChar(r[|r| - 1]))
  {
    var l := TrimLeft(s);
    var r := TrimRight(l);
    assert r != [] ==> r[0] == l[0];
    r
  }

  /** PHP rtrim($s, '/'): every trailing '/' removed. */
  function RTrimSlash(s: string): (r: string)
    ensures |r| <= |s| && r == s[..|r|]
    ensures r == [] || r[|r| - 1] != '/'
    ensures forall i | |r| <= i < |s| :: s[i] == '/'
    decreases |s|
  {
    if |s| > 0 && s[|s| - 1] == '/' then RTrimSlash(s[..|s| - 1]) else s
  }

  /** PHP implode($sep, $parts). */
  function Join(parts: seq<string>, sep: string): string
    decreases |parts|
  {
    if |parts| == 0 then ""
    else if |parts| == 1 then parts[0]
    else parts[0] + sep + Join(parts[1..], sep)
  }

  /** PHP explode($sep, $s) for a non-empty separator. */
  function Split(s: string, sep: string): (r: seq<string>)
    requires |sep| > 0
    ensures |r| > 0
    decreases |s|
  {
    match IndexOf(s, sep)
    case None => [s]
    case Some(i) => [s[..i]] + Split(s[i + |sep|..], sep)
  }

  function DigitChar(d: nat): char
    requires d < 10
  {
    "0123456789"[d]
  }

  function NatToDecimal(n: nat): (r: string)
    ensures |r| > 0
    decreases n
  {
    if n < 10 then [DigitChar(n)] else NatToDecimal(n / 10) + [DigitChar(n % 10)]
  }

  /** The decimal rendering PHP gives an int (sprintf('%d'), string conversion). */
  function IntToDecimal(n: int): (r: string)
    ensures |r| > 0
  {
    if n < 0 then "-" + NatToDecimal(-n) else NatToDecimal(n)
  }

  // ---------------------------------------------------------------------
  // Lemmas

  lemma {:induction false} NotContainsTail(s: string, sub: string)
    requires |s| > 0 && !Contains(s, sub)
    ensures !Contains(s[1..], sub)
  {
  }

  /** With the separator ", " (which cannot overlap itself), the first
      occurrence in n + ", " + rest is the separator right after n. */
  lemma {:induction false} FirstCommaSeparator(n: string, rest: string)
    requires !Contains(n, ", ")
    ensures IndexOf(n + ", " + rest, ", ") == Some(|n|)
    decreases |n|
  {
    var s := n + ", " + rest;
    if |n| == 0 {
      assert s[..2] == ", ";
    } else {
      assert !StartsWith(s, ", ") by {
        if |n| >= 2 {
          assert s[..2] == n[..2];
          assert !StartsWith(n, ", ");
        } else {
          assert s[1] == ',';
        }
      }
      NotContainsTail(n, ", ");
      assert s[1..] == n[1..] + ", " + rest;
      FirstCommaSeparator(n[1..], rest);
    }
  }

  /** explode(', ', implode(', ', names)) == names when no name contains ", ". */
  lemma {:induction false} SplitJoinRoundTrip(names: seq<string>)
    requires |names| > 0
    requires forall i | 0 <= i < |names| :: !Contains(names[i], ", ")
    ensures Split(Join(names, ", "), ", ") == names
    decreases |names|
  {
    if |names| == 1 {
      assert IndexOf(names[0], ", ") == None;
    } else {
      var rest := Join(names[1..], ", ");
      var s := names[0] + ", " + rest;
      FirstCommaSeparator(names[0], rest);
      assert s[..|names[0]|] == names[0];
      assert s[|names[0]| + 2..] == rest;
      SplitJoinRoundTrip(names[1..]);
      assert [names[0]] + names[1..] == names;
    }
  }

  /** Appending trim characters at the end changes nothing TrimRight keeps. */
  lemma {:induction false} TrimRightAppendTrimChars(s: string, w: string)
    requires forall i | 0 <= i < |w| :: IsTrimChar(w[i])
    ensures TrimRight(s + w) == TrimRight(s)
    decreases |w|
  {
    if |w| > 0 {
      var t := s + w;
      assert t[..|t| - 1] == s + w[..|w| - 1];
      TrimRightAppendTrimChars(s, w[..|w| - 1]);
    } else {
      assert s + w == s;
    }
  }

  /** Appending trim characters at the end changes nothing TrimLeft keeps,
      unless the whole string is trimmed away. */
  lemma {:induction false} TrimLeftAppendTrimChars(s: string, w: string)
    requires forall i | 0 <= i < |w| :: IsTrimChar(w[i])
    ensures TrimLeft(s + w) == if TrimLeft(s) == [] then [] else TrimLeft(s) + w
    decreases |s| + |w|
  {
    if |s| > 0 {
      if IsTrimChar(s[0]) {
        assert (s + w)[1..] == s[1..] + w;
        TrimLeftAppendTrimChars(s[1..], w);
      }
    } else if |w| > 0 {
      assert s + w == w;
      assert w[1..] == [] + w[1..];
      TrimLeftAppendTrimChars([], w[1..]);
    } else {
      assert s + w == s;
    }
  }

  /** trim($s . $w) == trim($s) when $w is made of trim characters. */
  lemma TrimAppendTrimChars(s: string, w: string)
    requires forall i | 0 <= i < |w| :: IsTrimChar(w[i])
    ensures Trim(s + w) == Trim(s)
  {
    TrimLeftAppendTrimChars(s, w);
    if TrimLeft(s) != [] {
      TrimRightAppendTrimChars(TrimLeft(s), w);
    }
  }
}
