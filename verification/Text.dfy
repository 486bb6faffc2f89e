/** The string functions of Go and SQL that the code relies on. */
module Text {
  import opened Wrappers

  /** unicode.IsSpace */
  predicate IsSpace(c: char) {
    || c == ' ' || '\t' <= c <= '\r' || c == '\U{85}' || c == '\U{a0}' || c == '\U{1680}'
    || '\U{2000}' <= c <= '\U{200a}' || c == '\U{2028}' || c == '\U{2029}' || c == '\U{202f}'
    || c == '\U{205f}' || c == '\U{3000}'
  }

  lemma AsciiSpaces(c: char)
    requires c < '\U{80}'
    ensures IsSpace(c) <==> c == ' ' || c == '\t' || c == '\n' || c == '\U{b}' || c == '\U{c}' || c == '\r'
  {
  }

  /** strings.TrimSpace */
  function TrimSpace(s: string): (t: string)
    ensures |t| <= |s|
    ensures t != "" ==> !IsSpace(t[0]) && !IsSpace(t[|t| - 1])
    ensures t == "" <==> forall i | 0 <= i < |s| :: IsSpace(s[i])
  {
    if s == "" then ""
    else if IsSpace(s[0]) then
      var t := TrimSpace(s[1..]);
      assert (forall i | 0 <= i < |s| :: IsSpace(s[i])) <==> (forall i | 0 <= i < |s[1..]| :: IsSpace(s[1..][i])) by {
        assert forall i | 0 < i < |s| :: s[i] == s[1..][i - 1];
      }
      t
    else if IsSpace(s[|s| - 1]) then
      TrimSpace(s[..|s| - 1])
    else s
  }

  /** Only white space is cut off, and only at the ends. */
  lemma {:induction false} TrimSpaceCutsEnds(s: string) returns (i: nat, j: nat)
    ensures i <= j <= |s| && TrimSpace(s) == s[i..j]
    ensures forall m | 0 <= m < |s| && !(i <= m < j) :: IsSpace(s[m])
  {
    if s == "" {
      i, j := 0, 0;
    } else if IsSpace(s[0]) {
      i, j := TrimSpaceCutsEnds(s[1..]);
      i, j := i + 1, j + 1;
      assert s[1..][i - 1..j - 1] == s[i..j];
      forall m | 0 <= m < |s| && !(i <= m < j) ensures IsSpace(s[m]) {
        assert m > 0 ==> s[m] == s[1..][m - 1];
      }
    } else if IsSpace(s[|s| - 1]) {
      i, j := TrimSpaceCutsEnds(s[..|s| - 1]);
      assert s[..|s| - 1][i..j] == s[i..j];
      forall m | 0 <= m < |s| && !(i <= m < j) ensures IsSpace(s[m]) {
        assert m < |s| - 1 ==> s[m] == s[..|s| - 1][m];
      }
    } else {
      i, j := 0, |s|;
    }
  }

  /** There is nothing to trim. */
  predicate Trimmed(s: string) {
    s != "" ==> !IsSpace(s[0]) && !IsSpace(s[|s| - 1])
  }

  lemma TrimmedStaysTrimmed(s: string)
    requires Trimmed(s)
    ensures TrimSpace(s) == s
  {
  }

  predicate Blank(s: string) {
    TrimSpace(s) == ""
  }

  /** SQL trim(): spaces only, both ends. */
  function SqlTrim(s: string): (t: string)
    ensures |t| <= |s|
  {
    if s == "" then ""
    else if s[0] == ' ' then SqlTrim(s[1..])
    else if s[|s| - 1] == ' ' then SqlTrim(s[..|s| - 1])
    else s
  }

  /** Only spaces are cut off, all of them, and only at the ends. */
  lemma {:induction false} SqlTrimCutsEnds(s: string) returns (i: nat, j: nat)
    ensures i <= j <= |s| && SqlTrim(s) == s[i..j]
    ensures forall m | 0 <= m < |s| && !(i <= m < j) :: s[m] == ' '
    ensures i < j ==> s[i] != ' ' && s[j - 1] != ' '
  {
    if s == "" {
      i, j := 0, 0;
    } else if s[0] == ' ' {
      i, j := SqlTrimCutsEnds(s[1..]);
      i, j := i + 1, j + 1;
      assert s[1..][i - 1..j - 1] == s[i..j];
      forall m | 0 <= m < |s| && !(i <= m < j) ensures s[m] == ' ' {
        assert m > 0 ==> s[m] == s[1..][m - 1];
      }
    } else if s[|s| - 1] == ' ' {
      i, j := SqlTrimCutsEnds(s[..|s| - 1]);
      assert s[..|s| - 1][i..j] == s[i..j];
      forall m | 0 <= m < |s| && !(i <= m < j) ensures s[m] == ' ' {
        assert m < |s| - 1 ==> s[m] == s[..|s| - 1][m];
      }
    } else {
      i, j := 0, |s|;
    }
  }

  /** NULLIF(trim(s), '') */
  function NullIfBlank(s: string): (o: Option<string>)
    ensures o.Some? ==> 0 < |o.value| <= |s|
  {
    var t := SqlTrim(s);
    if t == "" then None else Some(t)
  }

  function Lower(c: char): char {
    if 'A' <= c <= 'Z' then c - 'A' + 'a' else c
  }

  lemma SameLetter(c: char, d: char)
    ensures Lower(c) == Lower(d) <==>
              c == d || ('A' <= c <= 'Z' && d == c + 'a' - 'A') || ('A' <= d <= 'Z' && c == d + 'a' - 'A')
  {
  }

  /** strings.EqualFold on the ASCII text a hexadecimal digest is made of. */
  predicate EqualFold(s: string, t: string) {
    |s| == |t| && forall i | 0 <= i < |s| :: Lower(s[i]) == Lower(t[i])
  }
}
