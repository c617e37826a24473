/** The few string operations the modelled code relies on. */
module Text {
  import opened Common

  /** Rust's char::is_whitespace (the Unicode White_Space property). */
  predicate IsWhitespace(c: char) {
    || 0x09 as char <= c <= 0x0D as char
    || c == ' ' || c == 0x85 as char || c == 0xA0 as char || c == 0x1680 as char
    || 0x2000 as char <= c <= 0x200A as char
    || c == 0x2028 as char || c == 0x2029 as char || c == 0x202F as char
    || c == 0x205F as char || c == 0x3000 as char
  }

  function TrimStart(s: string): string {
    if s != [] && IsWhitespace(s[0]) then TrimStart(s[1..]) else s
  }

  function TrimEnd(s: string): string {
    if s != [] && IsWhitespace(s[|s| - 1]) then TrimEnd(s[..|s| - 1]) else s
  }

  function Trim(s: string): string {
    TrimEnd(TrimStart(s))
  }

  predicate Blank(s: string) {
    forall c | c in s :: IsWhitespace(c)
  }

  /** Nothing, or text that neither starts nor ends with a blank. */
  predicate Trimmed(s: string) {
    s != "" ==> !IsWhitespace(s[0]) && !IsWhitespace(s[|s| - 1])
  }

  lemma {:induction false} TrimStartCuts(s: string) returns (i: nat)
    ensures i <= |s| && TrimStart(s) == s[i..] && Blank(s[..i]) && (i < |s| ==> !IsWhitespace(s[i]))
  {
    hide IsWhitespace;
    if s != [] && IsWhitespace(s[0]) {
      i := TrimStartCuts(s[1..]);
      assert s[..i + 1] == [s[0]] + s[1..][..i];
      i := i + 1;
    } else {
      i := 0;
    }
  }

  lemma {:induction false} TrimEndCuts(s: string) returns (j: nat)
    ensures j <= |s| && TrimEnd(s) == s[..j] && Blank(s[j..]) && (j > 0 ==> !IsWhitespace(s[j - 1]))
  {
    hide IsWhitespace;
    var n := |s| - 1;
    if s != [] && IsWhitespace(s[n]) {
      j := TrimEndCuts(s[..n]);
      assert s[j..] == s[..n][j..] + [s[n]];
    } else {
      j := |s|;
    }
  }

  /** Trimming cuts off blanks at both ends and nothing else. */
  lemma TrimMeaning(s: string) returns (i: nat, j: nat)
    ensures i <= j <= |s| && Trim(s) == s[i..j] && Blank(s[..i]) && Blank(s[j..]) && Trimmed(Trim(s))
  {
    hide IsWhitespace, TrimStart, TrimEnd;
    i := TrimStartCuts(s);
    var k := TrimEndCuts(s[i..]);
    j := i + k;
    assert s[i..][k..] == s[j..] && s[i..][..k] == s[i..j];
  }

  /** Trimmed text is left alone. */
  lemma TrimUnchanged(s: string)
    requires Trimmed(s)
    ensures Trim(s) == s
  {
  }

  lemma {:induction false} TrimStartAppend(s: string, c: char)
    requires IsWhitespace(c)
    ensures TrimStart(s + [c]) == if TrimStart(s) == [] then [] else TrimStart(s) + [c]
  {
    if s == [] {
      assert (s + [c])[1..] == [];
    } else if IsWhitespace(s[0]) {
      assert (s + [c])[1..] == s[1..] + [c];
      TrimStartAppend(s[1..], c);
    }
  }

  /** A trailing blank makes no difference to a trimmed string. */
  lemma TrimIgnoresTrailing(s: string, c: char)
    requires IsWhitespace(c)
    ensures Trim(s + [c]) == Trim(s)
  {
    TrimStartAppend(s, c);
    var t := TrimStart(s);
    assert (t + [c])[..|t|] == t;
  }

  /** Position of the first newline. */
  function FindNewline(s: string): (r: Option<nat>)
    ensures r.Some? ==> r.value < |s| && s[r.value] == '\n' && '\n' !in s[..r.value]
    ensures r.None? ==> '\n' !in s
  {
    if s == [] then None
    else if s[0] == '\n' then Some(0)
    else
      match FindNewline(s[1..])
      case None => assert s == [s[0]] + s[1..]; None
      case Some(i) => assert s[..i + 1] == [s[0]] + s[1..][..i]; Some(i + 1)
  }

  lemma FirstNewlineAt(s: string, i: nat)
    requires i < |s| && s[i] == '\n' && '\n' !in s[..i]
    ensures FindNewline(s) == Some(i)
  {
  }

  /** Position of the first occurrence of a pattern (str::find). */
  function Find(s: string, pattern: string): (r: Option<nat>)
    ensures r.Some? ==> r.value <= |s| && pattern <= s[r.value..]
    ensures r.Some? ==> forall j | 0 <= j < r.value :: !(pattern <= s[j..])
    ensures r.None? ==> forall j | 0 <= j <= |s| :: !(pattern <= s[j..])
  {
    if pattern <= s then Some(0)
    else if s == [] then None
    else
      match Find(s[1..], pattern)
      case None =>
        assert forall j | 1 <= j <= |s| :: s[j..] == s[1..][j - 1..];
        None
      case Some(i) =>
        assert forall j | 1 <= j <= |s| :: s[j..] == s[1..][j - 1..];
        Some(i + 1)
  }
}
