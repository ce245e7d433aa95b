/** The string operations the services rely on: Unicode white space, `trim`,
    `split_whitespace` joined by single spaces, and ASCII case mapping. */
module Text {

  /** The characters of Unicode's White_Space property, which Rust's `char::is_whitespace` uses. */
  predicate IsSpace(c: char) {
    var n := c as int;
    || 0x09 <= n <= 0x0D || n == 0x20 || n == 0x85 || n == 0xA0 || n == 0x1680
    || 0x2000 <= n <= 0x200A || n == 0x2028 || n == 0x2029 || n == 0x202F || n == 0x205F
    || n == 0x3000
  }

  predicate AllSpace(s: string) {
    forall c | c in s :: IsSpace(c)
  }

  function TrimStart(s: string): string {
    if s != [] && IsSpace(s[0]) then TrimStart(s[1..]) else s
  }

  function TrimEnd(s: string): string {
    if s != [] && IsSpace(s[|s| - 1]) then TrimEnd(s[..|s| - 1]) else s
  }

  function Trim(s: string): string {
    TrimEnd(TrimStart(s))
  }

  /** Blank after trimming, the services' test for a missing field. */
  predicate Blank(s: string) {
    Trim(s) == ""
  }

  lemma {:induction false} TrimStartNothing(s: string)
    ensures TrimStart(s) == [] <==> AllSpace(s)
  {
    if s != [] && IsSpace(s[0]) {
      TrimStartNothing(s[1..]);
      assert s == [s[0]] + s[1..];
    } else if s != [] {
      assert s[0] in s;
    }
  }

  lemma {:induction false} TrimStartShrinks(s: string)
    ensures |TrimStart(s)| <= |s| && (TrimStart(s) != [] ==> !IsSpace(TrimStart(s)[0]))
  {
    if s != [] && IsSpace(s[0]) {
      TrimStartShrinks(s[1..]);
    }
  }

  lemma {:induction false} TrimEndTrimmed(s: string)
    ensures TrimEnd(s) == [] || (!IsSpace(TrimEnd(s)[|TrimEnd(s)| - 1]) && TrimEnd(s)[0] == s[0])
    ensures |TrimEnd(s)| <= |s| && TrimEnd(s) == s[..|TrimEnd(s)|]
  {
    if s != [] && IsSpace(s[|s| - 1]) {
      TrimEndTrimmed(s[..|s| - 1]);
    }
  }

  lemma TrimKeeps(s: string)
    requires s != "" ==> !IsSpace(s[0]) && !IsSpace(s[|s| - 1])
    ensures Trim(s) == s
  {
  }

  /** Trimming leaves no white space at either end, so trimming again changes nothing. */
  lemma TrimIdempotent(s: string)
    ensures Trim(s) != "" ==> !IsSpace(Trim(s)[0]) && !IsSpace(Trim(s)[|Trim(s)| - 1])
    ensures Trim(Trim(s)) == Trim(s) && |Trim(s)| <= |s|
  {
    TrimStartShrinks(s);
    TrimEndTrimmed(TrimStart(s));
    TrimKeeps(Trim(s));
  }

  function LowerChar(c: char): char {
    if 'A' <= c <= 'Z' then (c as int + 32) as char else c
  }

  function UpperChar(c: char): char {
    if 'a' <= c <= 'z' then (c as int - 32) as char else c
  }

  /** Rust's `to_ascii_lowercase`. */
  function AsciiLower(s: string): string {
    seq(|s|, i requires 0 <= i < |s| => LowerChar(s[i]))
  }

  /** Rust's `to_ascii_uppercase`. */
  function AsciiUpper(s: string): string {
    seq(|s|, i requires 0 <= i < |s| => UpperChar(s[i]))
  }

  /** Trimming cuts white space off both ends and nothing else. */
  lemma TrimCuts(s: string)
    ensures exists a, b :: AllSpace(a) && AllSpace(b) && s == a + Trim(s) + b
  {
    var a := TrimStartCuts(s);
    var b := TrimEndCuts(TrimStart(s));
    assert s == a + Trim(s) + b;
  }

  lemma {:induction false} TrimStartCuts(s: string) returns (a: string)
    ensures AllSpace(a) && s == a + TrimStart(s)
  {
    a := "";
    if s != [] && IsSpace(s[0]) {
      var rest := TrimStartCuts(s[1..]);
      a := [s[0]] + rest;
    }
  }

  lemma {:induction false} TrimEndCuts(s: string) returns (b: string)
    ensures AllSpace(b) && s == TrimEnd(s) + b
  {
    b := "";
    if s != [] && IsSpace(s[|s| - 1]) {
      var rest := TrimEndCuts(s[..|s| - 1]);
      b := rest + [s[|s| - 1]];
    }
  }

  /** The two case mappings undo each other, leave no letter of the other case, and touch nothing
      but ASCII letters. */
  lemma CaseMaps(s: string)
    ensures AsciiLower(AsciiUpper(s)) == AsciiLower(s) && AsciiUpper(AsciiLower(s)) == AsciiUpper(s)
    ensures |AsciiLower(s)| == |s| == |AsciiUpper(s)|
    ensures forall i | 0 <= i < |s| ::
              !('A' <= AsciiLower(s)[i] <= 'Z') && (AsciiLower(s)[i] == s[i] <==> !('A' <= s[i] <= 'Z'))
    ensures forall i | 0 <= i < |s| ::
              !('a' <= AsciiUpper(s)[i] <= 'z') && (AsciiUpper(s)[i] == s[i] <==> !('a' <= s[i] <= 'z'))
    ensures AsciiLower("ABCDEFGHIJKLMNOPQRSTUVWXYZ") == "abcdefghijklmnopqrstuvwxyz"
  {
    var upper, lower := "ABCDEFGHIJKLMNOPQRSTUVWXYZ", "abcdefghijklmnopqrstuvwxyz";
    assert forall i | 0 <= i < 26 :: upper[i] as int == 'A' as int + i && lower[i] as int == 'a' as int + i;
  }
}
