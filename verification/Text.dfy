// Strings as the sources treat them: ASCII case folding and white-space trimming.
module Text {

  function LowerChar(c: char): char {
    if 'A' <= c <= 'Z' then (c as int + 32) as char else c
  }

  /** ASCII lower case; equality of folds is `eq_ignore_ascii_case`. */
  function Lower(s: string): string {
    seq(|s|, i requires 0 <= i < |s| => LowerChar(s[i]))
  }

  /** Code points that both runtimes trim. */
  predicate IsCommonSpace(c: char) {
    var p := c as int;
    0x09 <= p <= 0x0D || p in {0x20, 0xA0, 0x1680, 0x2028, 0x2029, 0x202F, 0x205F, 0x3000} || 0x2000 <= p <= 0x200A
  }

  /** What `str::trim` removes in Rust. */
  predicate IsRustSpace(c: char) {
    IsCommonSpace(c) || c as int == 0x85
  }

  /** What `String.prototype.trim` removes in JavaScript. */
  predicate IsScriptSpace(c: char) {
    IsCommonSpace(c) || c as int == 0xFEFF
  }

  function TrimStart(s: string, space: char -> bool): string {
    if s != [] && space(s[0]) then TrimStart(s[1..], space) else s
  }

  function TrimEnd(s: string, space: char -> bool): string {
    if s != [] && space(s[|s| - 1]) then TrimEnd(s[..|s| - 1], space) else s
  }

  function Trim(s: string, space: char -> bool): string {
    TrimEnd(TrimStart(s, space), space)
  }

  /** Nothing to trim at either end. */
  predicate Tight(s: string, space: char -> bool) {
    s == [] || (!space(s[0]) && !space(s[|s| - 1]))
  }

  lemma {:induction false} TrimStartShape(s: string, space: char -> bool)
    ensures TrimStart(s, space) == [] || !space(TrimStart(s, space)[0])
  {
    if s != [] && space(s[0]) {
      TrimStartShape(s[1..], space);
    }
  }

  lemma {:induction false} TrimEndIsPrefix(s: string, space: char -> bool)
    ensures TrimEnd(s, space) <= s
    ensures TrimEnd(s, space) == [] || !space(TrimEnd(s, space)[|TrimEnd(s, space)| - 1])
  {
    if s != [] && space(s[|s| - 1]) {
      TrimEndIsPrefix(s[..|s| - 1], space);
    }
  }

  /** A trimmed text is tight, and trimming it again changes nothing. */
  lemma TrimTwice(s: string, space: char -> bool)
    ensures Tight(Trim(s, space), space) && Trim(Trim(s, space), space) == Trim(s, space)
  {
    TrimStartShape(s, space);
    TrimEndIsPrefix(TrimStart(s, space), space);
  }

  function Digit(n: nat): (c: char)
    requires n < 10
    ensures '0' <= c <= '9'
  {
    ('0' as int + n) as char
  }

  function Decimal(n: nat): (s: string)
    ensures s != [] && '.' !in s
    ensures forall c :: c in s ==> '0' <= c <= '9'
  {
    if n < 10 then [Digit(n)] else Decimal(n / 10) + [Digit(n % 10)]
  }
}
