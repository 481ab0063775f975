/** Limits and text checks that several components share. */
module Common {
  /** Number.MAX_SAFE_INTEGER */
  const MAX_SAFE_INTEGER := 9007199254740991

  /** The last instant an ECMAScript Date can hold. */
  const MAX_DATE_MS := 8_640_000_000_000_000

  predicate DateOk(ms: int) { -MAX_DATE_MS <= ms <= MAX_DATE_MS }

  predicate Digit(ch: char) { '0' <= ch <= '9' }

  predicate AlphaNumeric(ch: char) { 'A' <= ch <= 'Z' || 'a' <= ch <= 'z' || Digit(ch) }

  /** A letter or digit, then letters, digits, dots, underscores, colons and hyphens. */
  predicate Identifier(s: string, limit: nat) {
    && 1 <= |s| <= limit && AlphaNumeric(s[0])
    && forall i :: 0 <= i < |s| ==> AlphaNumeric(s[i]) || s[i] in {'.', '_', ':', '-'}
  }

  /** White space as String.prototype.trim takes it. */
  predicate Blank(ch: char) {
    var n := ch as int;
    9 <= n <= 13 || n == 32 || n == 160 || n == 5760 || 8192 <= n <= 8202 || n in {8232, 8233, 8239, 8287, 12288, 65279}
  }

  /** A SHA-256 digest in lower-case hexadecimal. */
  predicate HexHash(s: string) { |s| == 64 && forall i :: 0 <= i < 64 ==> 'a' <= s[i] <= 'f' || Digit(s[i]) }
}
