/**
 * The `%q` verb of Go's fmt package applied to a string (strconv.Quote):
 * the text between double quotes, with '"' and '\' escaped by a backslash,
 * the seven control characters that have a one-letter escape written that
 * way, and every other ASCII control character (and DEL) written as `\x`
 * with two lower-case hex digits. Characters at and above U+0080 are kept as
 * they are. Unquote is the inverse, used to show that a quoted name can be
 * read back exactly.
 */
module GoQuote {
  import opened Wrappers

  /** The letter of the one-letter escape for `c`, if `c` has one. */
  function LetterEscape(c: char): Option<char> {
    if c == '"' then Some('"')
    else if c == '\\' then Some('\\')
    else if c == 7 as char then Some('a')
    else if c == 8 as char then Some('b')
    else if c == 12 as char then Some('f')
    else if c == '\n' then Some('n')
    else if c == '\r' then Some('r')
    else if c == '\t' then Some('t')
    else if c == 11 as char then Some('v')
    else None
  }

  /** The character a one-letter escape stands for. */
  function LetterUnescape(l: char): Option<char> {
    if l == '"' then Some('"')
    else if l == '\\' then Some('\\')
    else if l == 'a' then Some(7 as char)
    else if l == 'b' then Some(8 as char)
    else if l == 'f' then Some(12 as char)
    else if l == 'n' then Some('\n')
    else if l == 'r' then Some('\r')
    else if l == 't' then Some('\t')
    else if l == 'v' then Some(11 as char)
    else None
  }

  /** Characters written as `\xNN`: controls without a letter escape, and DEL. */
  predicate NeedsHexEscape(c: char) {
    LetterEscape(c).None? && ((c as int) < 0x20 || (c as int) == 0x7f)
  }

  function HexDigit(d: nat): char
    requires d < 16
  {
    "0123456789abcdef"[d]
  }

  predicate IsLowerHex(c: char) {
    ('0' <= c <= '9') || ('a' <= c <= 'f')
  }

  function HexValue(c: char): (d: nat)
    requires IsLowerHex(c)
    ensures d < 16 && HexDigit(d) == c
  {
    if '0' <= c <= '9' then (c as int) - ('0' as int) else (c as int) - ('a' as int) + 10
  }

  /** How one character of a string appears inside the quotes. */
  function EscapeChar(c: char): (t: string)
    ensures |t| >= 1
  {
    match LetterEscape(c)
    case Some(l) => ['\\', l]
    case None =>
      if NeedsHexEscape(c) then ['\\', 'x', HexDigit((c as int) / 16), HexDigit((c as int) % 16)]
      else [c]
  }

  function Escape(s: string): string {
    if s == [] then [] else EscapeChar(s[0]) + Escape(s[1..])
  }

  /** `fmt.Sprintf("%q", s)`. */
  function Quote(s: string): (q: string)
    ensures |q| >= 2 && q[0] == '"' && q[|q| - 1] == '"'
  {
    ['"'] + Escape(s) + ['"']
  }

  function Prepend(c: char, o: Option<string>): Option<string> {
    match o
    case Some(r) => Some([c] + r)
    case None => None
  }

  /** Reads the body of a quoted string back; a bare '"' or a malformed escape is None. */
  function Unescape(t: string): Option<string>
    decreases |t|
  {
    if t == [] then Some([])
    else if t[0] == '\\' then
      if |t| >= 2 && LetterUnescape(t[1]).Some? then
        Prepend(LetterUnescape(t[1]).value, Unescape(t[2..]))
      else if |t| >= 4 && t[1] == 'x' && IsLowerHex(t[2]) && IsLowerHex(t[3]) then
        Prepend((HexValue(t[2]) * 16 + HexValue(t[3])) as char, Unescape(t[4..]))
      else None
    else if t[0] == '"' then None
    else Prepend(t[0], Unescape(t[1..]))
  }

  function Unquote(q: string): Option<string> {
    if |q| >= 2 && q[0] == '"' && q[|q| - 1] == '"' then Unescape(q[1..|q| - 1]) else None
  }

  lemma UnescapeChar(c: char, t: string)
    ensures Unescape(EscapeChar(c) + t) == Prepend(c, Unescape(t))
  {
    var e := EscapeChar(c);
    if LetterEscape(c).Some? {
      assert (e + t)[2..] == t;
    } else if NeedsHexEscape(c) {
      var hi, lo := (c as int) / 16, (c as int) % 16;
      assert hi < 8;
      assert HexValue(HexDigit(hi)) == hi && HexValue(HexDigit(lo)) == lo;
      assert (e + t)[4..] == t;
    } else {
      assert (e + t)[1..] == t;
    }
  }

  lemma {:induction false} UnescapeEscape(s: string)
    ensures Unescape(Escape(s)) == Some(s)
  {
    if s != [] {
      UnescapeEscape(s[1..]);
      UnescapeChar(s[0], Escape(s[1..]));
      assert [s[0]] + s[1..] == s;
    }
  }

  /** Quoting loses nothing: the quoted text reads back as the original string. */
  lemma UnquoteQuote(s: string)
    ensures Unquote(Quote(s)) == Some(s)
  {
    var q := Quote(s);
    assert q[1..|q| - 1] == Escape(s);
    UnescapeEscape(s);
  }
}
