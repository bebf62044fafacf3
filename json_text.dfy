/** A stand-in for the string encoding of a JSON encoder (RFC 8259, section 7):
    the characters that would end a string or an event-stream line are written
    as two-character escapes, every other character stands for itself. The
    stand-in is injective, which is all the relay's framing depends on. */
module JsonText {

  import opened Wrappers

  /** True for the characters written as a backslash escape. */
  predicate NeedsEscape(c: char) {
    c == '"' || c == '\\' || c == '\n' || c == '\r' || c == '\t'
  }

  /** The letter that follows the backslash in the escape of `c`. */
  function EscapeLetter(c: char): char
    requires NeedsEscape(c)
  {
    if c == '\n' then 'n' else if c == '\r' then 'r' else if c == '\t' then 't' else c
  }

  /** The character an escape letter stands for, if it is one. */
  function UnescapeLetter(l: char): (r: Option<char>)
    ensures r.Some? ==> NeedsEscape(r.value) && EscapeLetter(r.value) == l
  {
    if l == 'n' then Some('\n')
    else if l == 'r' then Some('\r')
    else if l == 't' then Some('\t')
    else if l == '"' || l == '\\' then Some(l)
    else None
  }

  function EscapeChar(c: char): (r: string)
    ensures '\n' !in r && '\r' !in r
  {
    if NeedsEscape(c) then ['\\', EscapeLetter(c)] else [c]
  }

  /** The body of a JSON string literal for `s`, without the quotes. It never
      holds a line break, so a quoted string never splits an event-stream line. */
  function Escape(s: string): (r: string)
    ensures forall i :: 0 <= i < |r| ==> r[i] != '\n' && r[i] != '\r'
  {
    if s == [] then [] else EscapeChar(s[0]) + Escape(s[1..])
  }

  /** The JSON string literal for `s`. */
  function Quote(s: string): string {
    "\"" + Escape(s) + "\""
  }

  /** Reads the body of a string literal up to its closing quote: the decoded
      text and what follows the quote, or None when the literal is malformed. */
  function ReadString(s: string): Option<(string, string)>
    decreases |s|
  {
    if s == [] then None
    else if s[0] == '"' then Some(([], s[1..]))
    else if s[0] == '\\' then
      if |s| < 2 then None
      else match UnescapeLetter(s[1])
        case None => None
        case Some(c) =>
          match ReadString(s[2..])
          case None => None
          case Some(p) => Some(([c] + p.0, p.1))
    else if s[0] == '\n' || s[0] == '\r' then None
    else match ReadString(s[1..])
      case None => None
      case Some(p) => Some(([s[0]] + p.0, p.1))
  }

  /** Reading an escaped string back, up to its closing quote, gives the
      original text and leaves what follows untouched. */
  lemma {:induction false} ReadEscaped(s: string, rest: string)
    ensures ReadString(Escape(s) + "\"" + rest) == Some((s, rest))
  {
    if s == [] {
      assert Escape(s) + "\"" + rest == "\"" + rest;
    } else {
      var t := Escape(s[1..]) + "\"" + rest;
      ReadEscaped(s[1..], rest);
      assert Escape(s) + "\"" + rest == EscapeChar(s[0]) + t;
      var u := EscapeChar(s[0]) + t;
      if NeedsEscape(s[0]) {
        assert u[0] == '\\' && u[1] == EscapeLetter(s[0]) && u[2..] == t;
      } else {
        assert u[0] == s[0] && u[1..] == t;
      }
      assert [s[0]] + s[1..] == s;
    }
  }

  /** A string with nothing to escape is its own escape. */
  lemma {:induction false} EscapePlain(s: string)
    requires forall i :: 0 <= i < |s| ==> !NeedsEscape(s[i])
    ensures Escape(s) == s
  {
    if s != [] {
      EscapePlain(s[1..]);
      assert [s[0]] + s[1..] == s;
    }
  }
}
