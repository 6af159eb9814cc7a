/** Error values of the texture pipeline and the text of the messages the
    loader builds for them. */
module Errors {

  datatype Option<+T> = None | Some(value: T)

  /** The three kinds of failure the core reports. */
  datatype Error =
    | DecodeError(message: string)  // passed on unchanged from a foreign decoder
    | NotLoaded(url: string)        // a lookup of a URL that has no registry entry
    | TypeMismatch(url: string)     // the resource under a URL is not a TextureResource

  datatype Result<+T> = Ok(value: T) | Err(error: Error)

  const NotLoadedPrefix: string := "resource not loaded by `FileLoader`: "
  const TypeMismatchPrefix: string := "resource not of type `TextureResource`: "

  /** The escape sequence Go's %q verb writes for one character. */
  function EscapeChar(c: char): string
  {
    match c
    case '"' => "\\\""
    case '\\' => "\\\\"
    case '\n' => "\\n"
    case '\r' => "\\r"
    case '\t' => "\\t"
    case _ => [c]
  }

  /** The character an escape sequence `\e` stands for, if `e` is one. */
  function UnescapeChar(e: char): Option<char>
  {
    match e
    case '"' => Some('"')
    case '\\' => Some('\\')
    case 'n' => Some('\n')
    case 'r' => Some('\r')
    case 't' => Some('\t')
    case _ => None
  }

  /** The body of a %q-quoted string: every double quote in it is preceded
      by a backslash. */
  function Escape(s: string): (r: string)
    ensures forall i :: 0 <= i < |r| && r[i] == '"' ==> 0 < i && r[i - 1] == '\\'
  {
    if s == [] then [] else EscapeChar(s[0]) + Escape(s[1..])
  }

  /** A string without quotes, backslashes or control characters is quoted
      as it is. */
  lemma {:induction false} EscapePlain(s: string)
    requires forall i :: 0 <= i < |s| ==> s[i] !in {'"', '\\', '\n', '\r', '\t'}
    ensures Escape(s) == s
  {
    if s != [] {
      EscapePlain(s[1..]);
      assert [s[0]] + s[1..] == s;
    }
  }

  /** Reads back the body of a quoted string. */
  function Unescape(e: string): Option<string>
  {
    if e == [] then Some([])
    else if e[0] == '\\' then
      if |e| < 2 then None
      else match (UnescapeChar(e[1]), Unescape(e[2..]))
        case (Some(c), Some(rest)) => Some([c] + rest)
        case _ => None
    else match Unescape(e[1..])
      case Some(rest) => Some([e[0]] + rest)
      case None => None
  }

  lemma {:induction false} UnescapeEscape(s: string)
    ensures Unescape(Escape(s)) == Some(s)
  {
    if s != [] {
      var c, t := s[0], s[1..];
      UnescapeEscape(t);
      var e := Escape(s);
      assert e == EscapeChar(c) + Escape(t);
      if c in {'"', '\\', '\n', '\r', '\t'} {
        assert e[0] == '\\' && UnescapeChar(e[1]) == Some(c) && e[2..] == Escape(t);
      } else {
        assert e[0] == c && e[1..] == Escape(t);
      }
      assert [c] + t == s;
    }
  }

  /** A left-to-right reader of a quoted body: the position of the first
      double quote that is not part of an escape sequence, or the length of
      `e` if there is none. */
  function ClosingQuote(e: string): (n: nat)
    ensures n <= |e|
    ensures n < |e| ==> e[n] == '"'
  {
    if e == [] || e[0] == '"' then 0
    else if e[0] == '\\' && 2 <= |e| then 2 + ClosingQuote(e[2..])
    else 1 + ClosingQuote(e[1..])
  }

  /** Whatever follows a quoted body, the reader stops at the quote that
      closes it and not earlier. */
  lemma {:induction false} EscapeEndsAtClosingQuote(s: string, rest: string)
    ensures ClosingQuote(Escape(s) + "\"" + rest) == |Escape(s)|
  {
    var e := Escape(s) + "\"" + rest;
    if s == [] {
      assert e[0] == '"';
    } else {
      var c, t := s[0], s[1..];
      EscapeEndsAtClosingQuote(t, rest);
      assert Escape(s) == EscapeChar(c) + Escape(t);
      if c in {'"', '\\', '\n', '\r', '\t'} {
        assert e[0] == '\\' && e[2..] == Escape(t) + "\"" + rest;
      } else {
        assert e[0] == c && e[1..] == Escape(t) + "\"" + rest;
      }
    }
  }

  /** Go's %q rendering of a string: a reader that starts after the opening
      quote stops at the final quote, and unescaping what lies between gives
      the string back. */
  function Quote(s: string): (r: string)
    ensures 2 <= |r| && r[0] == '"' && r[|r| - 1] == '"'
    ensures ClosingQuote(r[1..]) == |r| - 2
    ensures Unescape(r[1..|r| - 1]) == Some(s)
  {
    EscapeEndsAtClosingQuote(s, "");
    UnescapeEscape(s);
    var r := "\"" + Escape(s) + "\"";
    assert r[1..] == Escape(s) + "\"" + "";
    assert r[1..|r| - 1] == Escape(s);
    r
  }

  /** The text of the error, as `Error()` returns it: a decoder's own text,
      or a fixed prefix followed by the URL, quoted for a lookup failure and
      verbatim for a type mismatch. */
  function Message(e: Error): (r: string)
    ensures e.DecodeError? ==> r == e.message
    ensures e.NotLoaded? ==> r == NotLoadedPrefix + Quote(e.url)
    ensures e.TypeMismatch? ==> r == TypeMismatchPrefix + e.url
  {
    match e
    case DecodeError(m) => m
    case NotLoaded(url) => NotLoadedPrefix + Quote(url)
    case TypeMismatch(url) => TypeMismatchPrefix + url
  }

  /** Recovers the URL quoted in a not-loaded message. */
  function ParseNotLoaded(msg: string): Option<string>
  {
    var n := |NotLoadedPrefix|;
    if |msg| >= n + 2 && msg[..n] == NotLoadedPrefix && msg[n] == '"' && msg[|msg| - 1] == '"'
    then Unescape(msg[n + 1 .. |msg| - 1])
    else None
  }

  /** A not-loaded message quotes its URL: the URL can be read back from it. */
  lemma NotLoadedMessageQuotesUrl(url: string)
    ensures ParseNotLoaded(Message(NotLoaded(url))) == Some(url)
  {
    var msg, q := Message(NotLoaded(url)), Quote(url);
    var n := |NotLoadedPrefix|;
    assert msg[n] == q[0];
    assert msg[n + 1 .. |msg| - 1] == q[1..|q| - 1];
  }

  /** A printable ASCII character other than the double quote and the
      backslash has no escape sequence of its own. */
  lemma PrintableIsPlain(s: string)
    requires forall i :: 0 <= i < |s| ==> ' ' <= s[i] <= '~' && s[i] != '"' && s[i] != '\\'
    ensures forall i :: 0 <= i < |s| ==> s[i] !in {'"', '\\', '\n', '\r', '\t'}
  {
  }

  /** For a URL of printable ASCII characters other than the double quote
      and the backslash, the message is the prefix and the URL between
      double quotes. */
  lemma PlainNotLoadedMessage(url: string)
    requires forall i :: 0 <= i < |url| ==> ' ' <= url[i] <= '~' && url[i] != '"' && url[i] != '\\'
    ensures Message(NotLoaded(url)) == NotLoadedPrefix + "\"" + url + "\""
  {
    PrintableIsPlain(url);
    EscapePlain(url);
    var q := Quote(url);
    assert q == "\"" + Escape(url) + "\"";
    assert Message(NotLoaded(url)) == NotLoadedPrefix + q;
  }

  /** Hence two different URLs never produce the same not-loaded message. */
  lemma NotLoadedMessagesDistinct(u: string, v: string)
    requires u != v
    ensures Message(NotLoaded(u)) != Message(NotLoaded(v))
  {
    NotLoadedMessageQuotesUrl(u);
    NotLoadedMessageQuotesUrl(v);
  }
}
