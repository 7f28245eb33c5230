/** Go error values as this core produces and inspects them, and the `%q` verb
    that its messages use to quote names. */
module Errors {
  import opened Wrappers

  /** An error value.  `NotFound` is a Kubernetes API status error whose reason is
      "not found" (what `apierrors.IsNotFound` recognises); `Other` is any other
      error with its message; `Wrapped` is what `errors.Wrapf` builds: a message
      put in front of a cause that stays reachable. */
  datatype Error =
    | NotFound(message: string)
    | Other(message: string)
    | Wrapped(message: string, cause: Error)

  /** `apierrors.IsNotFound`: only an API status error itself is recognised, not
      one that has been wrapped. */
  predicate IsNotFound(e: Error) {
    e.NotFound?
  }

  /** `err.Error()`: a wrapped error reads "<message>: <cause's text>". */
  function Text(e: Error): (s: string)
    ensures e.Wrapped? ==> |s| >= |e.message| + 2 && s[..|e.message| + 2] == e.message + ": "
  {
    match e
    case NotFound(m) => m
    case Other(m) => m
    case Wrapped(m, cause) => m + ": " + Text(cause)
  }

  /** `errors.Cause`: the innermost error under every wrapping. */
  function Cause(e: Error): (c: Error)
    ensures !c.Wrapped?
    ensures !e.Wrapped? ==> c == e
    ensures e.Wrapped? ==> c == Cause(e.cause)
  {
    if e.Wrapped? then Cause(e.cause) else e
  }

  /** The escaped form of one character inside a Go-quoted string. */
  function EscapeChar(c: char): string {
    if c == '"' || c == '\\' then ['\\', c] else [c]
  }

  /** The body of a Go-quoted string: every double quote and backslash is
      preceded by a backslash. */
  function Escape(s: string): (t: string)
    ensures |t| >= |s|
  {
    if s == [] then [] else EscapeChar(s[0]) + Escape(s[1..])
  }

  /** What `%q` prints for `s`: the escaped characters between double quotes. */
  function Quote(s: string): (q: string)
    ensures |q| >= |s| + 2 && q[0] == '"' && q[|q| - 1] == '"'
  {
    "\"" + Escape(s) + "\""
  }

  /** Reads an escaped body up to its closing double quote; gives the unescaped
      text and what follows the quote, or None when the quote never comes. */
  function ReadEscaped(t: string): (r: Option<(string, string)>)
    ensures r.Some? ==> |r.value.1| < |t|
    decreases |t|
  {
    if t == [] then None
    else if t[0] == '"' then Some(([], t[1..]))
    else if t[0] == '\\' then
      if |t| < 2 then None
      else match ReadEscaped(t[2..])
        case Some((v, rest)) => Some(([t[1]] + v, rest))
        case None => None
    else
      match ReadEscaped(t[1..])
      case Some((v, rest)) => Some(([t[0]] + v, rest))
      case None => None
  }

  /** Reads one Go-quoted string from the front of `t`. */
  function ReadQuoted(t: string): Option<(string, string)> {
    if t != [] && t[0] == '"' then ReadEscaped(t[1..]) else None
  }

  lemma {:induction false} ReadEscapedOfEscape(s: string, rest: string)
    ensures ReadEscaped(Escape(s) + "\"" + rest) == Some((s, rest))
  {
    if s == [] {
      assert Escape(s) + "\"" + rest == "\"" + rest;
    } else {
      var tail := Escape(s[1..]) + "\"" + rest;
      ReadEscapedOfEscape(s[1..], rest);
      assert Escape(s) + "\"" + rest == EscapeChar(s[0]) + tail;
      if s[0] == '"' || s[0] == '\\' {
        assert (EscapeChar(s[0]) + tail)[2..] == tail;
      } else {
        assert (EscapeChar(s[0]) + tail)[1..] == tail;
      }
      assert [s[0]] + s[1..] == s;
    }
  }

  /** A quoted string can be read back exactly, whatever follows it. */
  lemma ReadQuotedOfQuote(s: string, rest: string)
    ensures ReadQuoted(Quote(s) + rest) == Some((s, rest))
  {
    var t := Quote(s) + rest;
    assert t[1..] == Escape(s) + "\"" + rest;
    ReadEscapedOfEscape(s, rest);
  }

  /** Quoting loses nothing: distinct strings print differently. */
  lemma QuoteInjective(s: string, s': string)
    requires Quote(s) == Quote(s')
    ensures s == s'
  {
    ReadQuotedOfQuote(s, []);
    ReadQuotedOfQuote(s', []);
    assert Quote(s) + [] == Quote(s);
    assert Quote(s') + [] == Quote(s');
  }
}
