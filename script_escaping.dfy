/**
 * The escaping AutoFill applies to a stored entry's form data before it is
 * spliced between the single quotes of the page script's string literal:
 * every `'` becomes `\'`, and nothing else changes.
 */
module ScriptEscaping {
  import opened Wrappers

  const Quote: char := '\''
  const Backslash: char := '\\'

  /**
   * Replaces every quote of `s` by a backslash followed by that quote: the
   * result is one character longer per quote and never starts with a bare
   * quote.
   */
  function Escape(s: string): (r: string)
    ensures |r| == |s| + QuoteCount(s)
    ensures s != [] ==> r[0] != Quote
  {
    if s == [] then []
    else (if s[0] == Quote then [Backslash, Quote] else [s[0]]) + Escape(s[1..])
  }

  /** The number of quotes in `s`. */
  function QuoteCount(s: string): (n: nat)
    ensures n == multiset(s)[Quote]
  {
    if s == [] then 0
    else
      assert s == [s[0]] + s[1..];
      (if s[0] == Quote then 1 else 0) + QuoteCount(s[1..])
  }

  /** Deletes the backslash in front of each quote, scanning from the left. */
  function Unescape(r: string): (t: string)
    ensures |t| <= |r|
    decreases |r|
  {
    if r == [] then []
    else if |r| >= 2 && r[0] == Backslash && r[1] == Quote then [Quote] + Unescape(r[2..])
    else [r[0]] + Unescape(r[1..])
  }

  /**
   * The text a JavaScript single-quoted string literal with body `r` stands
   * for, or None when `r` cannot be such a body: an unescaped quote would end
   * the literal early and a line terminator is not allowed in it. Only the
   * escapes `\'` and `\\` are interpreted; any other escape is not modelled
   * and yields None.
   */
  function LiteralValue(r: string): (v: Option<string>)
    ensures v.Some? ==> |v.value| <= |r|
    decreases |r|
  {
    if r == [] then Some([])
    else if r[0] == Quote || r[0] == '\n' || r[0] == '\r' then None
    else if r[0] == Backslash then
      if |r| >= 2 && (r[1] == Quote || r[1] == Backslash) then
        match LiteralValue(r[2..])
        case None => None
        case Some(v) => Some([r[1]] + v)
      else None
    else
      match LiteralValue(r[1..])
      case None => None
      case Some(v) => Some([r[0]] + v)
  }

  /** Deleting the backslash before each quote recovers the original text. */
  lemma {:induction false} UnescapeEscape(s: string)
    ensures Unescape(Escape(s)) == s
  {
    if s != [] {
      var rest := Escape(s[1..]);
      UnescapeEscape(s[1..]);
      if s[0] == Quote {
        assert Escape(s) == [Backslash, Quote] + rest;
        assert Escape(s)[2..] == rest;
      } else {
        assert Escape(s) == [s[0]] + rest;
        assert Escape(s)[1..] == rest;
      }
    }
  }

  /** Text without a quote is left as it is. */
  lemma {:induction false} EscapeWithoutQuote(s: string)
    requires Quote !in s
    ensures Escape(s) == s
  {
    if s != [] {
      EscapeWithoutQuote(s[1..]);
      assert s == [s[0]] + s[1..];
    }
  }

  /**
   * Spliced between single quotes, the escaped text is a well-formed string
   * literal whose value is the original text, provided the text holds no
   * backslash (which is not escaped) and no line terminator.
   */
  lemma {:induction false} LiteralValueOfEscape(s: string)
    requires Backslash !in s && '\n' !in s && '\r' !in s
    ensures LiteralValue(Escape(s)) == Some(s)
  {
    if s != [] {
      var tail := s[1..];
      assert s == [s[0]] + tail;
      assert Backslash !in tail && '\n' !in tail && '\r' !in tail;
      LiteralValueOfEscape(tail);
      var rest := Escape(tail);
      var e := Escape(s);
      if s[0] == Quote {
        assert e == [Backslash, Quote] + rest;
        assert e[2..] == rest;
        assert LiteralValue(e) == Some([Quote] + tail);
      } else {
        assert s[0] != Backslash && s[0] != '\n' && s[0] != '\r';
        assert e == [s[0]] + rest;
        assert e[1..] == rest;
        assert LiteralValue(e) == Some([s[0]] + tail);
      }
    }
  }

  /**
   * Where the backslash condition matters: the two-character data `\'`
   * escapes to `\\'`, whose quote ends the script's literal early.
   */
  lemma BackslashQuoteEndsLiteral()
    ensures LiteralValue(Escape([Backslash, Quote])) == None
  {
  }

  /**
   * The other way the condition matters: the three-character data `\\'`
   * escapes to `\\\'`, a well-formed literal that stands for `\'`, which is
   * not the original data.
   */
  lemma DoubleBackslashQuoteChangesValue()
    ensures LiteralValue(Escape([Backslash, Backslash, Quote])) == Some([Backslash, Quote])
  {
    var e := [Backslash, Backslash, Backslash, Quote];
    assert Escape([Quote]) == [Backslash, Quote];
    assert Escape([Backslash, Quote]) == [Backslash, Backslash, Quote];
    assert Escape([Backslash, Backslash, Quote]) == e;
    assert e[2..] == [Backslash, Quote];
    assert [Backslash, Quote][2..] == [];
    assert LiteralValue([]) == Some([]);
    assert [Quote] + [] == [Quote];
    assert LiteralValue([Backslash, Quote]) == Some([Quote]);
    assert LiteralValue(e) == Some([Backslash] + [Quote]);
    assert [Backslash] + [Quote] == [Backslash, Quote];
  }
}
