/**
 * Text helpers used by the command handlers: whitespace trimming, the
 * engine's token reader (FParse::Token, whose source is not part of this
 * model, so it is modelled by the stated assumption below), and the
 * single-space join that the handlers use to build command lines.
 */
module Tokens {

  /** Whitespace as the engine's character class sees it (space, tab, line breaks, form feeds). */
  predicate IsWhitespace(c: char) {
    c == ' ' || c == '\t' || c == '\n' || c == '\r' || c == '\U{000B}' || c == '\U{000C}'
  }

  /** A character that may stand inside a plain word: neither whitespace nor a double quote. */
  predicate WordChar(c: char) {
    !IsWhitespace(c) && c != '"'
  }

  /** A word that the token reader returns unchanged: not empty, with no whitespace and no quote in it. */
  predicate PlainWord(w: string) {
    |w| > 0 && forall k :: 0 <= k < |w| ==> WordChar(w[k])
  }

  predicate AllPlain(ws: seq<string>) {
    forall k :: 0 <= k < |ws| ==> PlainWord(ws[k])
  }

  /** u is what is left of s after dropping some of its first elements. */
  predicate Suffix(u: string, s: string) {
    |u| <= |s| && u == s[|s| - |u|..]
  }

  /** FString::TrimStart: drop the leading whitespace. */
  function TrimStart(s: string): (r: string)
    ensures Suffix(r, s)
    ensures r == [] || !IsWhitespace(r[0])
    ensures forall k :: 0 <= k < |s| - |r| ==> IsWhitespace(s[k])
  {
    if s == [] || !IsWhitespace(s[0]) then s else TrimStart(s[1..])
  }

  /** FString::TrimEnd: drop the trailing whitespace. */
  function TrimEnd(s: string): (r: string)
    ensures |r| <= |s| && r == s[..|r|]
    ensures r == [] || !IsWhitespace(r[|r| - 1])
    ensures forall k :: |r| <= k < |s| ==> IsWhitespace(s[k])
  {
    if s == [] || !IsWhitespace(s[|s| - 1]) then s else TrimEnd(s[..|s| - 1])
  }

  /** Number of leading characters before the first whitespace. */
  function WordLength(s: string): (n: nat)
    ensures n <= |s|
    ensures forall k :: 0 <= k < n ==> !IsWhitespace(s[k])
    ensures n < |s| ==> IsWhitespace(s[n])
  {
    if s == [] || IsWhitespace(s[0]) then 0 else 1 + WordLength(s[1..])
  }

  /**
   * The body of a quoted token, read after the opening quote: characters up to
   * the closing quote, a backslash taking the next character literally. The
   * closing quote is consumed. A backslash as the very last character ends the
   * token with nothing left to read.
   */
  function QuotedBody(s: string): (r: (string, string))
    ensures Suffix(r.1, s)
  {
    if s == [] then ([], [])
    else if s[0] == '"' then ([], s[1..])
    else if s[0] == '\\' then
      if |s| == 1 then ([], [])
      else var q := QuotedBody(s[2..]); ([s[1]] + q.0, q.1)
    else var q := QuotedBody(s[1..]); ([s[0]] + q.0, q.1)
  }

  /** What one call of the token reader yields: whether a token was found, the token, and the unread rest. */
  datatype TokenResult = TokenResult(found: bool, token: string, rest: string)

  /**
   * Model of the engine's token reader with escapes enabled: skip leading
   * whitespace; a token that opens with a quote runs to the closing quote
   * (QuotedBody); otherwise it runs up to the next whitespace. It reports
   * success exactly when the token is not empty; the cursor moves past what
   * was read in every case.
   */
  function Token(s: string): (r: TokenResult)
    ensures r.found <==> r.token != []
    ensures Suffix(r.rest, s)
    ensures r.found ==> |r.rest| < |s|
  {
    var t := TrimStart(s);
    var r := if t != [] && t[0] == '"' then QuotedToken(t) else WordToken(t);
    SuffixOfSuffix(s, t, r.rest);
    r
  }

  /** A token that opens with a quote: its body, and what follows the closing quote. */
  function QuotedToken(t: string): (r: TokenResult)
    requires t != [] && t[0] == '"'
    ensures r.found <==> r.token != []
    ensures |r.rest| < |t| && Suffix(r.rest, t)
  {
    var q := QuotedBody(t[1..]);
    SuffixOfSuffix(t, t[1..], q.1);
    TokenResult(q.0 != [], q.0, q.1)
  }

  /** A token that runs to the next whitespace. */
  function WordToken(t: string): (r: TokenResult)
    ensures r.found <==> r.token != []
    ensures Suffix(r.rest, t)
    ensures r.found ==> |r.rest| < |t|
  {
    var n := WordLength(t);
    TokenResult(n > 0, t[..n], t[n..])
  }

  /** A suffix of a suffix is a suffix. */
  lemma SuffixOfSuffix(s: string, t: string, u: string)
    requires Suffix(t, s) && Suffix(u, t)
    ensures Suffix(u, s)
  {
  }

  /** Repeated token reading until no token is found: the argument list of a command line. */
  function Tokenize(s: string): seq<string>
    decreases |s|
  {
    var t := Token(s);
    if !t.found then [] else [t.token] + Tokenize(t.rest)
  }

  /** Each word preceded by one space: " w0 w1 ... wn". */
  function Spaced(ws: seq<string>): string
  {
    if ws == [] then "" else " " + ws[0] + Spaced(ws[1..])
  }

  /** The words joined by exactly one space: "w0 w1 ... wn". */
  function JoinSpace(ws: seq<string>): string
  {
    if ws == [] then "" else ws[0] + Spaced(ws[1..])
  }

  /** Appending a word to a spaced list appends one space and the word. */
  lemma {:induction false} SpacedSnoc(ws: seq<string>, w: string)
    ensures Spaced(ws + [w]) == Spaced(ws) + " " + w
  {
    if ws == [] {
      assert Spaced([w]) == " " + w + Spaced([]);
    } else {
      assert (ws + [w])[1..] == ws[1..] + [w];
      SpacedSnoc(ws[1..], w);
    }
  }

  /** The join extended by one word: the old join, one space, the word. */
  lemma {:induction false} JoinSpaceSnoc(ws: seq<string>, w: string)
    requires ws != []
    ensures JoinSpace(ws + [w]) == JoinSpace(ws) + " " + w
  {
    assert (ws + [w])[1..] == ws[1..] + [w];
    SpacedSnoc(ws[1..], w);
  }

  /** A joined line of plain words starts and ends with a word character, never with a space. */
  lemma {:induction false} JoinSpaceEnds(ws: seq<string>)
    requires ws != [] && AllPlain(ws)
    ensures var s := JoinSpace(ws); |s| > 0 && !IsWhitespace(s[0]) && !IsWhitespace(s[|s| - 1])
  {
    var n := |ws|;
    if n == 1 {
      assert JoinSpace(ws) == ws[0] + "";
    } else {
      assert ws == ws[..n - 1] + [ws[n - 1]];
      JoinSpaceSnoc(ws[..n - 1], ws[n - 1]);
    }
  }

  /** A plain word followed by nothing or by whitespace is read as exactly that word. */
  lemma {:induction false} WordLengthOfWord(w: string, tail: string)
    requires forall k :: 0 <= k < |w| ==> !IsWhitespace(w[k])
    requires tail == [] || IsWhitespace(tail[0])
    ensures WordLength(w + tail) == |w|
  {
    if w != [] {
      assert (w + tail)[1..] == w[1..] + tail;
      WordLengthOfWord(w[1..], tail);
    }
  }

  /** A non-empty spaced list is one space before the join of the same words. */
  lemma SpacedIsSpaceJoin(ws: seq<string>)
    requires ws != []
    ensures Spaced(ws) == " " + JoinSpace(ws)
  {
  }

  /** A spaced list is empty or opens with a space. */
  lemma SpacedStart(ws: seq<string>)
    ensures Spaced(ws) == [] || Spaced(ws)[0] == ' '
  {
  }

  /** A joined line of plain words opens with the first character of the first word. */
  lemma JoinSpaceStart(ws: seq<string>)
    requires ws != [] && AllPlain(ws)
    ensures JoinSpace(ws) != [] && !IsWhitespace(JoinSpace(ws)[0])
  {
    assert PlainWord(ws[0]);
    assert JoinSpace(ws)[0] == ws[0][0];
  }

  /** A plain word followed by nothing or by whitespace is read as that word, leaving what follows. */
  lemma TokenOfWord(w: string, tail: string)
    requires PlainWord(w) && (tail == [] || IsWhitespace(tail[0]))
    ensures Token(w + tail) == TokenResult(true, w, tail)
  {
    var s := w + tail;
    assert s[0] == w[0];
    assert TrimStart(s) == s;
    WordLengthOfWord(w, tail);
    assert s[..|w|] == w;
    assert s[|w|..] == tail;
  }

  /** One space before text that does not start with whitespace is all that trimming drops. */
  lemma TrimOneSpace(j: string)
    requires j == [] || !IsWhitespace(j[0])
    ensures TrimStart(" " + j) == j
  {
    assert (" " + j)[1..] == j;
  }

  /** The token reader on a joined line returns the first word and leaves the spaced rest. */
  lemma TokenOfJoin(ws: seq<string>)
    requires ws != [] && AllPlain(ws)
    ensures Token(JoinSpace(ws)) == TokenResult(true, ws[0], Spaced(ws[1..]))
  {
    SpacedStart(ws[1..]);
    TokenOfWord(ws[0], Spaced(ws[1..]));
  }

  /** Trimming twice is trimming once. */
  lemma TrimStartIdempotent(s: string)
    ensures TrimStart(TrimStart(s)) == TrimStart(s)
  {
    var t := TrimStart(s);
    assert t == [] || !IsWhitespace(t[0]);
  }

  /** The token reader skips leading whitespace before anything else. */
  lemma TokenAfterTrim(s: string)
    ensures Token(s) == Token(TrimStart(s))
  {
    TrimStartIdempotent(s);
  }

  /** A spaced list of plain words is one space before their join. */
  lemma TrimSpaced(ws: seq<string>)
    requires ws != [] && AllPlain(ws)
    ensures TrimStart(Spaced(ws)) == JoinSpace(ws)
  {
    SpacedIsSpaceJoin(ws);
    JoinSpaceStart(ws);
    TrimOneSpace(JoinSpace(ws));
  }

  /** Leading spaces do not matter to the token reader. */
  lemma TokenOfSpaced(ws: seq<string>)
    requires AllPlain(ws)
    ensures Token(Spaced(ws)) ==
      if ws == [] then TokenResult(false, "", "") else TokenResult(true, ws[0], Spaced(ws[1..]))
  {
    if ws != [] {
      TrimSpaced(ws);
      TokenAfterTrim(Spaced(ws));
      TokenOfJoin(ws);
    }
  }

  /** One step of the tokenizer: a found token, then the tokens of the rest. */
  lemma TokenizeCons(s: string, token: string, rest: string, tail: seq<string>)
    requires Token(s) == TokenResult(true, token, rest) && Tokenize(rest) == tail
    ensures Tokenize(s) == [token] + tail
  {
  }

  /** A non-empty sequence is its head before its tail. */
  lemma HeadTail<T>(xs: seq<T>)
    requires xs != []
    ensures [xs[0]] + xs[1..] == xs
  {
  }

  /** Tokenizing a spaced list of plain words gives back the words. */
  lemma {:induction false} TokenizeSpaced(ws: seq<string>)
    requires AllPlain(ws)
    ensures Tokenize(Spaced(ws)) == ws
  {
    TokenOfSpaced(ws);
    if ws != [] {
      assert AllPlain(ws[1..]);
      TokenizeSpaced(ws[1..]);
      TokenizeCons(Spaced(ws), ws[0], Spaced(ws[1..]), ws[1..]);
      HeadTail(ws);
    }
  }

  /** Round trip: tokenizing the single-space join of plain words gives back the words. */
  lemma TokenizeJoinSpace(ws: seq<string>)
    requires AllPlain(ws)
    ensures Tokenize(JoinSpace(ws)) == ws
  {
    if ws == [] {
      assert !Token(JoinSpace(ws)).found;
    } else {
      TokenOfJoin(ws);
      assert AllPlain(ws[1..]);
      TokenizeSpaced(ws[1..]);
      TokenizeCons(JoinSpace(ws), ws[0], Spaced(ws[1..]), ws[1..]);
      HeadTail(ws);
    }
  }

  /** A joined line of plain words has no trailing whitespace to trim. */
  lemma {:induction false} TrimEndJoinSpace(ws: seq<string>)
    requires AllPlain(ws)
    ensures TrimEnd(JoinSpace(ws)) == JoinSpace(ws)
  {
    if ws != [] {
      JoinSpaceEnds(ws);
    }
  }
}
