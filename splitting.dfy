/** How whitespace splitting reads back the texts of `Words`: words
    separated by blanks come back as themselves, and words separated by " /"
    come back with each "/" glued to the following word. */
module Splitting {
  import opened Text
  import opened Words

  /** Words separated by single spaces split back into exactly those words. */
  lemma {:induction false} SpacedTokens(ws: seq<string>, rest: string)
    requires AllTokens(ws)
    ensures Tokens(Spread(ws, " ", rest)) == ws + Tokens(rest)
  {
    if ws == [] {
      assert [] + Tokens(rest) == Tokens(rest);
    } else {
      TokenIsWord(ws[0]);
      SpreadCons(ws, " ", rest);
      TokensCons(ws[0], " ", Spread(ws[1..], " ", rest));
      SpacedTokens(ws[1..], rest);
      ConsSplit(ws);
      ConsAssoc(ws[0], ws[1..], Tokens(rest));
    }
  }

  /** A word with a "/" glued to its front is split off whole. */
  lemma GluedThenRest(w: string, rest: string)
    requires IsToken(w)
    requires rest == [] || IsBlank(rest[0])
    ensures Tokens("/" + (w + rest)) == ["/" + w] + Tokens(rest)
  {
    SlashedWord(w);
    assert "/" + (w + rest) == ("/" + w) + rest;
    WordThenRest("/" + w, rest);
  }

  lemma GluedCons(w: string, t: string)
    requires IsToken(w)
    ensures Tokens("/" + (w + (" /" + t))) == ["/" + w] + Tokens("/" + t)
  {
    SlashedWord(w);
    assert "/" + (w + (" /" + t)) == ("/" + w) + (" " + ("/" + t));
    TokensCons("/" + w, " ", "/" + t);
  }

  lemma SlashedStep(ws: seq<string>, w: string, rest: string)
    requires ws != [] && IsToken(ws[0])
    requires Tokens("/" + Spread(ws[1..], " /", w + rest)) == Slashed(ws[1..] + [w]) + Tokens(rest)
    ensures Tokens("/" + Spread(ws, " /", w + rest)) == Slashed(ws + [w]) + Tokens(rest)
  {
    SpreadCons(ws, " /", w + rest);
    GluedCons(ws[0], Spread(ws[1..], " /", w + rest));
    SlashedCons(ws, w);
    ConsAssoc("/" + ws[0], Slashed(ws[1..] + [w]), Tokens(rest));
  }

  /** Behind a "/", words separated by " /" split as each word with the
      next "/" glued to its front. */
  lemma {:induction false} SlashedTail(ws: seq<string>, w: string, rest: string)
    requires AllTokens(ws) && IsToken(w)
    requires rest == [] || IsBlank(rest[0])
    ensures Tokens("/" + Spread(ws, " /", w + rest)) == Slashed(ws + [w]) + Tokens(rest)
  {
    if ws == [] {
      GluedThenRest(w, rest);
      assert [] + [w] == [w];
    } else {
      SlashedTail(ws[1..], w, rest);
      SlashedStep(ws, w, rest);
    }
  }

  /** Words separated by " /" split as the first word, then every later word
      with a "/" glued to its front. */
  lemma SlashSpreadTokens(ws: seq<string>, w: string, rest: string)
    requires |ws| > 0 && AllTokens(ws) && IsToken(w)
    requires rest == [] || IsBlank(rest[0])
    ensures Tokens(Spread(ws, " /", w + rest)) == [ws[0]] + (Slashed(ws[1..] + [w]) + Tokens(rest))
  {
    var t := Spread(ws[1..], " /", w + rest);
    TokenIsWord(ws[0]);
    SpreadCons(ws, " /", w + rest);
    assert ws[0] + (" /" + t) == ws[0] + (" " + ("/" + t));
    TokensCons(ws[0], " ", "/" + t);
    SlashedTail(ws[1..], w, rest);
  }

  /** The closing " /" of a line, and whatever comment follows it. */
  lemma TerminatorTokens(comment: string)
    requires comment == [] || IsBlank(comment[0])
    ensures Tokens(" " + ("/" + comment)) == ["/"] + Tokens(comment)
  {
    TokensSkipBlanks(" ", "/" + comment);
    WordThenRest("/", comment);
  }

  /** A header line: three words two blanks apart, then a comment. */
  lemma ThreeFieldsTokens(n: string, a: string, b: string, comment: string)
    requires IsToken(n) && IsToken(a) && IsToken(b)
    requires comment == [] || IsBlank(comment[0])
    ensures Tokens(n + ("  " + (a + ("  " + (b + comment))))) == [n, a, b] + Tokens(comment)
  {
    TokenIsWord(n); TokenIsWord(a); TokenIsWord(b);
    WordThenRest(b, comment);
    TokensCons(a, "  ", b + comment);
    TokensCons(n, "  ", a + ("  " + (b + comment)));
    Display3(n, a, b, Tokens(comment));
  }

  /** A half-space line: five words two blanks apart, then " /" and a
      comment. */
  lemma FiveFieldsTokens(a: string, b: string, c: string, d: string, e: string, comment: string)
    requires IsToken(a) && IsToken(b) && IsToken(c) && IsToken(d) && IsToken(e)
    requires comment == [] || IsBlank(comment[0])
    ensures Tokens(a + ("  " + (b + ("  " + (c + ("  " + (d + ("  " + (e + (" " + ("/" + comment)))))))))))
         == [a, b, c, d, e, "/"] + Tokens(comment)
  {
    TokenIsWord(a); TokenIsWord(b); TokenIsWord(c); TokenIsWord(d); TokenIsWord(e);
    var t4 := e + (" " + ("/" + comment));
    var t3 := d + ("  " + t4);
    var t2 := c + ("  " + t3);
    var t1 := b + ("  " + t2);
    TerminatorTokens(comment);
    WordThenRest(e, " " + ("/" + comment));
    TokensCons(d, "  ", t4);
    TokensCons(c, "  ", t3);
    TokensCons(b, "  ", t2);
    TokensCons(a, "  ", t1);
    Display6(a, b, c, d, e, "/", Tokens(comment));
  }

  /** Words separated by single blanks, the last one followed by " /" and a
      comment: the words, then "/", then the comment's words. */
  lemma SpacedLineTokens(ws: seq<string>, last: string, comment: string)
    requires AllTokens(ws) && IsToken(last)
    requires comment == [] || IsBlank(comment[0])
    ensures Tokens(Spread(ws, " ", last + (" " + ("/" + comment)))) == (ws + [last]) + (["/"] + Tokens(comment))
  {
    var r := " " + ("/" + comment);
    TokenIsWord(last);
    SpacedTokens(ws, last + r);
    WordThenRest(last, r);
    TerminatorTokens(comment);
    Assoc(ws, [last], ["/"] + Tokens(comment));
  }

  /** A single word followed by " /" and a comment. */
  lemma LoneWordTokens(last: string, comment: string)
    requires IsToken(last)
    requires comment == [] || IsBlank(comment[0])
    ensures Tokens(last + (" " + ("/" + comment))) == [last] + (["/"] + Tokens(comment))
  {
    TerminatorTokens(comment);
    TokenIsWord(last);
    WordThenRest(last, " " + ("/" + comment));
  }

  /** Several words separated by " /", then " /" and a comment. */
  lemma SlashWordsTokens(ws: seq<string>, last: string, comment: string)
    requires |ws| > 0 && AllTokens(ws) && IsToken(last)
    requires comment == [] || IsBlank(comment[0])
    ensures Tokens(Spread(ws, " /", last + (" " + ("/" + comment))))
         == [ws[0]] + (Slashed(ws[1..] + [last]) + (["/"] + Tokens(comment)))
  {
    TerminatorTokens(comment);
    SlashSpreadTokens(ws, last, " " + ("/" + comment));
  }

  /** Words separated by " /", the last one followed by " /" and a comment:
      the first word, every later word with a "/" glued to its front, then
      "/", then the comment's words. */
  lemma SlashLineTokens(ws: seq<string>, last: string, comment: string)
    requires AllTokens(ws) && IsToken(last)
    requires comment == [] || IsBlank(comment[0])
    ensures var all := ws + [last];
      Tokens(Spread(ws, " /", last + (" " + ("/" + comment))))
        == [all[0]] + (Slashed(all[1..]) + (["/"] + Tokens(comment)))
  {
    var all := ws + [last];
    if ws == [] {
      LoneWordTokens(last, comment);
      assert all[1..] == [];
    } else {
      SlashWordsTokens(ws, last, comment);
      assert all[0] == ws[0] && all[1..] == ws[1..] + [last];
    }
  }
}
