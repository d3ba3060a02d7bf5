/** Texts the writers build out of words: words each followed by a
    separator, and words with a "/" glued to their front. */
module Words {
  import opened Text

  /** Every element is a rendered number. */
  predicate AllTokens(ws: seq<string>) {
    forall k :: 0 <= k < |ws| ==> IsToken(ws[k])
  }

  /** The words `ws`, each followed by `sep`, then `rest`: what a loop
      writing `w + sep` per word leaves in front of `rest`. */
  function Spread(ws: seq<string>, sep: string, rest: string): string {
    if ws == [] then rest else ws[0] + (sep + Spread(ws[1..], sep, rest))
  }

  lemma {:induction false} SpreadAppend(ws: seq<string>, sep: string, rest: string)
    ensures Spread(ws, sep, "") + rest == Spread(ws, sep, rest)
  {
    if ws == [] {
      assert "" + rest == rest;
    } else {
      SpreadAppend(ws[1..], sep, rest);
      var w, t := ws[0], Spread(ws[1..], sep, "");
      assert (w + (sep + t)) + rest == w + (sep + (t + rest));
    }
  }

  /** Writing one more word extends the text at its end. */
  lemma {:induction false} SpreadSnoc(ws: seq<string>, w: string, sep: string)
    ensures Spread(ws + [w], sep, "") == Spread(ws, sep, "") + (w + sep)
  {
    if ws == [] {
      assert [] + [w] == [w];
      assert [w][1..] == [];
      assert sep + "" == sep;
      assert "" + (w + sep) == w + sep;
    } else {
      assert (ws + [w])[1..] == ws[1..] + [w];
      SpreadSnoc(ws[1..], w, sep);
      var t := Spread(ws[1..], sep, "");
      assert ws[0] + (sep + (t + (w + sep))) == (ws[0] + (sep + t)) + (w + sep);
    }
  }

  /** Each word with a "/" glued to its front. */
  function Slashed(ws: seq<string>): (r: seq<string>)
    ensures |r| == |ws|
    ensures forall k :: 0 <= k < |ws| ==> r[k] == "/" + ws[k]
  {
    if ws == [] then [] else ["/" + ws[0]] + Slashed(ws[1..])
  }

  lemma SlashedWord(w: string)
    requires IsToken(w)
    ensures |"/" + w| > 0 && NonBlank("/" + w)
  {
    TokenIsWord(w);
    assert ("/" + w)[1..] == w;
  }

  lemma SpreadCons(ws: seq<string>, sep: string, rest: string)
    requires ws != []
    ensures Spread(ws, sep, rest) == ws[0] + (sep + Spread(ws[1..], sep, rest))
  {
  }

  lemma SlashedCons(ws: seq<string>, w: string)
    requires ws != []
    ensures Slashed(ws + [w]) == ["/" + ws[0]] + Slashed(ws[1..] + [w])
  {
    var v := ws + [w];
    TailSnoc(ws, w);
    assert Slashed(v) == ["/" + v[0]] + Slashed(v[1..]);
  }

  // Regrouping lists of words, kept apart so that each proof sees only the
  // one regrouping it needs.

  lemma ConsAssoc<T>(x: T, a: seq<T>, b: seq<T>)
    ensures [x] + (a + b) == ([x] + a) + b
  {
  }

  lemma ConsSplit<T>(a: seq<T>)
    requires a != []
    ensures a == [a[0]] + a[1..]
  {
  }

  lemma Display2<T>(x: T, y: T, r: seq<T>)
    ensures [x, y] + r == [x] + ([y] + r)
  {
  }

  lemma Display3<T>(x: T, y: T, z: T, r: seq<T>)
    ensures [x, y, z] + r == [x] + ([y] + ([z] + r))
  {
  }

  lemma Display6<T>(a: T, b: T, c: T, d: T, e: T, f: T, r: seq<T>)
    ensures [a, b, c, d, e, f] + r == [a] + ([b] + ([c] + ([d] + ([e] + ([f] + r)))))
  {
  }

  lemma Assoc<T>(a: seq<T>, b: seq<T>, c: seq<T>)
    ensures a + (b + c) == (a + b) + c
  {
  }

  lemma Snoc2<T>(a: seq<T>, x: T, y: T)
    ensures a + [x] + [y] == a + [x, y]
  {
  }

  lemma Snoc3<T>(a: seq<T>, x: T, y: T, z: T)
    ensures a + [x] + [y] + [z] == a + [x, y, z]
  {
  }

  lemma Middle<T>(a: seq<T>, b: seq<T>, c: seq<T>)
    ensures |a + b + c| == |a| + |b| + |c|
    ensures (a + b + c)[..|a|] == a
    ensures (a + b + c)[|a|..|a| + |b|] == b
    ensures (a + b + c)[|a| + |b|..] == c
  {
    assert (a + b + c)[..|a|] == a;
    assert (a + b + c)[|a|..|a| + |b|] == b;
    assert (a + b + c)[|a| + |b|..] == c;
  }

  lemma Front<T>(a: seq<T>, b: seq<T>, c: seq<T>, k: nat)
    requires k <= |a|
    ensures (a + b + c)[..k] == a[..k]
    ensures k < |a| ==> (a + b + c)[k] == a[k]
  {
    assert (a + b + c)[..k] == a[..k];
  }

  lemma Within<T>(a: seq<T>, b: seq<T>, c: seq<T>, i: nat)
    requires i < |b|
    ensures (a + b + c)[|a| + i] == b[i]
  {
  }

  lemma TailSnoc<T>(a: seq<T>, x: T)
    requires a != []
    ensures (a + [x])[0] == a[0] && (a + [x])[1..] == a[1..] + [x]
  {
  }
}
