/** Where a known token sequence sits inside a token stream. */
module TokenMatch {
  import opened TypeGrammar

  /** `toks` holds `r` from position `pos` on. */
  predicate Matches(toks: seq<Token>, pos: nat, r: seq<Token>) {
    pos + |r| <= |toks| && forall i :: 0 <= i < |r| ==> toks[pos + i] == r[i]
  }

  lemma Split(toks: seq<Token>, pos: nat, a: seq<Token>, b: seq<Token>)
    requires Matches(toks, pos, a + b)
    ensures Matches(toks, pos, a) && Matches(toks, pos + |a|, b)
  {
    forall i | 0 <= i < |a|
      ensures toks[pos + i] == a[i]
    {
      assert (a + b)[i] == a[i];
    }
    forall i | 0 <= i < |b|
      ensures toks[pos + |a| + i] == b[i]
    {
      assert (a + b)[|a| + i] == b[i];
    }
  }

  lemma At(toks: seq<Token>, pos: nat, r: seq<Token>, i: nat)
    requires Matches(toks, pos, r) && i < |r|
    ensures toks[pos + i] == r[i]
  {
  }

  /** `, x rest` at `p`: the comma, then `x`, then `rest`. */
  lemma CommaThen(toks: seq<Token>, p: nat, x: seq<Token>, rest: seq<Token>)
    requires Matches(toks, p, [Punct(Comma)] + x + rest)
    ensures p < |toks| && toks[p] == Punct(Comma)
    ensures Matches(toks, p + 1, x) && Matches(toks, p + 1 + |x|, rest)
  {
    Split(toks, p, [Punct(Comma)] + x, rest);
    Split(toks, p, [Punct(Comma)], x);
    At(toks, p, [Punct(Comma)], 0);
  }

  /** A one-token sequence at `q`. */
  lemma One(toks: seq<Token>, q: nat, r: seq<Token>)
    requires Matches(toks, q, r) && |r| == 1
    ensures q < |toks| && toks[q] == r[0]
  {
    At(toks, q, r, 0);
  }

  /** A three-token sequence at `q`. */
  lemma Three(toks: seq<Token>, q: nat, r: seq<Token>)
    requires Matches(toks, q, r) && |r| == 3
    ensures q + 2 < |toks| && toks[q] == r[0] && toks[q + 1] == r[1] && toks[q + 2] == r[2]
  {
    At(toks, q, r, 0);
    At(toks, q, r, 1);
    At(toks, q, r, 2);
  }

  /** `a b x` at `p`. */
  lemma Labelled(toks: seq<Token>, p: nat, a: Token, b: Token, x: seq<Token>)
    requires Matches(toks, p, [a, b] + x)
    ensures p + 1 < |toks| && toks[p] == a && toks[p + 1] == b && Matches(toks, p + 2, x)
  {
    Split(toks, p, [a, b], x);
    At(toks, p, [a, b], 0);
    At(toks, p, [a, b], 1);
  }

  /** `keyword < x tail` at `p`. */
  lemma Opened(toks: seq<Token>, p: nat, keyword: Token, x: seq<Token>, tail: seq<Token>)
    requires Matches(toks, p, [keyword, Punct(AngleOpen)] + x + tail)
    ensures p + 1 < |toks| && toks[p] == keyword && toks[p + 1] == Punct(AngleOpen)
    ensures Matches(toks, p + 2, x) && Matches(toks, p + 2 + |x|, tail)
  {
    Split(toks, p, [keyword, Punct(AngleOpen)] + x, tail);
    Labelled(toks, p, keyword, Punct(AngleOpen), x);
  }

  /** `keyword < x y closer` at `p`. */
  lemma Enclosed(toks: seq<Token>, p: nat, keyword: Token, x: seq<Token>, y: seq<Token>, closer: Token)
    requires Matches(toks, p, [keyword, Punct(AngleOpen)] + x + y + [closer])
    ensures p + 1 < |toks| && toks[p] == keyword && toks[p + 1] == Punct(AngleOpen)
    ensures Matches(toks, p + 2, x) && Matches(toks, p + 2 + |x|, y)
    ensures p + 2 + |x| + |y| < |toks| && toks[p + 2 + |x| + |y|] == closer
  {
    Split(toks, p, [keyword, Punct(AngleOpen)] + x + y, [closer]);
    Opened(toks, p, keyword, x, y);
    One(toks, p + 2 + |x| + |y|, [closer]);
  }

  /** `name : ( ps ) => ( rs )` at `p`. */
  lemma Signature(toks: seq<Token>, p: nat, name: string, ps: seq<Token>, rs: seq<Token>)
    requires Matches(toks, p, [Ident(name), Punct(Colon), Punct(ParenOpen)] + ps
                              + [Punct(ParenClose), Punct(Arrow), Punct(ParenOpen)] + rs + [Punct(ParenClose)])
    ensures p + 2 < |toks| && toks[p] == Ident(name) && toks[p + 1] == Punct(Colon) && toks[p + 2] == Punct(ParenOpen)
    ensures Matches(toks, p + 3, ps)
    ensures var q1 := p + 3 + |ps|;
      q1 + 2 < |toks| && AtPunct(toks, q1, ParenClose) && toks[q1 + 1] == Punct(Arrow) && toks[q1 + 2] == Punct(ParenOpen) &&
      Matches(toks, q1 + 3, rs) && AtPunct(toks, q1 + 3 + |rs|, ParenClose)
  {
    var head, middle := [Ident(name), Punct(Colon), Punct(ParenOpen)], [Punct(ParenClose), Punct(Arrow), Punct(ParenOpen)];
    Split(toks, p, head + ps + middle + rs, [Punct(ParenClose)]);
    Split(toks, p, head + ps + middle, rs);
    Split(toks, p, head + ps, middle);
    Split(toks, p, head, ps);
    Three(toks, p, head);
    Three(toks, p + 3 + |ps|, middle);
    One(toks, p + 6 + |ps| + |rs|, [Punct(ParenClose)]);
  }
}
