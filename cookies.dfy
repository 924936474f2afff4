/** The Cookie request-header value that `_SimpleCookieToCookieStr` builds
    from the rendered `Set-Cookie` items of a response (the `name=value`
    pairs of section 5.4 of RFC 6265, each followed by "; ").

    Each item is the text `str(morsel)`, e.g. "Set-Cookie: MUSIC_U=abc; Path=/".
    The code strips it with Python's `lstrip("Set-Cookie: ")`, which removes
    leading characters drawn from the SET of characters of its argument, not
    the literal prefix; then keeps what comes before the first "; ". */
module Cookies {

  /** The characters of "Set-Cookie: ". */
  const StripChars: set<char> := {'S', 'e', 't', '-', 'C', 'o', 'k', 'i', ':', ' '}

  /** Python's `s.lstrip("Set-Cookie: ")`. */
  function LStrip(s: string): (r: string)
    ensures |r| <= |s| && r == s[|s| - |r|..]
    ensures forall i :: 0 <= i < |s| - |r| ==> s[i] in StripChars
    ensures r == [] || r[0] !in StripChars
    decreases |s|
  {
    if s != [] && s[0] in StripChars then
      var r := LStrip(s[1..]);
      assert forall i :: 1 <= i < |s| - |r| ==> s[i] == s[1..][i - 1];
      r
    else
      s
  }

  /** The leading run LStrip removes is the longest one: any split of `s` into
      strip characters followed by a remainder that does not start with one
      is the split LStrip makes. */
  lemma {:induction false} LStripUnique(a: string, b: string)
    requires forall i :: 0 <= i < |a| ==> a[i] in StripChars
    requires b == [] || b[0] !in StripChars
    ensures LStrip(a + b) == b
    decreases |a|
  {
    if a == [] {
      assert a + b == b;
    } else {
      assert (a + b)[1..] == a[1..] + b;
      LStripUnique(a[1..], b);
    }
  }

  /** "; " starts at index `i` of `s`. */
  predicate SeparatorAt(s: string, i: int)
  {
    0 <= i && i + 1 < |s| && s[i] == ';' && s[i + 1] == ' '
  }

  ghost predicate NoSeparator(s: string)
  {
    forall i :: !SeparatorAt(s, i)
  }

  /** Python's `s.split("; ", maxsplit=1)[0]`: the text before the first "; ". */
  function BeforeSeparator(s: string): (r: string)
    ensures r <= s
    ensures forall i :: 0 <= i < |r| ==> !SeparatorAt(s, i)
    ensures r == s || SeparatorAt(s, |r|)
    ensures NoSeparator(r)
    decreases |s|
  {
    if |s| < 2 then s
    else if SeparatorAt(s, 0) then []
    else
      var r := BeforeSeparator(s[1..]);
      assert forall i :: 1 <= i <= |r| ==> (SeparatorAt(s, i) <==> SeparatorAt(s[1..], i - 1));
      var t := [s[0]] + r;
      assert forall i :: 1 <= i ==> (SeparatorAt(t, i) <==> SeparatorAt(r, i - 1));
      assert |r| > 0 ==> t[1] == s[1];
      t
  }

  /** The `name=value` pair kept from one rendered item: it holds no "; "
      and does not start with a stripped character. */
  function Piece(item: string): (r: string)
    ensures NoSeparator(r)
    ensures r == [] || r[0] !in StripChars
    ensures r <= LStrip(item)
  {
    BeforeSeparator(LStrip(item))
  }

  /** Every piece followed by "; ". */
  function Join(pieces: seq<string>): (r: string)
    ensures |r| >= 2 * |pieces|
  {
    if pieces == [] then "" else pieces[0] + "; " + Join(pieces[1..])
  }

  function Pieces(items: seq<string>): seq<string>
  {
    seq(|items|, i requires 0 <= i < |items| => Piece(items[i]))
  }

  /** The header `_SimpleCookieToCookieStr` returns: at least "; " per item,
      and empty exactly for an empty jar. */
  function CookieHeader(items: seq<string>): (r: string)
    ensures |r| >= 2 * |items|
    ensures r == "" <==> items == []
  {
    Join(Pieces(items))
  }

  lemma {:induction false} JoinSnoc(pieces: seq<string>, p: string)
    ensures Join(pieces + [p]) == Join(pieces) + p + "; "
    decreases |pieces|
  {
    if pieces == [] {
      assert pieces + [p] == [p];
    } else {
      assert (pieces + [p])[1..] == pieces[1..] + [p];
      JoinSnoc(pieces[1..], p);
    }
  }

  /** Appending an item appends its piece and a "; ". */
  lemma CookieHeaderSnoc(items: seq<string>, item: string)
    ensures CookieHeader(items + [item]) == CookieHeader(items) + Piece(item) + "; "
  {
    assert Pieces(items + [item]) == Pieces(items) + [Piece(item)];
    JoinSnoc(Pieces(items), Piece(item));
  }

  /** The header of the first `i + 1` items extends that of the first `i`. */
  lemma CookieHeaderPrefix(items: seq<string>, i: nat)
    requires i < |items|
    ensures CookieHeader(items[..i + 1]) == CookieHeader(items[..i]) + Piece(items[i]) + "; "
  {
    assert items[..i + 1] == items[..i] + [items[i]];
    CookieHeaderSnoc(items[..i], items[i]);
  }

  /** A text without "; " followed by "; " is cut exactly there. */
  lemma BeforeSeparatorJoin(p: string, t: string)
    requires NoSeparator(p)
    ensures BeforeSeparator(p + "; " + t) == p
  {
    var s := p + "; " + t;
    var r := BeforeSeparator(s);
    assert SeparatorAt(s, |p|);
    assert forall i :: 0 <= i < |p| - 1 ==> (SeparatorAt(s, i) <==> SeparatorAt(p, i));
    assert !SeparatorAt(s, |p| - 1);
    assert |r| <= |p|;
    assert |r| >= |p|;
    assert r == s[..|r|] && p == s[..|p|];
  }

  /** Splits a Cookie header back into its pairs: the reading a server makes of it. */
  function SplitHeader(h: string): seq<string>
    decreases |h|
  {
    if h == [] then []
    else
      var p := BeforeSeparator(h);
      if p == h then [h] else [p] + SplitHeader(h[|p| + 2..])
  }

  /** Over any pieces without "; ", splitting their join at "; " gives the
      pieces back in order. */
  lemma {:induction false} SplitJoin(pieces: seq<string>)
    requires forall k :: 0 <= k < |pieces| ==> NoSeparator(pieces[k])
    ensures SplitHeader(Join(pieces)) == pieces
    decreases |pieces|
  {
    if pieces != [] {
      var p := pieces[0];
      var t := Join(pieces[1..]);
      BeforeSeparatorJoin(p, t);
      assert (p + "; " + t)[|p| + 2..] == t;
      SplitJoin(pieces[1..]);
    }
  }

  /** Reading the header back gives exactly the pieces, in order: no piece can
      absorb a neighbour, because no piece contains "; ". */
  lemma SplitCookieHeader(items: seq<string>)
    ensures SplitHeader(CookieHeader(items)) == Pieces(items)
  {
    SplitJoin(Pieces(items));
  }

  /** An item rendered as "Set-Cookie: name=value" or "Set-Cookie: name=value; attrs"
      contributes its `name=value` pair when the name does not start with one of
      the stripped characters. */
  lemma PieceOfMorsel(pair: string, attrs: string)
    requires pair != [] && pair[0] !in StripChars
    requires NoSeparator(pair)
    ensures Piece("Set-Cookie: " + pair) == pair
    ensures Piece("Set-Cookie: " + pair + "; " + attrs) == pair
  {
    var prefix := "Set-Cookie: ";
    LStripUnique(prefix, pair);
    LStripUnique(prefix, pair + "; " + attrs);
    assert prefix + (pair + "; " + attrs) == prefix + pair + "; " + attrs;
    BeforeSeparatorJoin(pair, attrs);
    assert BeforeSeparator(pair) == pair;
  }

  /** Because `lstrip` works on a set of characters, a name that starts with
      some of them loses those letters: a cookie named "token" is sent as "n". */
  lemma TokenNameIsCut(value: string, attrs: string)
    requires forall i :: 0 <= i < |value| ==> value[i] != ';'
    ensures Piece("Set-Cookie: token=" + value + "; " + attrs) == "n=" + value
  {
    var cut := "Set-Cookie: toke";
    var pair := "n=" + value;
    LStripUnique(cut, pair + "; " + attrs);
    assert cut + (pair + "; " + attrs) == "Set-Cookie: token=" + value + "; " + attrs;
    assert forall i :: 2 <= i < |pair| ==> pair[i] == value[i - 2];
    assert NoSeparator(pair);
    BeforeSeparatorJoin(pair, attrs);
  }

  /** An empty jar gives the empty header; any other jar gives a header ending in "; ". */
  lemma CookieHeaderEnds(items: seq<string>)
    ensures items == [] <==> CookieHeader(items) == ""
    ensures items != [] ==> |CookieHeader(items)| >= 2 && CookieHeader(items)[|CookieHeader(items)| - 2..] == "; "
  {
    if items != [] {
      var last := items[|items| - 1];
      assert items == items[..|items| - 1] + [last];
      CookieHeaderSnoc(items[..|items| - 1], last);
    }
  }
}
