/**
 * Reading the parameters back out of a URL's query string, the way the
 * checkout page receives them: the text after the first `?` and before the
 * first `#` (which starts the fragment), split at every `&`, each piece
 * split at its first `=`. Values are kept as they appear in
 * the URL, still percent-encoded. This is the partner against which the
 * checkout link's layout is proved.
 */
module QueryString {
  import opened Search

  type Param = (string, string)

  /** `key=value`. */
  function Pair(p: Param): string
  {
    p.0 + "=" + p.1
  }

  /** `&k1=v1&k2=v2…`, one `&key=value` per parameter. */
  function AmpPairs(ps: seq<Param>): string
  {
    if ps == [] then "" else "&" + Pair(ps[0]) + AmpPairs(ps[1..])
  }

  /** The parameters joined by `&`. */
  function Join(ps: seq<Param>): string
    requires |ps| > 0
  {
    Pair(ps[0]) + AmpPairs(ps[1..])
  }

  /** `s.split("&")`. */
  function SplitAmp(s: string): (r: seq<string>)
    ensures |r| > 0
    decreases |s|
  {
    var k := IndexOf(s, '&');
    if k == |s| then [s] else [s[..k]] + SplitAmp(s[k + 1..])
  }

  /** One piece split at its first `=`; a piece without `=` has an empty value. */
  function ParsePair(piece: string): Param
  {
    var k := IndexOf(piece, '=');
    (piece[..k], if k < |piece| then piece[k + 1..] else "")
  }

  function ParsePairs(pieces: seq<string>): (r: seq<Param>)
    ensures |r| == |pieces|
  {
    if pieces == [] then [] else [ParsePair(pieces[0])] + ParsePairs(pieces[1..])
  }

  /** The URL without its fragment: everything before the first `#`. */
  function Unfragmented(url: string): string
  {
    url[..IndexOf(url, '#')]
  }

  /** The query parameters of a URL, in order; none when it has no `?` ahead of its fragment. */
  function QueryParams(url: string): seq<Param>
  {
    var u := Unfragmented(url);
    var k := IndexOf(u, '?');
    if k == |u| then [] else ParsePairs(SplitAmp(u[k + 1..]))
  }

  /** Keys without `&`, `=` or `#`, values without `&` or `#`: nothing that could split a parameter or end the query. */
  ghost predicate Separable(ps: seq<Param>)
  {
    forall i :: 0 <= i < |ps| ==> '&' !in ps[i].0 && '=' !in ps[i].0 && '#' !in ps[i].0 && '&' !in ps[i].1 && '#' !in ps[i].1
  }

  lemma {:induction false} AmpPairsAppend(a: seq<Param>, b: seq<Param>)
    ensures AmpPairs(a + b) == AmpPairs(a) + AmpPairs(b)
  {
    if a == [] {
      assert a + b == b;
    } else {
      assert (a + b)[0] == a[0];
      assert (a + b)[1..] == a[1..] + b;
      AmpPairsAppend(a[1..], b);
    }
  }

  lemma PairParses(p: Param)
    requires '=' !in p.0
    ensures ParsePair(Pair(p)) == p
  {
    IndexOfAfter(p.0, '=', p.1);
    assert Pair(p)[..|p.0|] == p.0;
    assert Pair(p)[|p.0| + 1..] == p.1;
  }

  lemma NoAmpInPair(p: Param)
    requires '&' !in p.0 && '&' !in p.1
    ensures '&' !in Pair(p)
  {
  }

  lemma SeparableTail(ps: seq<Param>)
    requires |ps| > 0 && Separable(ps)
    ensures Separable(ps[1..])
  {
    assert forall i :: 0 <= i < |ps[1..]| ==> ps[1..][i] == ps[i + 1];
  }

  /** Splitting the joined parameters and reading each piece gives the parameters back. */
  lemma {:induction false} ParseJoin(ps: seq<Param>)
    requires |ps| > 0 && Separable(ps)
    ensures ParsePairs(SplitAmp(Join(ps))) == ps
  {
    var first := Pair(ps[0]);
    NoAmpInPair(ps[0]);
    PairParses(ps[0]);
    if |ps| == 1 {
      assert Join(ps) == first;
      assert IndexOf(first, '&') == |first|;
      assert ParsePairs([first]) == [ps[0]];
    } else {
      var rest := Join(ps[1..]);
      assert Join(ps) == first + "&" + rest;
      IndexOfAfter(first, '&', rest);
      assert (first + "&" + rest)[..|first|] == first;
      assert (first + "&" + rest)[|first| + 1..] == rest;
      assert SplitAmp(Join(ps)) == [first] + SplitAmp(rest);
      SeparableTail(ps);
      ParseJoin(ps[1..]);
      assert ([first] + SplitAmp(rest))[1..] == SplitAmp(rest);
      assert [ps[0]] + ps[1..] == ps;
    }
  }

  lemma AmpPairsOne(p: Param)
    ensures AmpPairs([p]) == "&" + Pair(p)
  {
    assert [p][1..] == [];
  }

  lemma SplitOne(k: string, a: string, k2: string, v2: string)
    ensures AmpPairs([(k, a + "&" + k2 + "=" + v2)]) == AmpPairs([(k, a), (k2, v2)])
  {
    AmpPairsOne((k, a + "&" + k2 + "=" + v2));
    AmpPairsOne((k2, v2));
    assert [(k, a), (k2, v2)][1..] == [(k2, v2)];
  }

  /**
   * A value holding `&k2=v2` joins to the same text as the value before the
   * `&` followed by a parameter `k2=v2` of its own.
   */
  lemma SplitValue(xs: seq<Param>, k: string, a: string, k2: string, v2: string, ys: seq<Param>)
    ensures AmpPairs(xs + [(k, a + "&" + k2 + "=" + v2)] + ys) == AmpPairs(xs + [(k, a), (k2, v2)] + ys)
  {
    var one := [(k, a + "&" + k2 + "=" + v2)];
    var two := [(k, a), (k2, v2)];
    AmpPairsAppend(xs + one, ys);
    AmpPairsAppend(xs, one);
    AmpPairsAppend(xs + two, ys);
    AmpPairsAppend(xs, two);
    SplitOne(k, a, k2, v2);
  }

  /** No `#` in the joined text of parameters whose keys and values hold none. */
  lemma {:induction false} NoHashInAmpPairs(ps: seq<Param>)
    requires forall i :: 0 <= i < |ps| ==> '#' !in ps[i].0 && '#' !in ps[i].1
    ensures '#' !in AmpPairs(ps)
  {
    if ps != [] {
      assert forall i :: 0 <= i < |ps[1..]| ==> ps[1..][i] == ps[i + 1];
      NoHashInAmpPairs(ps[1..]);
    }
  }

  lemma NoHashInJoin(ps: seq<Param>)
    requires |ps| > 0 && Separable(ps)
    ensures '#' !in Join(ps)
  {
    assert forall i :: 0 <= i < |ps[1..]| ==> ps[1..][i] == ps[i + 1];
    NoHashInAmpPairs(ps[1..]);
  }

  /** A URL made of a `?`- and `#`-free base, `?` and separable parameters yields exactly those parameters, in order. */
  lemma QueryOfUrl(base: string, ps: seq<Param>)
    requires '?' !in base && '#' !in base && |ps| > 0 && Separable(ps)
    ensures QueryParams(base + "?" + Join(ps)) == ps
  {
    var url := base + "?" + Join(ps);
    NoHashInJoin(ps);
    assert '#' !in url;
    assert Unfragmented(url) == url;
    IndexOfAfter(base, '?', Join(ps));
    assert url[|base| + 1..] == Join(ps);
    ParseJoin(ps);
  }

  lemma TextRegroup(b: string, j: string, long: string, short: string, t: string, y: string)
    requires long == short + "#" + t
    ensures b + "?" + (j + ("&" + long) + y) == (b + "?" + (j + ("&" + short))) + ['#'] + (t + y)
  {
  }

  /** Joining more parameters appends their `&key=value` pieces. */
  lemma JoinAppend(xs: seq<Param>, rest: seq<Param>)
    requires |xs| > 0
    ensures Join(xs + rest) == Join(xs) + AmpPairs(rest)
  {
    assert (xs + rest)[0] == xs[0];
    assert (xs + rest)[1..] == xs[1..] + rest;
    AmpPairsAppend(xs[1..], rest);
  }

  lemma HashRegroup(base: string, xs: seq<Param>, k: string, v: string, t: string, ys: seq<Param>)
    requires |xs| > 0
    ensures base + "?" + Join(xs + [(k, v + "#" + t)] + ys)
         == (base + "?" + Join(xs + [(k, v)])) + ['#'] + (t + AmpPairs(ys))
  {
    var long := (k, v + "#" + t);
    assert Join(xs + [long] + ys) == Join(xs) + ("&" + Pair(long)) + AmpPairs(ys) by {
      assert xs + [long] + ys == xs + ([long] + ys);
      JoinAppend(xs, [long] + ys);
      assert ([long] + ys)[0] == long && ([long] + ys)[1..] == ys;
    }
    assert Join(xs + [(k, v)]) == Join(xs) + ("&" + Pair((k, v))) by {
      JoinAppend(xs, [(k, v)]);
      AmpPairsOne((k, v));
    }
    assert Pair(long) == Pair((k, v)) + "#" + t;
    TextRegroup(base, Join(xs), Pair(long), Pair((k, v)), t, AmpPairs(ys));
  }

  /** Whatever follows a `#` is the fragment and carries no parameters. */
  lemma FragmentCut(head: string, rest: string)
    requires '#' !in head
    ensures QueryParams(head + ['#'] + rest) == QueryParams(head)
  {
    IndexOfAfter(head, '#', rest);
    assert (head + ['#'] + rest)[..|head|] == head;
    assert Unfragmented(head) == head;
  }

  /**
   * A value holding `#` ends the query there: the rest of that value and
   * every later parameter become the fragment, and the page reads only
   * the parameters up to the value's text before the `#`.
   */
  lemma {:induction false} HashTruncates(base: string, xs: seq<Param>, k: string, v: string, t: string, ys: seq<Param>)
    requires '?' !in base && '#' !in base && |xs| > 0 && Separable(xs + [(k, v)])
    ensures QueryParams(base + "?" + Join(xs + [(k, v + "#" + t)] + ys)) == xs + [(k, v)]
  {
    var head := base + "?" + Join(xs + [(k, v)]);
    HashRegroup(base, xs, k, v, t, ys);
    NoHashInJoin(xs + [(k, v)]);
    FragmentCut(head, t + AmpPairs(ys));
    QueryOfUrl(base, xs + [(k, v)]);
  }
}
