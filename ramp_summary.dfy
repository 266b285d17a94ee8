/**
 * The transaction summary: whether the amount is below the payment method's
 * minimum, whether checkout may be launched, the one-click checkout link it
 * builds, the secure-token request it makes, and the success summary it
 * stores before leaving and restores after the redirect back.
 */
module RampTransactionSummary {
  import opened Wrappers
  import opened Decimal
  import opened UriEncoding
  import opened QueryString
  import opened RampTypes
  import opened Storage
  import opened CoinbaseRampTransactionContext

  /** `Number(limit?.min)`: NaN when there is no limit. */
  function MinOf(limit: Option<PaymentLimit>): Num
  {
    if limit.None? then NaN else ParseNumber(limit.value.min)
  }

  /**
   * `isAmountTooLow`: true while no amount or no payment method is chosen;
   * otherwise whether the amount is below the selected method's minimum. A
   * comparison with NaN is false, so a missing limit or an unreadable
   * number never counts as too low.
   */
  function IsAmountTooLow(amount: Option<string>, paymentMethod: Option<PaymentLimit>, limit: Option<PaymentLimit>): (r: bool)
    ensures !Truthy(amount) || paymentMethod.None? ==> r
    ensures Truthy(amount) && paymentMethod.Some? && ParseNumber(amount.value).Dec? && MinOf(limit).Dec? ==>
      (r <==> Value(ParseNumber(amount.value)) < Value(MinOf(limit)))
    ensures Truthy(amount) && paymentMethod.Some? && (ParseNumber(amount.value).NaN? || MinOf(limit).NaN?) ==> !r
  {
    if Truthy(amount) && paymentMethod.Some? then
      LessMeansValueLess(ParseNumber(amount.value), MinOf(limit));
      Less(ParseNumber(amount.value), MinOf(limit))
    else true
  }

  /**
   * `readyToConfirmTransaction`: a secure token is held. The test is
   * against `null` only, so an empty token string counts as ready.
   */
  function ReadyToConfirm(secureToken: Option<string>): (r: bool)
    ensures r <==> secureToken.Some?
    ensures secureToken == Some("") ==> r
  {
    secureToken != None
  }

  /** The quote id the link carries: the buy quote's in onramp mode when it has one, else the sell quote's, else empty. */
  function QuoteId(onramp: bool, buyQuote: Option<BuyQuote>, sellQuote: Option<SellQuote>): (r: string)
    ensures onramp && buyQuote.Some? && Truthy(buyQuote.value.quoteId) ==> r == buyQuote.value.quoteId.value
    ensures !(onramp && buyQuote.Some? && Truthy(buyQuote.value.quoteId)) ==>
      r == (if sellQuote.Some? && sellQuote.value.quoteId.Some? then sellQuote.value.quoteId.value else "")
  {
    var chosen := if onramp && buyQuote.Some? && Truthy(buyQuote.value.quoteId) then buyQuote.value.quoteId
      else if sellQuote.Some? then sellQuote.value.quoteId else None;
    if Truthy(chosen) then chosen.value else ""
  }

  /** A nullable string interpolated into a template: `null` reads as "null". */
  function TokenText(secureToken: Option<string>): string
  {
    if secureToken.Some? then secureToken.value else "null"
  }

  function NetworkName(slot: Option<NetworkSlot>): Option<string>
  {
    if slot.Some? then Some(slot.value.Name()) else None
  }

  /** Everything the checkout link is built from. */
  datatype LinkInputs = LinkInputs(
    onramp: bool,
    secureToken: Option<string>,
    origin: string,
    network: Option<NetworkSlot>,
    purchaseCurrency: Option<PurchaseCurrency>,
    tx: RampTransaction,
    buyQuote: Option<BuyQuote>,
    sellQuote: Option<SellQuote>)

  /** The one-click checkout page for buying or for selling. */
  function CheckoutBase(onramp: bool): string
  {
    "https://pay.coinbase.com/" + (if onramp then "buy" else "sell") + "/one-click"
  }

  /** Where the checkout page sends the user back: this origin with `success=true`. */
  function RedirectUrl(origin: string): string
  {
    EncodeURIComponent(origin + "?success=true")
  }

  predicate HasAsset(c: Option<PurchaseCurrency>)
  {
    c.Some? && c.value.id != ""
  }

  /** `&key=value` when the value is truthy, else nothing. */
  function TruthyPiece(key: string, v: Option<string>): string
  {
    if Truthy(v) then "&" + key + "=" + v.value else ""
  }

  function AssetPiece(c: Option<PurchaseCurrency>): string
  {
    if HasAsset(c) then "&defaultAsset=" + c.value.symbol else ""
  }

  function AmountPiece(amount: Option<string>): string
  {
    if Truthy(amount) then "&presetFiatAmount=" + ToFixed2(ParseNumber(amount.value)) else ""
  }

  /**
   * The link text before `encodeURI`, assembled piece by piece as the
   * component does: the checkout page, `?`, and the parameters joined by `&`.
   */
  function RawLink(inp: LinkInputs): (r: string)
    ensures r == CheckoutBase(inp.onramp) + "?" + Join(LinkParams(inp))
  {
    var raw := CheckoutBase(inp.onramp) + "?sessionToken=" + TokenText(inp.secureToken)
      + "&redirectUrl=" + RedirectUrl(inp.origin)
      + TruthyPiece("defaultNetwork", NetworkName(inp.network))
      + AssetPiece(inp.purchaseCurrency)
      + TruthyPiece("defaultPaymentMethod", inp.tx.paymentMethod)
      + TruthyPiece("fiatCurrency", inp.tx.currency)
      + AmountPiece(inp.tx.amount)
      + "&quoteId=" + QuoteId(inp.onramp, inp.buyQuote, inp.sellQuote);
    var ps := LinkParams(inp);
    LinkTailParams(inp);
    assert ps[0] == ("sessionToken", TokenText(inp.secureToken));
    assert Join(ps) == Pair(ps[0]) + AmpPairs(ps[1..]);
    AssembleLink(raw, Join(ps), CheckoutBase(inp.onramp), TokenText(inp.secureToken), RedirectUrl(inp.origin),
      TruthyPiece("defaultNetwork", NetworkName(inp.network)),
      AssetPiece(inp.purchaseCurrency),
      TruthyPiece("defaultPaymentMethod", inp.tx.paymentMethod),
      TruthyPiece("fiatCurrency", inp.tx.currency),
      AmountPiece(inp.tx.amount),
      QuoteId(inp.onramp, inp.buyQuote, inp.sellQuote));
    raw
  }

  /**
   * `transactionLink`: the checkout page, `?`, and the parameters joined by
   * `&` with every value passed through `encodeURI`.
   */
  function TransactionLink(inp: LinkInputs): (r: string)
    ensures r == CheckoutBase(inp.onramp) + "?" + Join(EncodeValues(LinkParams(inp)))
  {
    LinkKeysPlain(inp);
    CheckoutBaseKept(inp.onramp);
    EncodeKeeps("?", true);
    EncodeAppend(CheckoutBase(inp.onramp) + "?", Join(LinkParams(inp)), true);
    EncodeAppend(CheckoutBase(inp.onramp), "?", true);
    EncodeJoin(LinkParams(inp));
    EncodeURI(RawLink(inp))
  }

  /** A parameter present only when its value is truthy. */
  function TruthyParam(key: string, v: Option<string>): (r: seq<Param>)
    ensures |r| <= 1
  {
    if Truthy(v) then [(key, v.value)] else []
  }

  function AssetParam(c: Option<PurchaseCurrency>): (r: seq<Param>)
    ensures |r| <= 1
  {
    if HasAsset(c) then [("defaultAsset", c.value.symbol)] else []
  }

  function AmountParam(amount: Option<string>): (r: seq<Param>)
    ensures |r| <= 1
  {
    if Truthy(amount) then [("presetFiatAmount", ToFixed2(ParseNumber(amount.value)))] else []
  }

  /** The parameters before the payment method. */
  function LeadingParams(inp: LinkInputs): seq<Param>
  {
    [("sessionToken", TokenText(inp.secureToken)), ("redirectUrl", RedirectUrl(inp.origin))]
    + TruthyParam("defaultNetwork", NetworkName(inp.network))
    + AssetParam(inp.purchaseCurrency)
  }

  /** The parameters after the payment method. */
  function TrailingParams(inp: LinkInputs): seq<Param>
  {
    TruthyParam("fiatCurrency", inp.tx.currency)
    + AmountParam(inp.tx.amount)
    + [("quoteId", QuoteId(inp.onramp, inp.buyQuote, inp.sellQuote))]
  }

  /** The link's parameters, in order, before encoding. */
  function LinkParams(inp: LinkInputs): seq<Param>
  {
    LeadingParams(inp) + TruthyParam("defaultPaymentMethod", inp.tx.paymentMethod) + TrailingParams(inp)
  }

  /** Each value passed through `encodeURI`; keys kept. */
  function EncodeValues(ps: seq<Param>): (r: seq<Param>)
    ensures |r| == |ps|
    ensures forall i :: 0 <= i < |ps| ==> r[i] == (ps[i].0, EncodeURI(ps[i].1))
  {
    if ps == [] then [] else [(ps[0].0, EncodeURI(ps[0].1))] + EncodeValues(ps[1..])
  }

  predicate PlainKey(k: string)
  {
    forall i :: 0 <= i < |k| ==> IsAsciiAlpha(k[i])
  }

  predicate PlainKeys(ps: seq<Param>)
  {
    forall i :: 0 <= i < |ps| ==> PlainKey(ps[i].0)
  }

  /** Neither `&`, which would split the parameter, nor `#`, which would end the query. */
  predicate NoDelimiter(v: string)
  {
    '&' !in v && '#' !in v
  }

  predicate ValuesDelimiterFree(ps: seq<Param>)
  {
    forall i :: 0 <= i < |ps| ==> NoDelimiter(ps[i].1)
  }

  predicate DelimiterFree(v: Option<string>)
  {
    v.None? || NoDelimiter(v.value)
  }

  /** No value the link carries holds an `&` or a `#` of its own. */
  predicate LinkValuesDelimiterFree(inp: LinkInputs)
  {
    && NoDelimiter(TokenText(inp.secureToken))
    && DelimiterFree(NetworkName(inp.network))
    && (inp.purchaseCurrency.Some? ==> NoDelimiter(inp.purchaseCurrency.value.symbol))
    && DelimiterFree(inp.tx.paymentMethod)
    && DelimiterFree(inp.tx.currency)
    && NoDelimiter(QuoteId(inp.onramp, inp.buyQuote, inp.sellQuote))
  }

  lemma {:induction false} EncodeValuesAppend(a: seq<Param>, b: seq<Param>)
    ensures EncodeValues(a + b) == EncodeValues(a) + EncodeValues(b)
  {
  }

  lemma {:induction false} PlainKeyKept(k: string)
    requires PlainKey(k)
    ensures EncodeURI(k) == k
    ensures '&' !in k && '=' !in k && '?' !in k && '#' !in k
  {
    EncodeKeeps(k, true);
  }

  /** Encoding one `key=value` with a plain key encodes the value only. */
  lemma {:induction false} EncodePair(p: Param)
    requires PlainKey(p.0)
    ensures EncodeURI(Pair(p)) == Pair((p.0, EncodeURI(p.1)))
  {
    PlainKeyKept(p.0);
    EncodeKeeps("=", true);
    EncodeAppend(p.0 + "=", p.1, true);
    EncodeAppend(p.0, "=", true);
  }

  lemma AmpKept()
    ensures EncodeURI("&") == "&"
  {
    assert Unescaped('&', true);
    EncodeKeeps("&", true);
  }

  /** Encoding `&key=value` followed by encoded-alike text encodes the value only. */
  lemma EncodeAmpStep(p: Param, tail: string, encodedTail: string)
    requires PlainKey(p.0) && EncodeURI(tail) == encodedTail
    ensures EncodeURI("&" + Pair(p) + tail) == "&" + Pair((p.0, EncodeURI(p.1))) + encodedTail
  {
    EncodePair(p);
    AmpKept();
    Assoc("&", Pair(p), tail);
    EncodeAppend("&", Pair(p) + tail, true);
    EncodeAppend(Pair(p), tail, true);
    Assoc("&", Pair((p.0, EncodeURI(p.1))), encodedTail);
  }

  /** Encoding the joined parameters encodes each value and leaves the layout as it is. */
  lemma {:induction false} EncodeAmpPairs(ps: seq<Param>)
    requires PlainKeys(ps)
    ensures EncodeURI(AmpPairs(ps)) == AmpPairs(EncodeValues(ps))
  {
    if ps != [] {
      var rest := ps[1..];
      assert PlainKeys(rest) by {
        assert forall i :: 0 <= i < |rest| ==> rest[i] == ps[i + 1];
      }
      EncodeAmpPairs(rest);
      EncodeAmpStep(ps[0], AmpPairs(rest), AmpPairs(EncodeValues(rest)));
      var e := EncodeValues(ps);
      assert e[0] == (ps[0].0, EncodeURI(ps[0].1));
      assert e[1..] == EncodeValues(rest);
    }
  }

  lemma {:induction false} EncodeJoin(ps: seq<Param>)
    requires |ps| > 0 && PlainKeys(ps)
    ensures EncodeURI(Join(ps)) == Join(EncodeValues(ps))
  {
    var rest := ps[1..];
    assert PlainKeys(rest) by {
      assert forall i :: 0 <= i < |rest| ==> rest[i] == ps[i + 1];
    }
    EncodeAmpPairs(rest);
    EncodePair(ps[0]);
    EncodeAppend(Pair(ps[0]), AmpPairs(rest), true);
    var e := EncodeValues(ps);
    assert e[0] == (ps[0].0, EncodeURI(ps[0].1));
    assert e[1..] == EncodeValues(rest);
  }

  /** Plain keys and values free of `&` and `#` stay separable once the values are encoded. */
  lemma {:induction false} SeparableEncoded(ps: seq<Param>)
    requires PlainKeys(ps) && ValuesDelimiterFree(ps)
    ensures Separable(EncodeValues(ps))
  {
    forall i | 0 <= i < |ps|
      ensures '&' !in EncodeValues(ps)[i].0 && '=' !in EncodeValues(ps)[i].0 && '#' !in EncodeValues(ps)[i].0
      ensures '&' !in EncodeValues(ps)[i].1 && '#' !in EncodeValues(ps)[i].1
    {
      PlainKeyKept(ps[i].0);
      UriKeepsDelimiters(ps[i].1, '&');
      UriKeepsDelimiters(ps[i].1, '#');
    }
  }

  /** Every character of the checkout host is one `encodeURI` copies, and none is `?`. */
  lemma HostChars()
    ensures forall i :: 0 <= i < |"https://pay.coinbase.com/"| ==>
      Unescaped("https://pay.coinbase.com/"[i], true) && "https://pay.coinbase.com/"[i] != '?' && "https://pay.coinbase.com/"[i] != '#'
  {
  }

  lemma PathChars(onramp: bool)
    ensures var path := (if onramp then "buy" else "sell") + "/one-click";
      forall i :: 0 <= i < |path| ==> Unescaped(path[i], true) && path[i] != '?' && path[i] != '#'
  {
  }

  lemma HostKept()
    ensures EncodeURI("https://pay.coinbase.com/") == "https://pay.coinbase.com/"
    ensures '?' !in "https://pay.coinbase.com/" && '#' !in "https://pay.coinbase.com/"
  {
    HostChars();
    EncodeKeeps("https://pay.coinbase.com/", true);
  }

  lemma PathKept(onramp: bool)
    ensures var path := (if onramp then "buy" else "sell") + "/one-click";
      EncodeURI(path) == path && '?' !in path && '#' !in path
  {
    var path := (if onramp then "buy" else "sell") + "/one-click";
    PathChars(onramp);
    EncodeKeeps(path, true);
  }

  /** Two texts `encodeURI` leaves alone, neither holding `?`, stay so once joined. */
  lemma KeptConcat(a: string, b: string)
    requires EncodeURI(a) == a && EncodeURI(b) == b && '?' !in a && '?' !in b && '#' !in a && '#' !in b
    ensures EncodeURI(a + b) == a + b && '?' !in a + b && '#' !in a + b
  {
    EncodeAppend(a, b, true);
  }

  lemma HostPathKept(onramp: bool, path: string)
    requires path == (if onramp then "buy" else "sell") + "/one-click"
    ensures EncodeURI("https://pay.coinbase.com/" + path) == "https://pay.coinbase.com/" + path
    ensures '?' !in "https://pay.coinbase.com/" + path && '#' !in "https://pay.coinbase.com/" + path
  {
    HostKept();
    PathKept(onramp);
    KeptConcat("https://pay.coinbase.com/", path);
  }

  /** The checkout page's address passes through `encodeURI` unchanged and holds no `?` or `#`. */
  lemma {:induction false} CheckoutBaseKept(onramp: bool)
    ensures EncodeURI(CheckoutBase(onramp)) == CheckoutBase(onramp)
    ensures '?' !in CheckoutBase(onramp) && '#' !in CheckoutBase(onramp)
  {
    var path := (if onramp then "buy" else "sell") + "/one-click";
    HostPathKept(onramp, path);
    assert CheckoutBase(onramp) == "https://pay.coinbase.com/" + path;
  }

  lemma {:induction false} ToFixed2DelimiterFree(x: Num)
    ensures NoDelimiter(ToFixed2(x))
  {
    if x.Dec? {
      NoDelimiterInDigits(NatToString(Hundredths(x) / 100));
    }
  }

  lemma {:induction false} NoDelimiterInDigits(w: string)
    requires AllDigits(w)
    ensures NoDelimiter(w)
  {
    assert forall i :: 0 <= i < |w| ==> IsDigit(w[i]);
  }

  lemma PlainKeysAppend(a: seq<Param>, b: seq<Param>)
    requires PlainKeys(a) && PlainKeys(b)
    ensures PlainKeys(a + b)
  {
    forall i | 0 <= i < |a + b| ensures PlainKey((a + b)[i].0) {
      if i < |a| { assert (a + b)[i] == a[i]; } else { assert (a + b)[i] == b[i - |a|]; }
    }
  }

  /** The keys of the parameters up to the payment method are plain words. */
  lemma LeadingKeysPlain()
    ensures PlainKey("sessionToken") && PlainKey("redirectUrl") && PlainKey("defaultNetwork")
    ensures PlainKey("defaultAsset") && PlainKey("defaultPaymentMethod")
  {
  }

  /** The keys of the parameters after the payment method are plain words. */
  lemma TrailingKeysPlain()
    ensures PlainKey("fiatCurrency") && PlainKey("presetFiatAmount") && PlainKey("quoteId")
  {
  }

  lemma {:induction false} LinkKeysPlain(inp: LinkInputs)
    ensures PlainKeys(LeadingParams(inp)) && PlainKeys(TrailingParams(inp)) && PlainKeys(LinkParams(inp))
  {
    LeadingKeysPlain();
    TrailingKeysPlain();
    var head := [("sessionToken", TokenText(inp.secureToken)), ("redirectUrl", RedirectUrl(inp.origin))];
    var net := TruthyParam("defaultNetwork", NetworkName(inp.network));
    var asset := AssetParam(inp.purchaseCurrency);
    var pm := TruthyParam("defaultPaymentMethod", inp.tx.paymentMethod);
    var cur := TruthyParam("fiatCurrency", inp.tx.currency);
    var amt := AmountParam(inp.tx.amount);
    var quote := [("quoteId", QuoteId(inp.onramp, inp.buyQuote, inp.sellQuote))];
    assert PlainKeys(head) && PlainKeys(net) && PlainKeys(asset) && PlainKeys(pm);
    assert PlainKeys(cur) && PlainKeys(amt) && PlainKeys(quote);
    PlainKeysAppend(head, net);
    PlainKeysAppend(head + net, asset);
    PlainKeysAppend(cur, amt);
    PlainKeysAppend(cur + amt, quote);
    PlainKeysAppend(head + net + asset, pm);
    PlainKeysAppend(head + net + asset + pm, cur + amt + quote);
    assert LinkParams(inp) == head + net + asset + pm + (cur + amt + quote);
  }

  lemma {:induction false} LinkValuesFree(inp: LinkInputs)
    requires LinkValuesDelimiterFree(inp)
    ensures ValuesDelimiterFree(LeadingParams(inp)) && ValuesDelimiterFree(TrailingParams(inp)) && ValuesDelimiterFree(LinkParams(inp))
  {
    ComponentHasNoDelimiters(inp.origin + "?success=true");
    if Truthy(inp.tx.amount) {
      ToFixed2DelimiterFree(ParseNumber(inp.tx.amount.value));
    }
  }

  lemma AmpPairsOfSeven(a: seq<Param>, b: seq<Param>, c: seq<Param>, d: seq<Param>, e: seq<Param>, f: seq<Param>, g: seq<Param>)
    ensures AmpPairs(a + b + c + d + e + f + g)
         == AmpPairs(a) + AmpPairs(b) + AmpPairs(c) + AmpPairs(d) + AmpPairs(e) + AmpPairs(f) + AmpPairs(g)
  {
    AmpPairsAppend(a + b + c + d + e + f, g);
    AmpPairsAppend(a + b + c + d + e, f);
    AmpPairsAppend(a + b + c + d, e);
    AmpPairsAppend(a + b + c, d);
    AmpPairsAppend(a + b, c);
    AmpPairsAppend(a, b);
  }

  lemma AssembleSeven(ps: seq<Param>, a: seq<Param>, b: seq<Param>, c: seq<Param>, d: seq<Param>, e: seq<Param>, f: seq<Param>, g: seq<Param>,
                      sa: string, sb: string, sc: string, sd: string, se: string, sf: string, sg: string)
    requires ps == a + b + c + d + e + f + g
    requires AmpPairs(a) == sa && AmpPairs(b) == sb && AmpPairs(c) == sc && AmpPairs(d) == sd
    requires AmpPairs(e) == se && AmpPairs(f) == sf && AmpPairs(g) == sg
    ensures AmpPairs(ps) == sa + sb + sc + sd + se + sf + sg
  {
    AmpPairsOfSeven(a, b, c, d, e, f, g);
  }

  /** At most one parameter: `&key=value` or nothing. */
  lemma AmpPairsOptional(ps: seq<Param>)
    requires |ps| <= 1
    ensures AmpPairs(ps) == if ps == [] then "" else "&" + ps[0].0 + "=" + ps[0].1
  {
    if ps != [] {
      AmpPairsOne(ps[0]);
    }
  }

  lemma TruthyPieceText(key: string, v: Option<string>)
    ensures AmpPairs(TruthyParam(key, v)) == TruthyPiece(key, v)
  {
    AmpPairsOptional(TruthyParam(key, v));
  }

  lemma AssetPieceText(c: Option<PurchaseCurrency>)
    ensures AmpPairs(AssetParam(c)) == AssetPiece(c)
  {
    AmpPairsOptional(AssetParam(c));
  }

  lemma AmountPieceText(amount: Option<string>)
    ensures AmpPairs(AmountParam(amount)) == AmountPiece(amount)
  {
    if Truthy(amount) {
      var v := ToFixed2(ParseNumber(amount.value));
      assert AmountParam(amount) == [("presetFiatAmount", v)];
      ParamPiece("presetFiatAmount", v, "&presetFiatAmount=");
    }
  }

  /** One parameter joins as its `&key=` prefix followed by its value. */
  lemma ParamPiece(k: string, v: string, prefix: string)
    requires prefix == "&" + k + "="
    ensures AmpPairs([(k, v)]) == prefix + v
  {
    AmpPairsOne((k, v));
  }

  /** Dropping the first parameter of the link's seven groups leaves the other six in order. */
  lemma DropSessionToken(ps: seq<Param>, s: Param, r: Param, net: seq<Param>, asset: seq<Param>, pm: seq<Param>,
                         cur: seq<Param>, amt: seq<Param>, q: Param)
    requires ps == ([s, r] + net + asset) + pm + (cur + amt + [q])
    ensures ps[1..] == [r] + net + asset + pm + cur + amt + [q]
  {
    assert ps == [s] + ([r] + net + asset + pm + cur + amt + [q]);
  }

  /** The parameters after the session token join to the link's text from `&redirectUrl=` on. */
  lemma {:induction false} LinkTailParams(inp: LinkInputs)
    ensures AmpPairs(LinkParams(inp)[1..]) ==
      "&redirectUrl=" + RedirectUrl(inp.origin)
      + TruthyPiece("defaultNetwork", NetworkName(inp.network))
      + AssetPiece(inp.purchaseCurrency)
      + TruthyPiece("defaultPaymentMethod", inp.tx.paymentMethod)
      + TruthyPiece("fiatCurrency", inp.tx.currency)
      + AmountPiece(inp.tx.amount)
      + ("&quoteId=" + QuoteId(inp.onramp, inp.buyQuote, inp.sellQuote))
  {
    var redirect := ("redirectUrl", RedirectUrl(inp.origin));
    var net := TruthyParam("defaultNetwork", NetworkName(inp.network));
    var asset := AssetParam(inp.purchaseCurrency);
    var pm := TruthyParam("defaultPaymentMethod", inp.tx.paymentMethod);
    var cur := TruthyParam("fiatCurrency", inp.tx.currency);
    var amt := AmountParam(inp.tx.amount);
    var quote := ("quoteId", QuoteId(inp.onramp, inp.buyQuote, inp.sellQuote));
    DropSessionToken(LinkParams(inp), ("sessionToken", TokenText(inp.secureToken)), redirect, net, asset, pm, cur, amt, quote);
    ParamPiece(redirect.0, redirect.1, "&redirectUrl=");
    ParamPiece(quote.0, quote.1, "&quoteId=");
    TruthyPieceText("defaultNetwork", NetworkName(inp.network));
    AssetPieceText(inp.purchaseCurrency);
    TruthyPieceText("defaultPaymentMethod", inp.tx.paymentMethod);
    TruthyPieceText("fiatCurrency", inp.tx.currency);
    AmountPieceText(inp.tx.amount);
    AssembleSeven(LinkParams(inp)[1..], [redirect], net, asset, pm, cur, amt, [quote],
      "&redirectUrl=" + RedirectUrl(inp.origin),
      TruthyPiece("defaultNetwork", NetworkName(inp.network)),
      AssetPiece(inp.purchaseCurrency),
      TruthyPiece("defaultPaymentMethod", inp.tx.paymentMethod),
      TruthyPiece("fiatCurrency", inp.tx.currency),
      AmountPiece(inp.tx.amount),
      "&quoteId=" + QuoteId(inp.onramp, inp.buyQuote, inp.sellQuote));
  }

  lemma Assoc(x: string, y: string, z: string)
    ensures x + y + z == x + (y + z)
  {
  }

  /** The link's parameters after the session token, regrouped from the right. */
  lemma TailRegroup(r: string, redirect: string, n: string, a: string, p: string, c: string, m: string, t7: string)
    ensures r + redirect + n + a + p + c + m + t7 == r + (redirect + (n + (a + (p + (c + (m + t7))))))
  {
    Assoc(r + redirect + n + a + p + c, m, t7);
    Assoc(r + redirect + n + a + p, c, m + t7);
    Assoc(r + redirect + n + a, p, c + (m + t7));
    Assoc(r + redirect + n, a, p + (c + (m + t7)));
    Assoc(r + redirect, n, a + (p + (c + (m + t7))));
    Assoc(r, redirect, n + (a + (p + (c + (m + t7)))));
  }

  lemma AssembleLink(raw: string, joined: string, base: string, token: string, redirect: string,
                     n: string, a: string, p: string, c: string, m: string, q: string)
    requires raw == base + "?sessionToken=" + token + "&redirectUrl=" + redirect + n + a + p + c + m + "&quoteId=" + q
    requires joined == "sessionToken" + "=" + token + ("&redirectUrl=" + redirect + n + a + p + c + m + ("&quoteId=" + q))
    ensures raw == base + "?" + joined
  {
    var t7 := "&quoteId=" + q;
    var head := base + "?sessionToken=" + token;
    var t0 := "&redirectUrl=" + (redirect + (n + (a + (p + (c + (m + t7))))));
    Assoc(head + "&redirectUrl=" + redirect + n + a + p + c + m, "&quoteId=", q);
    assert raw == head + "&redirectUrl=" + redirect + n + a + p + c + m + t7;
    TailRegroup(head + "&redirectUrl=", redirect, n, a, p, c, m, t7);
    Assoc(head, "&redirectUrl=", redirect + (n + (a + (p + (c + (m + t7))))));
    assert raw == head + t0;
    TailRegroup("&redirectUrl=", redirect, n, a, p, c, m, t7);
    assert joined == "sessionToken" + "=" + token + t0;
    Assoc(base + "?sessionToken=", token, t0);
    Assoc(base, "?sessionToken=", token + t0);
    Assoc("sessionToken" + "=", token, t0);
    Assoc("?", "sessionToken" + "=", token + t0);
    Assoc(base, "?", joined);
    assert "?sessionToken=" == "?" + ("sessionToken" + "=");
  }


  /** The first characters of the link in a given mode: the checkout page, then the session token's key. */
  function LinkHead(onramp: bool): string
  {
    CheckoutBase(onramp) + "?sessionToken="
  }

  lemma HeadsDiffer()
    ensures |LinkHead(true)| == 52 && |LinkHead(false)| == 53
    ensures LinkHead(true)[25] == 'b' && LinkHead(false)[25] == 's'
  {
    var host := "https://pay.coinbase.com/";
    assert |host| == 25;
    assert LinkHead(true) == host + ("buy" + "/one-click" + "?sessionToken=");
    assert LinkHead(false) == host + ("sell" + "/one-click" + "?sessionToken=");
  }

  /** Regrouping `base?key=value…` as `base?key=` followed by `value…`. */
  lemma HeadSplit(base: string, key: string, v: string, tail: string)
    ensures base + "?" + (key + "=" + v + tail) == (base + ("?" + key + "=")) + (v + tail)
  {
  }

  lemma SessionKeyText()
    ensures "?" + "sessionToken" + "=" == "?sessionToken="
  {
  }

  /** The link is its mode's head followed by the encoded token and the remaining parameters. */
  lemma {:induction false} LinkStartsWithHead(inp: LinkInputs)
    ensures TransactionLink(inp) == LinkHead(inp.onramp)
      + (EncodeURI(TokenText(inp.secureToken)) + AmpPairs(EncodeValues(LinkParams(inp))[1..]))
  {
    var ps := EncodeValues(LinkParams(inp));
    assert ps[0] == ("sessionToken", EncodeURI(TokenText(inp.secureToken)));
    HeadSplit(CheckoutBase(inp.onramp), "sessionToken", EncodeURI(TokenText(inp.secureToken)), AmpPairs(ps[1..]));
    SessionKeyText();
  }

  /**
   * The link begins with its mode's head, and it begins with the onramp
   * head (`.../buy/one-click?sessionToken=`) exactly in onramp mode; every
   * other mode gets the selling checkout.
   */
  lemma {:induction false} LinkPrefix(inp: LinkInputs)
    ensures var t := TransactionLink(inp);
      |t| >= |LinkHead(inp.onramp)| && t[..|LinkHead(inp.onramp)|] == LinkHead(inp.onramp)
    ensures var t := TransactionLink(inp);
      (|t| >= |LinkHead(true)| && t[..|LinkHead(true)|] == LinkHead(true)) <==> inp.onramp
  {
    LinkStartsWithHead(inp);
    var head := LinkHead(inp.onramp);
    var t := TransactionLink(inp);
    var rest := t[|head|..];
    assert t == head + rest;
    assert t[..|head|] == head;
    HeadsDiffer();
    if !inp.onramp {
      assert t[25] == head[25] == 's';
    }
  }

  /** When no value holds an `&`, the checkout page reads back exactly the link's parameters, values encoded. */
  lemma {:induction false} LinkQuery(inp: LinkInputs)
    requires LinkValuesDelimiterFree(inp)
    ensures QueryParams(TransactionLink(inp)) == EncodeValues(LinkParams(inp))
  {
    var ps := LinkParams(inp);
    LinkKeysPlain(inp);
    LinkValuesFree(inp);
    SeparableEncoded(ps);
    CheckoutBaseKept(inp.onramp);
    QueryOfUrl(CheckoutBase(inp.onramp), EncodeValues(ps));
  }

  /**
   * What the checkout page reads first, second and last: the session token,
   * the return address (encoded twice, each `%` of its component encoding
   * escaped as `%25`) and the quote id.
   */
  lemma {:induction false} LinkQueryEnds(inp: LinkInputs)
    requires LinkValuesDelimiterFree(inp)
    ensures var r := QueryParams(TransactionLink(inp));
      && |r| >= 3
      && r[0] == ("sessionToken", EncodeURI(TokenText(inp.secureToken)))
      && r[1] == ("redirectUrl", EscapePercents(RedirectUrl(inp.origin)))
      && r[|r| - 1] == ("quoteId", EncodeURI(QuoteId(inp.onramp, inp.buyQuote, inp.sellQuote)))
  {
    LinkQuery(inp);
    LinkParamsEnds(inp);
    DoubleEncoding(inp.origin + "?success=true");
  }

  /** The link's first two parameters are the session token and the return address; its last is the quote id. */
  lemma LinkParamsEnds(inp: LinkInputs)
    ensures var ps := LinkParams(inp);
      && |ps| >= 3
      && ps[0] == ("sessionToken", TokenText(inp.secureToken))
      && ps[1] == ("redirectUrl", RedirectUrl(inp.origin))
      && ps[|ps| - 1] == ("quoteId", QuoteId(inp.onramp, inp.buyQuote, inp.sellQuote))
  {
  }

  lemma ValuesDelimiterFreeAppend(a: seq<Param>, b: seq<Param>)
    requires ValuesDelimiterFree(a) && ValuesDelimiterFree(b)
    ensures ValuesDelimiterFree(a + b)
  {
    forall i | 0 <= i < |a + b| ensures NoDelimiter((a + b)[i].1) {
      if i < |a| { assert (a + b)[i] == a[i]; } else { assert (a + b)[i] == b[i - |a|]; }
    }
  }

  lemma {:induction false} EncodeValuesThree(xs: seq<Param>, mid: seq<Param>, ys: seq<Param>)
    ensures EncodeValues(xs + mid + ys) == EncodeValues(xs) + EncodeValues(mid) + EncodeValues(ys)
  {
    EncodeValuesAppend(xs + mid, ys);
    EncodeValuesAppend(xs, mid);
  }

  /** The payment method with an injected `&quoteId=` in front of and around it. */
  lemma {:induction false} InjectedLayout(inp: LinkInputs, a: string, q: string)
    requires inp.tx.paymentMethod == Some(a + "&quoteId=" + q)
    ensures LinkParams(inp) == LeadingParams(inp) + [("defaultPaymentMethod", a + "&quoteId=" + q)] + TrailingParams(inp)
    ensures |LeadingParams(inp)| >= 2 && |TrailingParams(inp)| >= 1
  {
  }

  /** `&quoteId=` passes through `encodeURI` unchanged. */
  lemma {:induction false} EncodeInjected(a: string, q: string)
    ensures EncodeURI(a + "&quoteId=" + q) == EncodeURI(a) + "&" + "quoteId" + "=" + EncodeURI(q)
  {
    var lit := "&quoteId=";
    QuoteIdLiteralKept();
    EncodeAppend(a + lit, q, true);
    EncodeAppend(a, lit, true);
    LiteralSplit(EncodeURI(a), EncodeURI(q));
  }

  lemma QuoteIdChars()
    ensures forall i :: 0 <= i < |"&quoteId="| ==> Unescaped("&quoteId="[i], true)
  {
  }

  lemma QuoteIdLiteralKept()
    ensures EncodeURI("&quoteId=") == "&quoteId="
  {
    QuoteIdChars();
    EncodeKeeps("&quoteId=", true);
  }

  lemma LiteralSplit(x: string, y: string)
    ensures x + "&quoteId=" + y == x + "&" + "quoteId" + "=" + y
  {
    assert "&quoteId=" == "&" + "quoteId" + "=";
    assert x + "&quoteId=" == x + "&" + "quoteId" + "=";
  }

  /** Joined, a value holding `&quoteId=q` reads as that value followed by a parameter `quoteId=q`. */
  lemma {:induction false} JoinInjected(xs: seq<Param>, k: string, a: string, q: string, ys: seq<Param>)
    requires |xs| > 0
    ensures Join(xs + [(k, a + "&" + "quoteId" + "=" + q)] + ys) == Join(xs + [(k, a), ("quoteId", q)] + ys)
  {
    SplitValue(xs[1..], k, a, "quoteId", q, ys);
    assert (xs + [(k, a + "&" + "quoteId" + "=" + q)] + ys)[1..] == xs[1..] + [(k, a + "&" + "quoteId" + "=" + q)] + ys;
    assert (xs + [(k, a), ("quoteId", q)] + ys)[1..] == xs[1..] + [(k, a), ("quoteId", q)] + ys;
  }

  /** The parameters the checkout page sees when the payment method carries `&quoteId=q`. */
  function InjectedParams(inp: LinkInputs, a: string, q: string): seq<Param>
  {
    LeadingParams(inp) + [("defaultPaymentMethod", a), ("quoteId", q)] + TrailingParams(inp)
  }

  lemma {:induction false} InjectedSeparable(inp: LinkInputs, a: string, q: string)
    requires NoDelimiter(a) && NoDelimiter(q)
    requires LinkValuesDelimiterFree(inp.(tx := inp.tx.(paymentMethod := Some(a))))
    ensures Separable(EncodeValues(InjectedParams(inp, a, q)))
  {
    var clean := inp.(tx := inp.tx.(paymentMethod := Some(a)));
    var xs := LeadingParams(inp);
    var ys := TrailingParams(inp);
    var mid := [("defaultPaymentMethod", a), ("quoteId", q)];
    assert LeadingParams(clean) == xs && TrailingParams(clean) == ys;
    LinkKeysPlain(inp);
    LinkValuesFree(clean);
    LeadingKeysPlain();
    TrailingKeysPlain();
    PlainKeysAppend(xs, mid);
    PlainKeysAppend(xs + mid, ys);
    ValuesDelimiterFreeAppend(xs, mid);
    ValuesDelimiterFreeAppend(xs + mid, ys);
    SeparableEncoded(InjectedParams(inp, a, q));
  }

  lemma EncodeOne(k: string, v: string)
    ensures EncodeValues([(k, v)]) == [(k, EncodeURI(v))]
  {
  }

  lemma EncodeTwo(k: string, v: string, k2: string, v2: string)
    ensures EncodeValues([(k, v), (k2, v2)]) == [(k, EncodeURI(v)), (k2, EncodeURI(v2))]
  {
  }

  lemma {:induction false} InjectedJoin(inp: LinkInputs, a: string, q: string)
    requires inp.tx.paymentMethod == Some(a + "&quoteId=" + q)
    ensures Join(EncodeValues(LinkParams(inp))) == Join(EncodeValues(InjectedParams(inp, a, q)))
  {
    var xs := LeadingParams(inp);
    var ys := TrailingParams(inp);
    InjectedLayout(inp, a, q);
    var exs := EncodeValues(xs);
    var eys := EncodeValues(ys);
    var ea := EncodeURI(a);
    var eq := EncodeURI(q);
    var pm := a + "&quoteId=" + q;
    EncodeInjected(a, q);
    EncodeOne("defaultPaymentMethod", pm);
    EncodeTwo("defaultPaymentMethod", a, "quoteId", q);
    EncodeValuesThree(xs, [("defaultPaymentMethod", pm)], ys);
    EncodeValuesThree(xs, [("defaultPaymentMethod", a), ("quoteId", q)], ys);
    JoinInjected(exs, "defaultPaymentMethod", ea, eq, eys);
  }


  /**
   * The payment method goes into the link unescaped for `&`: a method of
   * the form `a&quoteId=q` makes the checkout page read a `quoteId` of `q`
   * ahead of the link's own quote id.
   */
  lemma {:induction false} QuoteIdInjection(inp: LinkInputs, a: string, q: string)
    requires inp.tx.paymentMethod == Some(a + "&quoteId=" + q) && NoDelimiter(a) && NoDelimiter(q)
    requires LinkValuesDelimiterFree(inp.(tx := inp.tx.(paymentMethod := Some(a))))
    ensures QueryParams(TransactionLink(inp)) == EncodeValues(InjectedParams(inp, a, q))
    ensures var r := QueryParams(TransactionLink(inp));
      && (exists i :: 0 <= i < |r| - 1 && r[i] == ("quoteId", EncodeURI(q)))
      && r[|r| - 1] == ("quoteId", EncodeURI(QuoteId(inp.onramp, inp.buyQuote, inp.sellQuote)))
  {
    var parsed := EncodeValues(InjectedParams(inp, a, q));
    InjectedSeparable(inp, a, q);
    InjectedJoin(inp, a, q);
    CheckoutBaseKept(inp.onramp);
    QueryOfUrl(CheckoutBase(inp.onramp), parsed);
    var xs := LeadingParams(inp);
    var ys := TrailingParams(inp);
    assert InjectedParams(inp, a, q)[|xs| + 1] == ("quoteId", q);
    assert ys[|ys| - 1] == ("quoteId", QuoteId(inp.onramp, inp.buyQuote, inp.sellQuote));
    assert InjectedParams(inp, a, q)[|InjectedParams(inp, a, q)| - 1] == ys[|ys| - 1];
    assert parsed[|xs| + 1] == ("quoteId", EncodeURI(q));
  }

  /** A magnitude times a factor, signed back, is the signed number times that factor. */
  lemma SignedProduct(m: int, p: nat)
    ensures (if m < 0 then -(Abs(m) * p) else Abs(m) * p) == m * p
  {
    if m < 0 {
      assert Abs(m) * p == (-m) * p;
    }
  }

  /** An amount with at most two decimals reaches the link exactly: its `presetFiatAmount` reads back as that amount. */
  lemma {:induction false} PresetAmountExact(x: Num)
    requires x.Dec? && x.scale <= 2
    ensures ParseNumber(ToFixed2(x)) == Dec(x.mant * Pow10(2 - x.scale), 2)
  {
    ToFixed2RoundTrip(x);
    ToFixed2Exact(x);
    SignedProduct(x.mant, Pow10(2 - x.scale));
  }


  /** The amounts and minimums of the examples below read as whole numbers. */
  lemma SmallNumbersParse()
    ensures ParseNumber("0") == Dec(0, 0) && ParseNumber("5") == Dec(5, 0)
    ensures ParseNumber("10") == Dec(10, 0) && ParseNumber("15") == Dec(15, 0)
  {
    DigitParses(0);
    DigitParses(5);
    TeenParses(10);
    TeenParses(15);
  }

  lemma DigitParses(n: nat)
    requires n < 10
    ensures ParseNumber([DigitChar(n)]) == Dec(n, 0)
  {
    NatToStringParses(n);
  }

  lemma TeenParses(n: nat)
    requires 10 <= n < 20
    ensures ParseNumber(['1', DigitChar(n - 10)]) == Dec(n, 0)
  {
    NatToStringParses(n);
    assert n / 10 == 1 && n % 10 == n - 10;
    assert NatToString(1) == ['1'];
    assert NatToString(n) == NatToString(1) + [DigitChar(n % 10)];
    assert NatToString(n) == ['1', DigitChar(n - 10)];
  }


  /** Against a card minimum of 10: 5 is too low, 15 is not, and "0" is compared like any other amount. */
  lemma AmountBelowMinimum()
    ensures var card := Some(PaymentLimit("CARD", "10", "500"));
      IsAmountTooLow(Some("5"), card, card) && !IsAmountTooLow(Some("15"), card, card)
      && IsAmountTooLow(Some("0"), card, card)
  {
    SmallNumbersParse();
  }

  /** A missing limit is never too low; an empty amount always is; "0" meets a minimum of "0". */
  lemma AmountEdgeCases()
    ensures var card := Some(PaymentLimit("CARD", "10", "500"));
      !IsAmountTooLow(Some("5"), card, None) && IsAmountTooLow(Some(""), card, card)
    ensures var free := Some(PaymentLimit("CARD", "0", "500"));
      !IsAmountTooLow(Some("0"), free, free)
  {
    SmallNumbersParse();
  }


  /** The arguments of the secure-token request. */
  datatype TokenRequest = TokenRequest(ethAddress: string, blockchains: seq<string>, partnerUserId: Option<string>)

  /** The summary component: its own success state, over the shared provider state and the browser's storage. */
  class Summary {
    const ctx: Provider
    const storage: LocalStorage
    const origin: string
    var txSuccess: bool
    var txSuccessQuoteSummary: Option<TxSuccessSummary>

    constructor (ctx: Provider, storage: LocalStorage, origin: string)
      ensures this.ctx == ctx && this.storage == storage && this.origin == origin
      ensures !txSuccess && txSuccessQuoteSummary.None?
    {
      this.ctx := ctx;
      this.storage := storage;
      this.origin := origin;
      txSuccess := false;
      txSuccessQuoteSummary := None;
    }

    function Inputs(): LinkInputs
      reads ctx
    {
      LinkInputs(IsOnrampActive(ctx.mode), ctx.secureToken, origin, ctx.selectedPurchaseCurrencyNetwork,
        ctx.selectedPurchaseCurrency, ctx.rampTransaction, ctx.buyQuote, ctx.sellQuote)
    }

    function AmountTooLow(): (r: bool)
      reads ctx
      ensures var amount := ctx.rampTransaction.amount;
        !Truthy(amount) || ctx.selectedPaymentMethod.None? ==> r
      ensures var amount := ctx.rampTransaction.amount;
        var min := MinOf(SelectedPaymentMethodLimit(ctx.selectedCurrency, ctx.selectedPaymentMethod));
        Truthy(amount) && ctx.selectedPaymentMethod.Some? ==>
          && (ParseNumber(amount.value).Dec? && min.Dec? ==> (r <==> Value(ParseNumber(amount.value)) < Value(min)))
          && (ParseNumber(amount.value).NaN? || min.NaN? ==> !r)
    {
      IsAmountTooLow(ctx.rampTransaction.amount, ctx.selectedPaymentMethod,
        SelectedPaymentMethodLimit(ctx.selectedCurrency, ctx.selectedPaymentMethod))
    }

    /**
     * The confirm button is shown once signed in and enabled only with a
     * secure token, an amount not below the minimum, and outside offramp mode.
     */
    function ConfirmEnabled(): (r: bool)
      reads ctx
      ensures r <==>
        && ctx.authenticated && ctx.secureToken.Some? && !IsOfframpActive(ctx.mode)
        && Truthy(ctx.rampTransaction.amount) && ctx.selectedPaymentMethod.Some?
        && !Less(ParseNumber(ctx.rampTransaction.amount.value),
                 MinOf(SelectedPaymentMethodLimit(ctx.selectedCurrency, ctx.selectedPaymentMethod)))
    {
      ctx.authenticated && ReadyToConfirm(ctx.secureToken) && !AmountTooLow() && !IsOfframpActive(ctx.mode)
    }

    /**
     * The recovery effect: with a truthy `success` query parameter and a
     * readable stored summary, marks the transaction successful and shows
     * that summary; otherwise changes nothing.
     */
    method RecoverSuccessEffect(success: Option<string>)
      modifies this`txSuccess, this`txSuccessQuoteSummary
      ensures Truthy(success) && storage.GetTxSuccessSummary().Some? ==>
        txSuccess && txSuccessQuoteSummary == storage.GetTxSuccessSummary()
      ensures !(Truthy(success) && storage.GetTxSuccessSummary().Some?) ==>
        txSuccess == old(txSuccess) && txSuccessQuoteSummary == old(txSuccessQuoteSummary)
    {
      if Truthy(success) {
        var quoteSummary := storage.GetTxSuccessSummary();
        if quoteSummary.Some? {
          txSuccess := true;
          txSuccessQuoteSummary := quoteSummary;
        }
      }
    }

    /**
     * The secure-token effect, given the outcome of the request it makes
     * (None when it fails). With a truthy wallet, network name and currency
     * symbol it asks for a token for that wallet on that one network, passing
     * the partner user id only when truthy, and keeps the token it gets; a
     * failed request leaves the token as it was. Otherwise no request is made.
     */
    method SecureTokenEffect(outcome: Option<string>) returns (request: Option<TokenRequest>)
      modifies ctx`secureToken
      ensures var name := NetworkName(ctx.selectedPurchaseCurrencyNetwork);
        var guard := Truthy(ctx.rampTransaction.wallet) && Truthy(name)
          && ctx.selectedPurchaseCurrency.Some? && ctx.selectedPurchaseCurrency.value.symbol != "";
        && (guard ==> request == Some(TokenRequest(ctx.rampTransaction.wallet.value, [name.value],
              if Truthy(ctx.partnerUserId) then ctx.partnerUserId else None)))
        && (!guard ==> request.None?)
        && ctx.secureToken == (if guard && outcome.Some? then outcome else old(ctx.secureToken))
    {
      var name := NetworkName(ctx.selectedPurchaseCurrencyNetwork);
      if Truthy(ctx.rampTransaction.wallet) && Truthy(name)
        && ctx.selectedPurchaseCurrency.Some? && ctx.selectedPurchaseCurrency.value.symbol != ""
      {
        request := Some(TokenRequest(ctx.rampTransaction.wallet.value, [name.value],
          if Truthy(ctx.partnerUserId) then ctx.partnerUserId else None));
        if outcome.Some? {
          ctx.secureToken := outcome;
        }
      } else {
        request := None;
      }
    }

    /** Whether confirming stores a success summary: amount, wallet and asset symbol are all truthy. */
    predicate SummaryStorable()
      reads ctx
    {
      && Truthy(ctx.rampTransaction.amount) && Truthy(ctx.rampTransaction.wallet)
      && ctx.selectedPurchaseCurrency.Some? && ctx.selectedPurchaseCurrency.value.symbol != ""
    }

    /** The summary confirming would store. */
    function PendingSummary(): TxSuccessSummary
      reads ctx
      requires SummaryStorable()
    {
      TxSuccessSummary(ctx.rampTransaction.wallet.value, ParseNumber(ctx.rampTransaction.amount.value),
        ctx.selectedPurchaseCurrency.value.symbol)
    }

    /**
     * `launchConfirmTransactionFlow`: stores the success summary when it can,
     * then navigates to the checkout link.
     */
    method LaunchConfirmTransactionFlow() returns (navigateTo: string)
      modifies storage`entries
      ensures navigateTo == TransactionLink(Inputs())
      ensures SummaryStorable() ==>
        storage.entries == old(storage.entries)[TxSuccessSummaryKey := EncodeSummary(PendingSummary())]
        && storage.GetTxSuccessSummary() == Some(PendingSummary())
      ensures !SummaryStorable() ==> storage.entries == old(storage.entries)
    {
      if SummaryStorable() {
        storage.SetTxSuccessSummary(PendingSummary());
      }
      navigateTo := TransactionLink(Inputs());
    }

    /**
     * Confirming and coming back with `success=true` shows the summary
     * confirming stored: the address, `Number(amount)` and the asset symbol.
     */
    method ConfirmThenReturn() returns (navigateTo: string)
      requires SummaryStorable()
      modifies storage`entries, this`txSuccess, this`txSuccessQuoteSummary
      ensures navigateTo == TransactionLink(Inputs())
      ensures txSuccess && txSuccessQuoteSummary == Some(PendingSummary())
    {
      ghost var inp := Inputs();
      navigateTo := LaunchConfirmTransactionFlow();
      RecoverSuccessEffect(Some("true"));
      assert Inputs() == inp;
    }
  }
}
