/**
 * The browser's `localStorage` as a map from keys to strings, and the
 * success-summary entry the checkout confirmation writes before leaving the
 * page and the success page reads back after the redirect.
 */
module Storage {
  import opened Wrappers
  import opened Search
  import opened Decimal

  /** The key under which the partner user id persists across sessions. */
  const PartnerUserIdKey: string := "cb_ramp_user_id"

  /** The key of the success-summary entry. */
  const TxSuccessSummaryKey: string := "cb_ramp_tx_success_summary"

  class LocalStorage {
    var entries: map<string, string>

    constructor (initial: map<string, string>)
      ensures entries == initial
    {
      entries := initial;
    }

    /** `localStorage.getItem(key)`: the stored string, None for `null`. */
    function GetItem(key: string): (r: Option<string>)
      reads this
      ensures r.Some? <==> key in entries
      ensures r.Some? ==> r.value == entries[key]
    {
      if key in entries then Some(entries[key]) else None
    }

    /** `localStorage.setItem(key, value)`. */
    method SetItem(key: string, value: string)
      modifies this`entries
      ensures entries == old(entries)[key := value]
    {
      entries := entries[key := value];
    }

    /** Reading the success summary: None when the entry is absent or unreadable. */
    function GetTxSuccessSummary(): (r: Option<TxSuccessSummary>)
      reads this
      ensures TxSuccessSummaryKey !in entries ==> r.None?
    {
      ReadTxSuccessSummary(entries)
    }

    /** Writing the success summary. */
    method SetTxSuccessSummary(summary: TxSuccessSummary)
      modifies this`entries
      ensures entries == old(entries)[TxSuccessSummaryKey := EncodeSummary(summary)]
      ensures GetTxSuccessSummary() == Some(summary)
    {
      entries := entries[TxSuccessSummaryKey := EncodeSummary(summary)];
      StoredSummaryReadsBack(old(entries), summary);
    }
  }

  /** The record shown after a successful purchase: where it went, `Number(amount)`, and the asset's symbol. */
  datatype TxSuccessSummary = TxSuccessSummary(deliveryTargetAddress: string, purchaseAmount: Num, purchaseCurrency: string)

  /** A string as its length, a colon, and its characters. */
  function EncodeField(s: string): string
  {
    NatToString(|s|) + ":" + s
  }

  /** Reads one length-prefixed string, returning it and what follows. */
  function DecodeField(t: string): Option<(string, string)>
  {
    var k := IndexOf(t, ':');
    if k == |t| || !AllDigits(t[..k]) then None
    else
      var n := DigitsValue(t[..k]);
      if k + 1 + n > |t| then None else Some((t[k + 1..k + 1 + n], t[k + 1 + n..]))
  }

  /** A number as `N`, or as its sign, the magnitude of its mantissa, a colon and its scale. */
  function EncodeNum(x: Num): string
  {
    match x
    case NaN => "N"
    case Dec(m, s) => (if m < 0 then "-" else "+") + NatToString(Abs(m)) + ":" + NatToString(s)
  }

  function DecodeNum(t: string): Option<Num>
  {
    if t == "N" then Some(NaN)
    else if |t| > 0 && (t[0] == '+' || t[0] == '-') then
      var body := t[1..];
      var k := IndexOf(body, ':');
      if k == |body| || !AllDigits(body[..k]) || !AllDigits(body[k + 1..]) then None
      else
        var magnitude: int := DigitsValue(body[..k]);
        Some(Dec(if t[0] == '-' then -magnitude else magnitude, DigitsValue(body[k + 1..])))
    else None
  }

  /** The text stored for a success summary. */
  function EncodeSummary(r: TxSuccessSummary): string
  {
    EncodeField(r.deliveryTargetAddress) + EncodeField(r.purchaseCurrency) + EncodeNum(r.purchaseAmount)
  }

  function DecodeSummary(t: string): Option<TxSuccessSummary>
  {
    match DecodeField(t)
    case None => None
    case Some((address, rest)) =>
      match DecodeField(rest)
      case None => None
      case Some((currency, rest')) =>
        match DecodeNum(rest')
        case None => None
        case Some(amount) => Some(TxSuccessSummary(address, amount, currency))
  }

  /** The success summary held by a storage state, if there is a readable one. */
  function ReadTxSuccessSummary(entries: map<string, string>): Option<TxSuccessSummary>
  {
    if TxSuccessSummaryKey in entries then DecodeSummary(entries[TxSuccessSummaryKey]) else None
  }

  lemma NoColonInDigits(w: string)
    requires AllDigits(w)
    ensures ':' !in w
  {
    assert forall i :: 0 <= i < |w| ==> IsDigit(w[i]);
  }

  lemma {:induction false} FieldRoundTrip(s: string, rest: string)
    ensures DecodeField(EncodeField(s) + rest) == Some((s, rest))
  {
    var w := NatToString(|s|);
    var t := EncodeField(s) + rest;
    assert t == w + [':'] + (s + rest);
    NoColonInDigits(w);
    IndexOfAfter(w, ':', s + rest);
    assert t[..|w|] == w;
    NatToStringRoundTrip(|s|);
    assert t[|w| + 1..|w| + 1 + |s|] == s;
    assert t[|w| + 1 + |s|..] == rest;
  }

  lemma {:induction false} NumRoundTrip(x: Num)
    ensures DecodeNum(EncodeNum(x)) == Some(x)
  {
    if x.Dec? {
      var t := EncodeNum(x);
      var w := NatToString(Abs(x.mant));
      var v := NatToString(x.scale);
      assert t[1..] == w + [':'] + v;
      NoColonInDigits(w);
      IndexOfAfter(w, ':', v);
      assert t[1..][..|w|] == w;
      assert t[1..][|w| + 1..] == v;
      NatToStringRoundTrip(Abs(x.mant));
      NatToStringRoundTrip(x.scale);
      assert t != "N" by {
        assert t[0] == '-' || t[0] == '+';
      }
    }
  }

  /** A success summary reads back exactly as it was written. */
  lemma {:induction false} SummaryRoundTrip(r: TxSuccessSummary)
    ensures DecodeSummary(EncodeSummary(r)) == Some(r)
  {
    var a := EncodeField(r.deliveryTargetAddress);
    var c := EncodeField(r.purchaseCurrency);
    var n := EncodeNum(r.purchaseAmount);
    assert EncodeSummary(r) == a + (c + n);
    FieldRoundTrip(r.deliveryTargetAddress, c + n);
    FieldRoundTrip(r.purchaseCurrency, n);
    NumRoundTrip(r.purchaseAmount);
  }

  /** After writing a summary, reading the entry yields that summary, whatever was stored before. */
  lemma StoredSummaryReadsBack(entries: map<string, string>, r: TxSuccessSummary)
    ensures ReadTxSuccessSummary(entries[TxSuccessSummaryKey := EncodeSummary(r)]) == Some(r)
  {
    SummaryRoundTrip(r);
  }

  /** Writing the partner id does not disturb the success summary. */
  lemma PartnerIdKeepsSummary(entries: map<string, string>, id: string)
    ensures ReadTxSuccessSummary(entries[PartnerUserIdKey := id]) == ReadTxSuccessSummary(entries)
  {
    assert PartnerUserIdKey != TxSuccessSummaryKey;
  }
}
