/**
 * The records the coordinator stores: the onramp configuration and option
 * sets returned by the payment SDK, the quotes, and the `RampTransaction`
 * the user is building, with the partial-update merge its setter performs.
 * Only the fields the coordinator reads are kept.
 */
module RampTypes {
  import opened Wrappers

  /** A country of the onramp configuration. */
  datatype Country = Country(id: string, subdivisions: seq<string>, paymentMethods: seq<string>)

  datatype BuyConfig = BuyConfig(countries: seq<Country>)

  datatype PurchaseNetwork = PurchaseNetwork(name: string, chainId: string)

  datatype PurchaseCurrency = PurchaseCurrency(id: string, name: string, symbol: string, networks: seq<PurchaseNetwork>)

  /** A payment method of a fiat currency with its minimum and maximum amounts, as decimal strings. */
  datatype PaymentLimit = PaymentLimit(id: string, min: string, max: string)

  /** A fiat currency to pay with (onramp) or to cash out to (offramp). */
  datatype PaymentCurrency = PaymentCurrency(id: string, limits: seq<PaymentLimit>)

  datatype BuyOptions = BuyOptions(paymentCurrencies: seq<PaymentCurrency>, purchaseCurrencies: seq<PurchaseCurrency>)

  datatype SellNetwork = SellNetwork(name: string, chainId: string)

  datatype SellCurrency = SellCurrency(id: string, name: string, symbol: string, networks: seq<SellNetwork>)

  datatype SellOptions = SellOptions(cashoutCurrencies: seq<PaymentCurrency>, sellCurrencies: seq<SellCurrency>)

  datatype BuyQuote = BuyQuote(quoteId: Option<string>)

  datatype SellQuote = SellQuote(quoteId: Option<string>)

  /**
   * What the purchase-network slot can hold: a purchase network, or — through
   * the offramp default's fallback — a sell-currency record.
   */
  datatype NetworkSlot = Network(network: PurchaseNetwork) | CurrencyRecord(currency: SellCurrency)
  {
    /** The slot's `name`: the network's name, or the currency record's own name. */
    function Name(): string
    {
      match this
      case Network(n) => n.name
      case CurrencyRecord(c) => c.name
    }
  }

  /** The transaction being built; every field may be missing. */
  datatype RampTransaction = RampTransaction(
    amount: Option<string>,
    wallet: Option<string>,
    currency: Option<string>,
    paymentMethod: Option<string>,
    country: Option<Country>)

  /** The transaction the coordinator starts with: `{ amount: '0' }`. */
  const InitialRampTransaction := RampTransaction(Some("0"), None, None, None, None)

  /** One key of a `Partial<RampTransaction>`: absent, or present with a value that may itself be undefined. */
  datatype Field<T> = Absent | Present(value: Option<T>)

  datatype RampTransactionUpdate = RampTransactionUpdate(
    amount: Field<string>,
    wallet: Field<string>,
    currency: Field<string>,
    paymentMethod: Field<string>,
    country: Field<Country>)

  const NoChange := RampTransactionUpdate(Absent, Absent, Absent, Absent, Absent)

  function Override<T>(prior: Option<T>, f: Field<T>): Option<T>
  {
    match f
    case Absent => prior
    case Present(v) => v
  }

  /** `{ ...t, ...u }`: the keys present in the update replace the transaction's, all others are kept. */
  function Merge(t: RampTransaction, u: RampTransactionUpdate): (r: RampTransaction)
    ensures r.amount == (if u.amount.Present? then u.amount.value else t.amount)
    ensures r.wallet == (if u.wallet.Present? then u.wallet.value else t.wallet)
    ensures r.currency == (if u.currency.Present? then u.currency.value else t.currency)
    ensures r.paymentMethod == (if u.paymentMethod.Present? then u.paymentMethod.value else t.paymentMethod)
    ensures r.country == (if u.country.Present? then u.country.value else t.country)
  {
    RampTransaction(
      Override(t.amount, u.amount),
      Override(t.wallet, u.wallet),
      Override(t.currency, u.currency),
      Override(t.paymentMethod, u.paymentMethod),
      Override(t.country, u.country))
  }

  /** The later of two updates wins on every key both name. */
  function Then(u1: RampTransactionUpdate, u2: RampTransactionUpdate): RampTransactionUpdate
  {
    RampTransactionUpdate(
      if u2.amount.Present? then u2.amount else u1.amount,
      if u2.wallet.Present? then u2.wallet else u1.wallet,
      if u2.currency.Present? then u2.currency else u1.currency,
      if u2.paymentMethod.Present? then u2.paymentMethod else u1.paymentMethod,
      if u2.country.Present? then u2.country else u1.country)
  }

  /** Two merges in a row are one merge of the combined update; merging the empty update or the same update twice changes nothing more. */
  lemma MergeLaws(t: RampTransaction, u1: RampTransactionUpdate, u2: RampTransactionUpdate)
    ensures Merge(Merge(t, u1), u2) == Merge(t, Then(u1, u2))
    ensures Merge(t, NoChange) == t
    ensures Merge(Merge(t, u1), u1) == Merge(t, u1)
  {
  }
}
