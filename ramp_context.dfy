/**
 * The ramp transaction coordinator: the selection state the provider holds,
 * its two merging setters, and the effects that fill in default selections
 * once the option sets arrive. Each effect is a method invoked explicitly;
 * it reads the state as it was when the effect started (`snapshot`), and
 * its writes are applied in order, the last write to a field winning.
 */
module CoinbaseRampTransactionContext {
  import opened Wrappers
  import opened Search
  import opened RampTypes

  /** `mode === 'onramp'`. */
  predicate IsOnrampActive(mode: string)
  {
    mode == "onramp"
  }

  /** `mode === 'offramp'`. */
  predicate IsOfframpActive(mode: string)
  {
    mode == "offramp"
  }

  /** The two modes are never active together, and any other mode string activates neither. */
  lemma ModesExclusive(mode: string)
    ensures !(IsOnrampActive(mode) && IsOfframpActive(mode))
    ensures mode != "onramp" && mode != "offramp" ==> !IsOnrampActive(mode) && !IsOfframpActive(mode)
  {
  }

  /**
   * The countries of the loaded configuration, in order, each with its id,
   * subdivisions and payment methods; none before the configuration arrives.
   */
  function Countries(buyConfig: Option<BuyConfig>): (r: seq<Country>)
    ensures buyConfig.None? ==> r == []
    ensures buyConfig.Some? ==> |r| == |buyConfig.value.countries|
    ensures buyConfig.Some? ==> forall i :: 0 <= i < |r| ==>
      r[i].id == buyConfig.value.countries[i].id
      && r[i].subdivisions == buyConfig.value.countries[i].subdivisions
      && r[i].paymentMethods == buyConfig.value.countries[i].paymentMethods
  {
    if buyConfig.Some? then buyConfig.value.countries else []
  }

  predicate IsUnitedStates(c: Country)
  {
    c.id == "US"
  }

  predicate IsUsdcPurchase(c: PurchaseCurrency)
  {
    AsciiUpper(c.symbol) == "USDC"
  }

  predicate IsUsdcSell(c: SellCurrency)
  {
    AsciiUpper(c.symbol) == "USDC"
  }

  /** Chain 8453 (Base), the preferred network. */
  predicate IsBasePurchaseNetwork(n: PurchaseNetwork)
  {
    n.chainId == "8453"
  }

  predicate IsBaseSellNetwork(n: SellNetwork)
  {
    n.chainId == "8453"
  }

  predicate IsUsd(c: PaymentCurrency)
  {
    AsciiUpper(c.id) == "USD"
  }

  /** The payment currencies of the buy options, none before they arrive. */
  function PaymentCurrencies(buyOptions: Option<BuyOptions>): seq<PaymentCurrency>
  {
    if buyOptions.Some? then buyOptions.value.paymentCurrencies else []
  }

  /** The cash-out currencies of the sell options, none before they arrive. */
  function CashoutCurrencies(sellOptions: Option<SellOptions>): seq<PaymentCurrency>
  {
    if sellOptions.Some? then sellOptions.value.cashoutCurrencies else []
  }

  /** The default purchase currency: the first whose symbol is USDC in any case, else the first one. */
  function DefaultPurchaseCurrency(currencies: seq<PurchaseCurrency>): Option<PurchaseCurrency>
  {
    PreferredOrFirst(currencies, IsUsdcPurchase)
  }

  /**
   * The default network of a purchase currency: its first network on chain
   * 8453, else its first network; undefined when it lists none.
   */
  function DefaultPurchaseNetwork(c: PurchaseCurrency): (r: Option<NetworkSlot>)
    ensures r.None? <==> c.networks == []
    ensures r.Some? ==> r.value.Network? && r.value.network in c.networks
    ensures forall k: nat :: FirstMatch(c.networks, IsBasePurchaseNetwork, k) ==> r == Some(Network(c.networks[k]))
    ensures (forall j :: 0 <= j < |c.networks| ==> !IsBasePurchaseNetwork(c.networks[j])) && c.networks != [] ==>
      r == Some(Network(c.networks[0]))
  {
    match PreferredOrFirst(c.networks, IsBasePurchaseNetwork)
    case None => None
    case Some(n) => Some(Network(n))
  }

  /** The default fiat currency: the first whose id is USD in any case, else the first one. */
  function DefaultPaymentCurrency(currencies: seq<PaymentCurrency>): Option<PaymentCurrency>
  {
    PreferredOrFirst(currencies, IsUsd)
  }

  /** The default sell currency: the first whose symbol is USDC in any case, else the first one. */
  function DefaultSellCurrency(currencies: seq<SellCurrency>): Option<SellCurrency>
  {
    PreferredOrFirst(currencies, IsUsdcSell)
  }

  /**
   * The default fiat currency, if there is one, lists a payment method:
   * the payment defaults read `limits[0]` of it, which would throw otherwise.
   */
  predicate DefaultHasMethod(currencies: seq<PaymentCurrency>)
  {
    DefaultPaymentCurrency(currencies).Some? ==> |DefaultPaymentCurrency(currencies).value.limits| > 0
  }

  predicate HasId(id: string, l: PaymentLimit)
  {
    l.id == id
  }

  /**
   * `selectedPaymentMethodLimit`: the first limit of the selected fiat
   * currency whose id is the selected payment method's id; undefined when
   * either selection is missing or no limit has that id.
   */
  function SelectedPaymentMethodLimit(currency: Option<PaymentCurrency>, paymentMethod: Option<PaymentLimit>): (r: Option<PaymentLimit>)
    ensures r.Some? ==> currency.Some? && paymentMethod.Some? && r.value in currency.value.limits && r.value.id == paymentMethod.value.id
    ensures currency.Some? && paymentMethod.Some? ==>
      (r.None? <==> forall j :: 0 <= j < |currency.value.limits| ==> currency.value.limits[j].id != paymentMethod.value.id)
    ensures currency.Some? && paymentMethod.Some? ==>
      forall k: nat :: FirstMatch(currency.value.limits, l => HasId(paymentMethod.value.id, l), k) ==> r == Some(currency.value.limits[k])
  {
    if currency.None? || paymentMethod.None? then None
    else Find(currency.value.limits, l => HasId(paymentMethod.value.id, l))
  }

  /** The state of the coordinator's provider. */
  class Provider {
    var mode: string
    var rampTransaction: RampTransaction
    var selectedCountry: Option<Country>
    var buyConfig: Option<BuyConfig>
    var selectedSubdivision: Option<string>
    var selectedPurchaseCurrencyNetwork: Option<NetworkSlot>
    var selectedPurchaseCurrency: Option<PurchaseCurrency>
    var selectedSellCurrencyNetwork: Option<SellNetwork>
    var selectedSellCurrency: Option<SellCurrency>
    var buyOptions: Option<BuyOptions>
    var sellOptions: Option<SellOptions>
    var selectedPaymentMethod: Option<PaymentLimit>
    var secureToken: Option<string>
    var buyQuote: Option<BuyQuote>
    var sellQuote: Option<SellQuote>
    var loadingBuyOptions: bool
    var loadingSellOptions: bool
    var selectedCurrency: Option<PaymentCurrency>
    var authenticated: bool
    var partnerUserId: Option<string>
    var signingIn: bool
    var loadingBuyConfig: bool

    /** The provider's initial state: onramp mode, amount "0", nothing selected or loaded. */
    constructor ()
      ensures mode == "onramp" && rampTransaction == InitialRampTransaction
      ensures selectedCountry.None? && buyConfig.None? && selectedSubdivision.None?
      ensures selectedPurchaseCurrencyNetwork.None? && selectedPurchaseCurrency.None?
      ensures selectedSellCurrencyNetwork.None? && selectedSellCurrency.None?
      ensures buyOptions.None? && sellOptions.None? && selectedPaymentMethod.None?
      ensures secureToken.None? && buyQuote.None? && sellQuote.None? && selectedCurrency.None?
      ensures partnerUserId.None?
      ensures !loadingBuyOptions && !loadingSellOptions && !authenticated && !signingIn && !loadingBuyConfig
    {
      mode := "onramp";
      rampTransaction := InitialRampTransaction;
      selectedCountry := None;
      buyConfig := None;
      selectedSubdivision := None;
      selectedPurchaseCurrencyNetwork := None;
      selectedPurchaseCurrency := None;
      selectedSellCurrencyNetwork := None;
      selectedSellCurrency := None;
      buyOptions := None;
      sellOptions := None;
      selectedPaymentMethod := None;
      secureToken := None;
      buyQuote := None;
      sellQuote := None;
      loadingBuyOptions := false;
      loadingSellOptions := false;
      selectedCurrency := None;
      authenticated := false;
      partnerUserId := None;
      signingIn := false;
      loadingBuyConfig := false;
    }

    /**
     * The selected fiat currency and payment method agree with each other and
     * with the transaction: the method is one of the currency's limits, the
     * transaction names both, and the limit lookup finds that method.
     */
    predicate PaymentSelectionConsistent()
      reads this
    {
      && selectedCurrency.Some? && selectedPaymentMethod.Some?
      && selectedPaymentMethod.value in selectedCurrency.value.limits
      && rampTransaction.currency == Some(selectedCurrency.value.id)
      && rampTransaction.paymentMethod == Some(selectedPaymentMethod.value.id)
      && SelectedPaymentMethodLimit(selectedCurrency, selectedPaymentMethod) == selectedPaymentMethod
    }

    /** The selected purchase network is one of the selected purchase currency's networks. */
    predicate PurchaseNetworkConsistent()
      reads this
    {
      && selectedPurchaseCurrency.Some?
      && (selectedPurchaseCurrency.value.networks == [] ==> selectedPurchaseCurrencyNetwork.None?)
      && (selectedPurchaseCurrency.value.networks != [] ==>
            selectedPurchaseCurrencyNetwork.Some? && selectedPurchaseCurrencyNetwork.value.Network?
            && selectedPurchaseCurrencyNetwork.value.network in selectedPurchaseCurrency.value.networks)
    }

    /** `setRampTransaction` as exposed to the view: merges the partial update into the transaction. */
    method SetRampTransaction(update: RampTransactionUpdate)
      modifies this`rampTransaction
      ensures rampTransaction == Merge(old(rampTransaction), update)
    {
      rampTransaction := Merge(rampTransaction, update);
    }

    /**
     * `setSelectedCountry` as exposed to the view: selects the country and
     * records it in the transaction; the subdivision is left as it was.
     */
    method SetSelectedCountry(country: Country)
      modifies this`selectedCountry, this`rampTransaction
      ensures selectedCountry == Some(country)
      ensures rampTransaction == old(rampTransaction).(country := Some(country))
    {
      selectedCountry := Some(country);
      rampTransaction := rampTransaction.(country := Some(country));
    }

    /** `setMode`. */
    method SetMode(newMode: string)
      modifies this`mode
      ensures mode == newMode
    {
      mode := newMode;
    }

    /**
     * `setDefaultPaymentCurrencyInOnrampMode`, run with the transaction its
     * caller saw: selects the default fiat currency of the buy options and its
     * first payment method, and writes both into that transaction. Nothing
     * changes when there is no fiat currency to pick.
     */
    method SetDefaultPaymentCurrencyInOnrampMode(snapshot: RampTransaction)
      requires DefaultHasMethod(PaymentCurrencies(buyOptions))
      modifies this`rampTransaction, this`selectedCurrency, this`selectedPaymentMethod
      ensures var d := DefaultPaymentCurrency(PaymentCurrencies(buyOptions));
        if d.None? then
          rampTransaction == old(rampTransaction) && selectedCurrency == old(selectedCurrency)
          && selectedPaymentMethod == old(selectedPaymentMethod)
        else
          && rampTransaction == snapshot.(currency := Some(d.value.id), paymentMethod := Some(d.value.limits[0].id))
          && selectedCurrency == d && selectedPaymentMethod == Some(d.value.limits[0])
          && PaymentSelectionConsistent()
    {
      var d := DefaultPaymentCurrency(PaymentCurrencies(buyOptions));
      if d.Some? {
        rampTransaction := snapshot.(currency := Some(d.value.id), paymentMethod := Some(d.value.limits[0].id));
        selectedCurrency := d;
        selectedPaymentMethod := Some(d.value.limits[0]);
        assert FirstMatch(d.value.limits, l => HasId(d.value.limits[0].id, l), 0);
      }
    }

    /**
     * The onramp payment effect: in onramp mode, (re)applies the payment
     * default. It is not guarded by "not yet selected", so every run resets
     * the fiat currency and payment method to the default.
     */
    method OnrampPaymentEffect()
      requires IsOnrampActive(mode) ==> DefaultHasMethod(PaymentCurrencies(buyOptions))
      modifies this`rampTransaction, this`selectedCurrency, this`selectedPaymentMethod
      ensures var d := DefaultPaymentCurrency(PaymentCurrencies(buyOptions));
        if !IsOnrampActive(mode) || d.None? then
          rampTransaction == old(rampTransaction) && selectedCurrency == old(selectedCurrency)
          && selectedPaymentMethod == old(selectedPaymentMethod)
        else
          && rampTransaction == old(rampTransaction).(currency := Some(d.value.id), paymentMethod := Some(d.value.limits[0].id))
          && selectedCurrency == d && selectedPaymentMethod == Some(d.value.limits[0])
          && PaymentSelectionConsistent()
    {
      if IsOnrampActive(mode) {
        SetDefaultPaymentCurrencyInOnrampMode(rampTransaction);
      }
    }

    /**
     * The sell half of the offramp effect: with no sell currency selected and
     * sell options loaded, USDC (else the first sell currency) is selected;
     * its first network on chain 8453 goes to the sell-network slot, and
     * without one the currency itself goes to the purchase-network slot.
     */
    method SelectDefaultSellCurrency()
      modifies this`selectedSellCurrency, this`selectedSellCurrencyNetwork, this`selectedPurchaseCurrencyNetwork
      ensures old(selectedSellCurrency).None? && sellOptions.Some? ==>
        var d := DefaultSellCurrency(sellOptions.value.sellCurrencies);
        && selectedSellCurrency == d
        && (d.None? ==>
              selectedSellCurrencyNetwork == old(selectedSellCurrencyNetwork)
              && selectedPurchaseCurrencyNetwork == old(selectedPurchaseCurrencyNetwork))
        && (d.Some? && Find(d.value.networks, IsBaseSellNetwork).Some? ==>
              selectedSellCurrencyNetwork == Find(d.value.networks, IsBaseSellNetwork)
              && selectedPurchaseCurrencyNetwork == old(selectedPurchaseCurrencyNetwork))
        && (d.Some? && Find(d.value.networks, IsBaseSellNetwork).None? ==>
              selectedSellCurrencyNetwork == old(selectedSellCurrencyNetwork)
              && selectedPurchaseCurrencyNetwork == Some(CurrencyRecord(d.value)))
      ensures old(selectedSellCurrency).Some? || sellOptions.None? ==>
        && selectedSellCurrency == old(selectedSellCurrency)
        && selectedSellCurrencyNetwork == old(selectedSellCurrencyNetwork)
        && selectedPurchaseCurrencyNetwork == old(selectedPurchaseCurrencyNetwork)
    {
      if selectedSellCurrency.None? && sellOptions.Some? {
        var d := DefaultSellCurrency(sellOptions.value.sellCurrencies);
        selectedSellCurrency := d;
        if d.Some? {
          var n := Find(d.value.networks, IsBaseSellNetwork);
          if n.Some? {
            selectedSellCurrencyNetwork := n;
          } else {
            selectedPurchaseCurrencyNetwork := Some(CurrencyRecord(d.value));
          }
        }
      }
    }

    /**
     * The cash-out half of the offramp effect: USD, else the first cash-out
     * currency, is selected with its first payment method, and both ids are
     * written into the effect's transaction.
     */
    method SetDefaultCashoutCurrency(snapshot: RampTransaction)
      requires DefaultHasMethod(CashoutCurrencies(sellOptions))
      modifies this`rampTransaction, this`selectedCurrency, this`selectedPaymentMethod
      ensures var c := DefaultPaymentCurrency(CashoutCurrencies(sellOptions));
        if c.None? then
          rampTransaction == old(rampTransaction) && selectedCurrency == old(selectedCurrency)
          && selectedPaymentMethod == old(selectedPaymentMethod)
        else
          && rampTransaction == snapshot.(currency := Some(c.value.id), paymentMethod := Some(c.value.limits[0].id))
          && selectedCurrency == c && selectedPaymentMethod == Some(c.value.limits[0])
          && PaymentSelectionConsistent()
    {
      var c := DefaultPaymentCurrency(CashoutCurrencies(sellOptions));
      if c.Some? {
        rampTransaction := snapshot.(currency := Some(c.value.id), paymentMethod := Some(c.value.limits[0].id));
        selectedCurrency := c;
        selectedPaymentMethod := Some(c.value.limits[0]);
        assert FirstMatch(c.value.limits, l => HasId(c.value.limits[0].id, l), 0);
      }
    }

    /**
     * The offramp defaults effect. In offramp mode: when no sell currency is
     * selected and the sell options are loaded, selects the default sell
     * currency and, if it has a chain-8453 network, that network; if it has
     * none, the currency record itself goes into the PURCHASE-network slot.
     * Then, unguarded, selects the default cash-out currency and its first
     * method and writes both into the transaction.
     */
    method OfframpDefaultsEffect()
      requires IsOfframpActive(mode) ==> DefaultHasMethod(CashoutCurrencies(sellOptions))
      modifies this`selectedSellCurrency, this`selectedSellCurrencyNetwork, this`selectedPurchaseCurrencyNetwork
      modifies this`rampTransaction, this`selectedCurrency, this`selectedPaymentMethod
      ensures !IsOfframpActive(mode) ==>
        && selectedSellCurrency == old(selectedSellCurrency)
        && selectedSellCurrencyNetwork == old(selectedSellCurrencyNetwork)
        && selectedPurchaseCurrencyNetwork == old(selectedPurchaseCurrencyNetwork)
        && rampTransaction == old(rampTransaction) && selectedCurrency == old(selectedCurrency)
        && selectedPaymentMethod == old(selectedPaymentMethod)
      ensures IsOfframpActive(mode) && old(selectedSellCurrency).None? && sellOptions.Some? ==>
        var d := DefaultSellCurrency(sellOptions.value.sellCurrencies);
        && selectedSellCurrency == d
        && (d.None? ==>
              selectedSellCurrencyNetwork == old(selectedSellCurrencyNetwork)
              && selectedPurchaseCurrencyNetwork == old(selectedPurchaseCurrencyNetwork))
        && (d.Some? && Find(d.value.networks, IsBaseSellNetwork).Some? ==>
              selectedSellCurrencyNetwork == Find(d.value.networks, IsBaseSellNetwork)
              && selectedPurchaseCurrencyNetwork == old(selectedPurchaseCurrencyNetwork))
        && (d.Some? && Find(d.value.networks, IsBaseSellNetwork).None? ==>
              selectedSellCurrencyNetwork == old(selectedSellCurrencyNetwork)
              && selectedPurchaseCurrencyNetwork == Some(CurrencyRecord(d.value)))
      ensures IsOfframpActive(mode) && (old(selectedSellCurrency).Some? || sellOptions.None?) ==>
        && selectedSellCurrency == old(selectedSellCurrency)
        && selectedSellCurrencyNetwork == old(selectedSellCurrencyNetwork)
        && selectedPurchaseCurrencyNetwork == old(selectedPurchaseCurrencyNetwork)
      ensures IsOfframpActive(mode) ==>
        var c := DefaultPaymentCurrency(CashoutCurrencies(sellOptions));
        if c.None? then
          rampTransaction == old(rampTransaction) && selectedCurrency == old(selectedCurrency)
          && selectedPaymentMethod == old(selectedPaymentMethod)
        else
          && rampTransaction == old(rampTransaction).(currency := Some(c.value.id), paymentMethod := Some(c.value.limits[0].id))
          && selectedCurrency == c && selectedPaymentMethod == Some(c.value.limits[0])
          && PaymentSelectionConsistent()
    {
      if IsOfframpActive(mode) {
        var snapshot := rampTransaction;
        SelectDefaultSellCurrency();
        SetDefaultCashoutCurrency(snapshot);
      }
    }

    /**
     * The country half of the defaults effect. When no country is selected
     * and the configuration lists some: a country with id US is selected and
     * recorded in the transaction, with subdivision CA if it lists it;
     * otherwise the first country is selected with its first subdivision, if
     * any, and the transaction is left alone.
     */
    method SelectDefaultCountry(snapshot: RampTransaction)
      modifies this`selectedCountry, this`selectedSubdivision, this`rampTransaction
      ensures var countries := Countries(buyConfig);
        if old(selectedCountry).Some? || countries == [] then
          selectedCountry == old(selectedCountry) && selectedSubdivision == old(selectedSubdivision)
          && rampTransaction == old(rampTransaction)
        else if Find(countries, IsUnitedStates).Some? then
          var us := Find(countries, IsUnitedStates).value;
          && selectedCountry == Some(us)
          && rampTransaction == snapshot.(country := Some(us))
          && selectedSubdivision == (if "CA" in us.subdivisions then Some("CA") else old(selectedSubdivision))
        else
          && selectedCountry == Some(countries[0])
          && rampTransaction == old(rampTransaction)
          && selectedSubdivision ==
               (if countries[0].subdivisions != [] then Some(countries[0].subdivisions[0]) else old(selectedSubdivision))
    {
      var countries := Countries(buyConfig);
      if selectedCountry.None? && |countries| > 0 {
        var us := Find(countries, IsUnitedStates);
        if us.Some? {
          selectedCountry := us;
          rampTransaction := snapshot.(country := us);
          var ca := Find(us.value.subdivisions, s => s == "CA");
          if ca.Some? {
            selectedSubdivision := ca;
          }
        } else {
          selectedCountry := Some(countries[0]);
          if |countries[0].subdivisions| > 0 {
            selectedSubdivision := Some(countries[0].subdivisions[0]);
          }
        }
      }
    }

    /**
     * The purchase half of the defaults effect. When no purchase currency is
     * selected and the buy options are loaded: selects the default purchase
     * currency and its default network, and, if the transaction the effect
     * started from names no fiat currency, applies the payment default to that
     * same transaction.
     */
    method SelectDefaultPurchaseCurrency(snapshot: RampTransaction)
      requires selectedPurchaseCurrency.None? && buyOptions.Some? && !Truthy(snapshot.currency) ==>
        DefaultHasMethod(PaymentCurrencies(buyOptions))
      modifies this`selectedPurchaseCurrency, this`selectedPurchaseCurrencyNetwork
      modifies this`rampTransaction, this`selectedCurrency, this`selectedPaymentMethod
      ensures old(selectedPurchaseCurrency).Some? || buyOptions.None? ==>
        && selectedPurchaseCurrency == old(selectedPurchaseCurrency)
        && selectedPurchaseCurrencyNetwork == old(selectedPurchaseCurrencyNetwork)
        && rampTransaction == old(rampTransaction) && selectedCurrency == old(selectedCurrency)
        && selectedPaymentMethod == old(selectedPaymentMethod)
      ensures old(selectedPurchaseCurrency).None? && buyOptions.Some? ==>
        var d := DefaultPurchaseCurrency(buyOptions.value.purchaseCurrencies);
        && selectedPurchaseCurrency == d
        && (d.None? ==> selectedPurchaseCurrencyNetwork == old(selectedPurchaseCurrencyNetwork))
        && (d.Some? ==> selectedPurchaseCurrencyNetwork == DefaultPurchaseNetwork(d.value) && PurchaseNetworkConsistent())
        && var p := DefaultPaymentCurrency(PaymentCurrencies(buyOptions));
           if Truthy(snapshot.currency) || p.None? then
             rampTransaction == old(rampTransaction) && selectedCurrency == old(selectedCurrency)
             && selectedPaymentMethod == old(selectedPaymentMethod)
           else
             && rampTransaction == snapshot.(currency := Some(p.value.id), paymentMethod := Some(p.value.limits[0].id))
             && selectedCurrency == p && selectedPaymentMethod == Some(p.value.limits[0])
             && PaymentSelectionConsistent()
    {
      if selectedPurchaseCurrency.None? && buyOptions.Some? {
        var d := DefaultPurchaseCurrency(buyOptions.value.purchaseCurrencies);
        selectedPurchaseCurrency := d;
        if d.Some? {
          selectedPurchaseCurrencyNetwork := DefaultPurchaseNetwork(d.value);
        }
        if !Truthy(snapshot.currency) {
          SetDefaultPaymentCurrencyInOnrampMode(snapshot);
        }
      }
    }

    /**
     * The defaults effect: the country half, then the purchase half, both
     * from the transaction as it was when the effect started. When both write
     * the transaction, the payment default's write is the later one and it
     * does not carry the default country.
     */
    method SelectionDefaultsEffect()
      requires selectedPurchaseCurrency.None? && buyOptions.Some? && !Truthy(rampTransaction.currency) ==>
        DefaultHasMethod(PaymentCurrencies(buyOptions))
      modifies this`selectedCountry, this`selectedSubdivision, this`rampTransaction
      modifies this`selectedPurchaseCurrency, this`selectedPurchaseCurrencyNetwork
      modifies this`selectedCurrency, this`selectedPaymentMethod
      ensures var countries := Countries(buyConfig);
        if old(selectedCountry).Some? || countries == [] then
          selectedCountry == old(selectedCountry) && selectedSubdivision == old(selectedSubdivision)
        else if Find(countries, IsUnitedStates).Some? then
          var us := Find(countries, IsUnitedStates).value;
          && selectedCountry == Some(us)
          && selectedSubdivision == (if "CA" in us.subdivisions then Some("CA") else old(selectedSubdivision))
        else
          && selectedCountry == Some(countries[0])
          && selectedSubdivision ==
               (if countries[0].subdivisions != [] then Some(countries[0].subdivisions[0]) else old(selectedSubdivision))
      ensures old(selectedPurchaseCurrency).Some? || buyOptions.None? ==>
        && selectedPurchaseCurrency == old(selectedPurchaseCurrency)
        && selectedPurchaseCurrencyNetwork == old(selectedPurchaseCurrencyNetwork)
      ensures old(selectedPurchaseCurrency).None? && buyOptions.Some? ==>
        var d := DefaultPurchaseCurrency(buyOptions.value.purchaseCurrencies);
        && selectedPurchaseCurrency == d
        && (d.None? ==> selectedPurchaseCurrencyNetwork == old(selectedPurchaseCurrencyNetwork))
        && (d.Some? ==> selectedPurchaseCurrencyNetwork == DefaultPurchaseNetwork(d.value) && PurchaseNetworkConsistent())
      ensures var usDefault := old(selectedCountry).None? && Find(Countries(buyConfig), IsUnitedStates).Some?;
        var p := DefaultPaymentCurrency(PaymentCurrencies(buyOptions));
        if old(selectedPurchaseCurrency).None? && buyOptions.Some? && !Truthy(old(rampTransaction).currency) && p.Some? then
          && rampTransaction == old(rampTransaction).(currency := Some(p.value.id), paymentMethod := Some(p.value.limits[0].id))
          && selectedCurrency == p && selectedPaymentMethod == Some(p.value.limits[0])
          && PaymentSelectionConsistent()
        else
          && rampTransaction == (if usDefault then old(rampTransaction).(country := Find(Countries(buyConfig), IsUnitedStates))
                                 else old(rampTransaction))
          && selectedCurrency == old(selectedCurrency) && selectedPaymentMethod == old(selectedPaymentMethod)
    {
      var snapshot := rampTransaction;
      SelectDefaultCountry(snapshot);
      SelectDefaultPurchaseCurrency(snapshot);
    }
  }
}
