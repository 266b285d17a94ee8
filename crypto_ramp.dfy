/**
 * The ramp page's session bootstrapping: the two-step flow driven by sign-in,
 * the partner user id resolved against the browser's storage, the guarded
 * fetches of the configuration and the buy and sell options with their
 * loading flags, and the tab that sets the mode.
 */
module CryptoRamp {
  import opened Wrappers
  import opened RampTypes
  import opened Storage
  import opened CoinbaseRampTransactionContext

  /** The step effect's rule: signed in moves step 1 to 2, signed out moves step 2 back to 1. */
  function NextStep(authenticated: bool, step: int): (r: int)
    ensures authenticated && step < 2 ==> r == 2
    ensures !authenticated && step > 1 ==> r == 1
    ensures (authenticated && step >= 2) || (!authenticated && step <= 1) ==> r == step
    ensures step == 1 || step == 2 ==> (r == 2 <==> authenticated)
  {
    if authenticated && step < 2 then 2
    else if !authenticated && step > 1 then 1
    else step
  }

  /** A second application of the step rule changes nothing. */
  lemma NextStepSettles(authenticated: bool, step: int)
    ensures NextStep(authenticated, NextStep(authenticated, step)) == NextStep(authenticated, step)
  {
  }

  /** The outcome of a request to the onramp service: its response, or a failure. */
  datatype Fetch<T> = Fetched(value: T) | FetchFailed

  /** The arguments of an options request. */
  datatype OptionsRequest = OptionsRequest(country: string, subdivision: string)

  /** The request the option routines make for the selected country and subdivision; none without a country. */
  function OptionsRequestFor(country: Option<Country>, subdivision: Option<string>): (r: Option<OptionsRequest>)
    ensures r.Some? <==> country.Some?
    ensures r.Some? ==> r.value.country == country.value.id
    ensures r.Some? ==> r.value.subdivision == (if Truthy(subdivision) then subdivision.value else "")
  {
    if country.None? then None
    else Some(OptionsRequest(country.value.id, if Truthy(subdivision) then subdivision.value else ""))
  }

  /** The ramp page, over the shared provider state and the browser's storage. */
  class Page {
    const ctx: Provider
    const storage: LocalStorage
    const partnerUserIdProp: Option<string>
    var step: int

    constructor (ctx: Provider, storage: LocalStorage, partnerUserIdProp: Option<string>)
      ensures this.ctx == ctx && this.storage == storage && this.partnerUserIdProp == partnerUserIdProp
      ensures step == 1
    {
      this.ctx := ctx;
      this.storage := storage;
      this.partnerUserIdProp := partnerUserIdProp;
      step := 1;
    }

    /** The step effect. */
    method StepEffect()
      modifies this`step
      ensures step == NextStep(ctx.authenticated, old(step))
    {
      if ctx.authenticated && step < 2 {
        step := 2;
      } else if !ctx.authenticated && step > 1 {
        step := 1;
      }
    }

    /**
     * The partner-id effect. `storedId` and `finalId` are the two fresh ids
     * it draws. A truthy prop becomes the partner id and storage is not
     * touched. Without one, a fresh id is stored under the partner-id key only
     * when the stored value is missing or empty, never over a stored id; and
     * whatever happened before, the partner id ends as the second fresh id.
     */
    method PartnerIdEffect(storedId: string, finalId: string)
      modifies storage`entries, ctx`partnerUserId
      ensures Truthy(partnerUserIdProp) ==>
        ctx.partnerUserId == partnerUserIdProp && storage.entries == old(storage.entries)
      ensures !Truthy(partnerUserIdProp) ==> ctx.partnerUserId == Some(finalId)
      ensures !Truthy(partnerUserIdProp) && Truthy(old(storage.GetItem(PartnerUserIdKey))) ==>
        storage.entries == old(storage.entries)
      ensures !Truthy(partnerUserIdProp) && !Truthy(old(storage.GetItem(PartnerUserIdKey))) ==>
        storage.entries == old(storage.entries)[PartnerUserIdKey := storedId]
      ensures storage.GetTxSuccessSummary() == old(storage.GetTxSuccessSummary())
    {
      if Truthy(partnerUserIdProp) {
        ctx.partnerUserId := partnerUserIdProp;
      } else {
        var stored := storage.GetItem(PartnerUserIdKey);
        if Truthy(stored) {
          ctx.partnerUserId := stored;
        } else {
          PartnerIdKeepsSummary(storage.entries, storedId);
          storage.SetItem(PartnerUserIdKey, storedId);
          ctx.partnerUserId := Some(storedId);
        }
        ctx.partnerUserId := Some(finalId);
      }
    }

    /** `getBuyconfig`: fetches the configuration only while there is none; the loading flag ends false. */
    method GetBuyConfig(outcome: Fetch<BuyConfig>) returns (requested: bool)
      modifies ctx`buyConfig, ctx`loadingBuyConfig
      ensures requested <==> old(ctx.buyConfig).None?
      ensures ctx.buyConfig == (if requested && outcome.Fetched? then Some(outcome.value) else old(ctx.buyConfig))
      ensures ctx.loadingBuyConfig == (if requested then false else old(ctx.loadingBuyConfig))
    {
      requested := ctx.buyConfig.None?;
      if requested {
        ctx.loadingBuyConfig := true;
        if outcome.Fetched? {
          ctx.buyConfig := Some(outcome.value);
          ctx.loadingBuyConfig := false;
        }
        ctx.loadingBuyConfig := false;
      }
    }

    /**
     * `getBuyOptions`: with a country selected and no buy options yet,
     * requests them for that country and the selected subdivision (or "");
     * the loading flag ends false whatever happened.
     */
    method GetBuyOptions(outcome: Fetch<BuyOptions>) returns (request: Option<OptionsRequest>)
      modifies ctx`buyOptions, ctx`loadingBuyOptions
      ensures request == (if old(ctx.buyOptions).None? then OptionsRequestFor(ctx.selectedCountry, ctx.selectedSubdivision) else None)
      ensures ctx.buyOptions == (if request.Some? && outcome.Fetched? then Some(outcome.value) else old(ctx.buyOptions))
      ensures !ctx.loadingBuyOptions
    {
      ctx.loadingBuyOptions := true;
      request := None;
      if ctx.selectedCountry.Some? && ctx.buyOptions.None? {
        request := OptionsRequestFor(ctx.selectedCountry, ctx.selectedSubdivision);
        if outcome.Fetched? {
          ctx.buyOptions := Some(outcome.value);
        }
      }
      ctx.loadingBuyOptions := false;
    }

    /**
     * `getSellOptions`: as the buy options, but also only when the sell
     * options were not already loading as the routine started; the loading
     * flag ends false whatever happened.
     */
    method GetSellOptions(outcome: Fetch<SellOptions>) returns (request: Option<OptionsRequest>)
      modifies ctx`sellOptions, ctx`loadingSellOptions
      ensures request == (if !old(ctx.loadingSellOptions) && old(ctx.sellOptions).None?
        then OptionsRequestFor(ctx.selectedCountry, ctx.selectedSubdivision) else None)
      ensures ctx.sellOptions == (if request.Some? && outcome.Fetched? then Some(outcome.value) else old(ctx.sellOptions))
      ensures !ctx.loadingSellOptions
    {
      var wasLoading := ctx.loadingSellOptions;
      ctx.loadingSellOptions := true;
      request := None;
      if !wasLoading && ctx.selectedCountry.Some? && ctx.sellOptions.None? {
        request := OptionsRequestFor(ctx.selectedCountry, ctx.selectedSubdivision);
        if outcome.Fetched? {
          ctx.sellOptions := Some(outcome.value);
        }
      }
      ctx.loadingSellOptions := false;
    }

    /**
     * The mount effect: the sell options, the configuration and the buy
     * options, in that order, each with its own guard over the state the page
     * was first rendered with. Neither options request is made while no
     * country is selected, as in the provider's initial state.
     */
    method MountFetchEffect(sellOutcome: Fetch<SellOptions>, configOutcome: Fetch<BuyConfig>, buyOutcome: Fetch<BuyOptions>)
      returns (sellRequest: Option<OptionsRequest>, configRequested: bool, buyRequest: Option<OptionsRequest>)
      modifies ctx`sellOptions, ctx`loadingSellOptions, ctx`buyConfig, ctx`loadingBuyConfig
      modifies ctx`buyOptions, ctx`loadingBuyOptions
      ensures sellRequest == (if !old(ctx.loadingSellOptions) && old(ctx.sellOptions).None?
        then OptionsRequestFor(ctx.selectedCountry, ctx.selectedSubdivision) else None)
      ensures configRequested <==> old(ctx.buyConfig).None?
      ensures buyRequest == (if old(ctx.buyOptions).None? then OptionsRequestFor(ctx.selectedCountry, ctx.selectedSubdivision) else None)
      ensures ctx.selectedCountry.None? ==> sellRequest.None? && buyRequest.None?
      ensures ctx.sellOptions == (if sellRequest.Some? && sellOutcome.Fetched? then Some(sellOutcome.value) else old(ctx.sellOptions))
      ensures ctx.buyConfig == (if configRequested && configOutcome.Fetched? then Some(configOutcome.value) else old(ctx.buyConfig))
      ensures ctx.buyOptions == (if buyRequest.Some? && buyOutcome.Fetched? then Some(buyOutcome.value) else old(ctx.buyOptions))
      ensures !ctx.loadingSellOptions && !ctx.loadingBuyOptions
      ensures ctx.loadingBuyConfig == (if configRequested then false else old(ctx.loadingBuyConfig))
    {
      sellRequest := GetSellOptions(sellOutcome);
      configRequested := GetBuyConfig(configOutcome);
      buyRequest := GetBuyOptions(buyOutcome);
    }

    /** Choosing a tab: its key becomes the mode as it is, ramp mode or not. */
    method SelectTab(key: string)
      modifies ctx`mode
      ensures ctx.mode == key
      ensures IsOnrampActive(ctx.mode) <==> key == "onramp"
      ensures IsOfframpActive(ctx.mode) <==> key == "offramp"
      ensures key == "fund-card" || key == "fund-button" ==> !IsOnrampActive(ctx.mode) && !IsOfframpActive(ctx.mode)
    {
      ctx.SetMode(key);
    }
  }
}
