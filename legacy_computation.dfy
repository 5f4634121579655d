/** The country-scoped plugin's rate computation: GetRate over the service's
    matcher and GetShippingOptions, which sums the shippable subtotal and
    prices every catalogue method. */
module LegacyComputation {
  import opened Wrappers
  import opened Domain
  import opened Rates
  import opened RecordService

  /** A cart line as the rate computation sees it; `subTotal` is what the
      price calculation service reports for the line. */
  datatype CartItem = CartItem(isFreeShipping: bool, isShipEnabled: bool, subTotal: real)

  datatype Address = Address(countryId: Option<int>)

  /** GetShippingOptionRequest: a null item list or address is None. */
  datatype Request = Request(items: Option<seq<CartItem>>, shippingAddress: Option<Address>)

  datatype Response = Response(errors: seq<string>, shippingOptions: seq<ShippingOption>)

  /** A returned response, or the exception for a null request. */
  datatype Outcome = Returned(response: Response) | NullRequestThrown

  /** A line counts towards the subtotal unless it ships free or is not
      shippable at all. */
  predicate Counted(item: CartItem) {
    !item.isFreeShipping && item.isShipEnabled
  }

  function LineSubTotal(item: CartItem): real {
    item.subTotal
  }

  /** The subtotal of the counted lines. */
  function ShippableSubTotal(items: seq<CartItem>): (total: real)
    ensures (forall i :: 0 <= i < |items| ==> !Counted(items[i])) ==> total == 0.0
    ensures (forall i :: 0 <= i < |items| ==> items[i].subTotal >= 0.0) ==> total >= 0.0
  {
    if forall i :: 0 <= i < |items| ==> !Counted(items[i]) then
      SkippedLinesAddNothing(items, Counted, LineSubTotal);
      CountedSum(items, Counted, LineSubTotal)
    else if forall i :: 0 <= i < |items| ==> items[i].subTotal >= 0.0 then
      CountedSumNonNegative(items, Counted, LineSubTotal);
      CountedSum(items, Counted, LineSubTotal)
    else
      CountedSum(items, Counted, LineSubTotal)
  }

  /** Lines that ship free or are not ship-enabled never change the subtotal. */
  lemma ExcludedLinesDoNotCount(items: seq<CartItem>, more: seq<CartItem>)
    requires forall i :: 0 <= i < |more| ==> more[i].isFreeShipping || !more[i].isShipEnabled
    ensures ShippableSubTotal(items + more) == ShippableSubTotal(items)
  {
    SkippedLinesAddNothing(more, Counted, LineSubTotal);
    CountedSumAppend(items, more, Counted, LineSubTotal);
  }

  /** GetRate of this version: the service's matcher, then the charge chain. */
  function LegacyRate(rows: seq<Record>, limitMethodsToCreated: bool, subtotal: real, countryId: int, shippingMethodId: int): (rate: Option<real>)
    // unavailable exactly when limited and no in-range rule has the country or the wildcard
    ensures rate.None? <==> limitMethodsToCreated && NoRuleFor(rows, shippingMethodId, countryId, subtotal)
    ensures rate.Some? ==> rate.value >= 0.0
  {
    NoneIffNoCandidate(rows, shippingMethodId, countryId, subtotal);
    ChargeFor(FindRecord(rows, shippingMethodId, countryId, subtotal), limitMethodsToCreated, subtotal)
  }

  /** The rate of every method id, for one request. */
  function LegacyRates(rows: seq<Record>, limitMethodsToCreated: bool, subtotal: real, countryId: int): int -> Option<real> {
    shippingMethodId => LegacyRate(rows, limitMethodsToCreated, subtotal, countryId, shippingMethodId)
  }

  /** With no in-range rule of the method for the country or the wildcard,
      the method is unavailable when limited and free otherwise. */
  lemma NoRuleRate(rows: seq<Record>, limitMethodsToCreated: bool, subtotal: real, countryId: int, shippingMethodId: int)
    requires forall x :: x in rows && InRange(x, shippingMethodId, subtotal) ==> x.countryId != countryId && x.countryId != 0
    ensures LegacyRate(rows, limitMethodsToCreated, subtotal, countryId, shippingMethodId)
            == if limitMethodsToCreated then None else Some(0.0)
  {
    NoneIffNoCandidate(rows, shippingMethodId, countryId, subtotal);
  }

  /** An in-range rule of the requested country sets the rate even when a
      wildcard rule also covers the subtotal: a flat exact-country rule gives
      its amount, whatever the wildcard rules say. */
  lemma ExactCountryRatePrevails(rows: seq<Record>, limitMethodsToCreated: bool, subtotal: real, countryId: int, exact: Record)
    requires exact in rows && InRange(exact, exact.shippingMethodId, subtotal) && exact.countryId == countryId
    requires forall x :: x in rows && InRange(x, exact.shippingMethodId, subtotal) && x.countryId == countryId ==> x == exact
    requires !exact.usePercentage && exact.shippingChargeAmount > 0.0
    ensures LegacyRate(rows, limitMethodsToCreated, subtotal, countryId, exact.shippingMethodId) == Some(exact.shippingChargeAmount)
  {
    ExactCountryWins(rows, exact.shippingMethodId, countryId, subtotal, exact);
    FoundIsInRange(rows, exact.shippingMethodId, countryId, subtotal);
  }

  /** What GetShippingOptions answers: the errors in the order of the
      checks, else the options of the address country's catalogue (country 0
      when unset), rated at the subtotal of the counted lines. */
  function ShippingOptionsOutcome(rows: seq<Record>, limitMethodsToCreated: bool, request: Option<Request>,
                                  shippingMethodsOf: int -> seq<ShippingMethod>): (outcome: Outcome)
    ensures request.None? <==> outcome == NullRequestThrown
    // a null or empty item list, then a null address, give their error and no options
    ensures request.Some? && (request.value.items.None? || request.value.items.value == [])
            ==> outcome == Returned(Response(["No shipment items"], []))
    ensures request.Some? && request.value.items.Some? && request.value.items.value != []
            && request.value.shippingAddress.None?
            ==> outcome == Returned(Response(["Shipping address is not set"], []))
    // otherwise no error, and at most one option per catalogue method
    ensures request.Some? && request.value.items.Some? && request.value.items.value != []
            && request.value.shippingAddress.Some?
            ==> var countryId := match request.value.shippingAddress.value.countryId case Some(c) => c case None => 0;
                outcome.Returned? && outcome.response.errors == []
                && |outcome.response.shippingOptions| <= |shippingMethodsOf(countryId)|
  {
    if request.None? then NullRequestThrown
    else if request.value.items.None? || request.value.items.value == [] then Returned(Response(["No shipment items"], []))
    else if request.value.shippingAddress.None? then Returned(Response(["Shipping address is not set"], []))
    else
      var countryId := request.value.shippingAddress.value.countryId.GetOr(0);
      var subtotal := ShippableSubTotal(request.value.items.value);
      Returned(Response([], Options(shippingMethodsOf(countryId), LegacyRates(rows, limitMethodsToCreated, subtotal, countryId))))
  }

  /** ByTotalShippingComputationMethod over its service and settings. */
  class ByTotalShippingComputationMethod {
    const shippingByTotalService: ShippingByTotalService
    const shippingByTotalSettings: ShippingByTotalSettings

    constructor (service: ShippingByTotalService, settings: ShippingByTotalSettings)
      ensures shippingByTotalService == service && shippingByTotalSettings == settings
    {
      shippingByTotalService := service;
      shippingByTotalSettings := settings;
    }

    /** GetRate: the rate of one method for the subtotal and country. */
    method GetRate(subtotal: real, shippingMethodId: int, countryId: int) returns (rate: Option<real>)
      ensures rate == LegacyRates(shippingByTotalService.rows, shippingByTotalSettings.limitMethodsToCreated,
                                  subtotal, countryId)(shippingMethodId)
    {
      var shippingByTotalRecord := shippingByTotalService.FindShippingByTotalRecord(shippingMethodId, countryId, subtotal);
      rate := ChargeFor(shippingByTotalRecord, shippingByTotalSettings.limitMethodsToCreated, subtotal);
    }

    /** The options loop of GetShippingOptions: one option per method whose
        rate is not null, in catalogue order. */
    method AddShippingOptions(shippingMethods: seq<ShippingMethod>, subTotal: real, countryId: int)
      returns (shippingOptions: seq<ShippingOption>)
      ensures shippingOptions
              == Options(shippingMethods, LegacyRates(shippingByTotalService.rows, shippingByTotalSettings.limitMethodsToCreated,
                                                      subTotal, countryId))
    {
      ghost var rows := shippingByTotalService.rows;
      ghost var rates := LegacyRates(rows, shippingByTotalSettings.limitMethodsToCreated, subTotal, countryId);
      shippingOptions := [];
      var j := 0;
      while j < |shippingMethods|
        invariant 0 <= j <= |shippingMethods|
        invariant shippingOptions == Options(shippingMethods[..j], rates)
      {
        var shippingMethod := shippingMethods[j];
        OptionsExtend(shippingMethods, j, rates);
        var rate := GetRate(subTotal, shippingMethod.id, countryId);
        if rate.Some? {
          shippingOptions := shippingOptions + [ShippingOption(shippingMethod.name, shippingMethod.description, rate.value)];
        }
        j := j + 1;
      }
      assert shippingMethods[..|shippingMethods|] == shippingMethods;
    }

    /** GetShippingOptions: rejects a null request, an empty or null item
        list and a null address; otherwise one option per catalogue method
        (the catalogue of the address country, 0 when unset) that has a rate. */
    method GetShippingOptions(request: Option<Request>, shippingMethodsOf: int -> seq<ShippingMethod>) returns (outcome: Outcome)
      ensures outcome == ShippingOptionsOutcome(shippingByTotalService.rows, shippingByTotalSettings.limitMethodsToCreated,
                                                request, shippingMethodsOf)
    {
      if request.None? {
        return NullRequestThrown;
      }
      var req := request.value;
      if req.items.None? || |req.items.value| == 0 {
        return Returned(Response(["No shipment items"], []));
      }
      if req.shippingAddress.None? {
        return Returned(Response(["Shipping address is not set"], []));
      }

      var countryId := if req.shippingAddress.value.countryId.Some? then req.shippingAddress.value.countryId.value else 0;

      var items := req.items.value;
      var subTotal := 0.0;
      var i := 0;
      while i < |items|
        invariant 0 <= i <= |items|
        invariant subTotal == ShippableSubTotal(items[..i])
      {
        CountedSumAppend(items[..i], [items[i]], Counted, LineSubTotal);
        assert items[..i + 1] == items[..i] + [items[i]];
        if Counted(items[i]) {
          subTotal := subTotal + items[i].subTotal;
        }
        i := i + 1;
      }
      assert items[..|items|] == items;
      assert subTotal == ShippableSubTotal(items);
      assert countryId == req.shippingAddress.value.countryId.GetOr(0);

      var shippingMethods := shippingMethodsOf(countryId);
      var shippingOptions := AddShippingOptions(shippingMethods, subTotal, countryId);
      return Returned(Response([], shippingOptions));
    }
  }

  /** With LimitMethodsToCreated off every catalogue method is offered, one
      option per method in catalogue order. */
  lemma EveryMethodOfferedWhenUnlimited(rows: seq<Record>, subtotal: real, countryId: int, methods: seq<ShippingMethod>)
    ensures |Options(methods, LegacyRates(rows, false, subtotal, countryId))| == |methods|
    ensures forall i :: 0 <= i < |methods|
              ==> Options(methods, LegacyRates(rows, false, subtotal, countryId))[i]
                  == ShippingOption(methods[i].name, methods[i].description, LegacyRate(rows, false, subtotal, countryId, methods[i].id).value)
  {
    OptionsAllRated(methods, LegacyRates(rows, false, subtotal, countryId));
  }

  /** Every offered option carries a non-negative rate. */
  lemma OfferedRatesNonNegative(rows: seq<Record>, limitMethodsToCreated: bool, subtotal: real, countryId: int, methods: seq<ShippingMethod>, o: ShippingOption)
    requires o in Options(methods, LegacyRates(rows, limitMethodsToCreated, subtotal, countryId))
    ensures o.rate >= 0.0
  {
    OptionsSound(methods, LegacyRates(rows, limitMethodsToCreated, subtotal, countryId), o);
  }
}
