/** The store/warehouse/state/ZIP-scoped plugin's rate computation. Its
    matcher takes seven arguments and is not part of this model: it is the
    parameter `find`, of which nothing is assumed. */
module Computation {
  import opened Wrappers
  import opened Domain
  import opened Rates
  import opened Rounding

  /** FindShippingByTotalRecord(shippingMethodId, storeId, warehouseId,
      countryId, subtotal, stateProvinceId, zipPostalCode). */
  type Matcher = (int, int, int, int, real, int, Option<string>) -> Option<Record>

  /** A package line: its product's free-shipping flag and what the price
      calculation service reports as its subtotal. */
  datatype PackageItem = PackageItem(isFreeShipping: bool, subTotal: real)

  datatype Address = Address(countryId: Option<int>, stateProvinceId: Option<int>, zipPostalCode: Option<string>)

  /** GetShippingOptionRequest: a null list, address or warehouse is None;
      `warehouseFrom` is the warehouse's identifier. */
  datatype Request = Request(
    items: Option<seq<PackageItem>>,
    shippingAddress: Option<Address>,
    storeId: int,
    warehouseFrom: Option<int>)

  datatype Response = Response(errors: seq<string>, shippingOptions: seq<ShippingOption>)

  /** A returned response, the exception for a null request, or the null
      reference the subtotal loop meets on a null item list. */
  datatype Outcome = Returned(response: Response) | NullRequestThrown | NullItemsDereferenced

  /** Everything GetRate passes to the matcher besides the method. */
  datatype RateContext = RateContext(
    subtotal: real,
    storeId: int,
    warehouseId: int,
    countryId: int,
    stateProvinceId: int,
    zipPostalCode: Option<string>)

  /** A line counts towards the subtotal unless its product ships free. */
  predicate Counted(item: PackageItem) {
    !item.isFreeShipping
  }

  function LineSubTotal(item: PackageItem): real {
    item.subTotal
  }

  /** The subtotal of the lines whose product does not ship free. */
  function ShippableSubTotal(items: seq<PackageItem>): (total: real)
    ensures (forall i :: 0 <= i < |items| ==> items[i].isFreeShipping) ==> total == 0.0
    ensures (forall i :: 0 <= i < |items| ==> items[i].subTotal >= 0.0) ==> total >= 0.0
  {
    if forall i :: 0 <= i < |items| ==> items[i].isFreeShipping then
      SkippedLinesAddNothing(items, Counted, LineSubTotal);
      CountedSum(items, Counted, LineSubTotal)
    else if forall i :: 0 <= i < |items| ==> items[i].subTotal >= 0.0 then
      CountedSumNonNegative(items, Counted, LineSubTotal);
      CountedSum(items, Counted, LineSubTotal)
    else
      CountedSum(items, Counted, LineSubTotal)
  }

  /** Free-shipping lines never change the subtotal. */
  lemma FreeLinesDoNotCount(items: seq<PackageItem>, more: seq<PackageItem>)
    requires forall i :: 0 <= i < |more| ==> more[i].isFreeShipping
    ensures ShippableSubTotal(items + more) == ShippableSubTotal(items)
  {
    SkippedLinesAddNothing(more, Counted, LineSubTotal);
    CountedSumAppend(items, more, Counted, LineSubTotal);
  }

  /** The rule the matcher returns for the method in this context. */
  function MatchOf(find: Matcher, ctx: RateContext, shippingMethodId: int): Option<Record> {
    find(shippingMethodId, ctx.storeId, ctx.warehouseId, ctx.countryId, ctx.subtotal, ctx.stateProvinceId, ctx.zipPostalCode)
  }

  /** GetRate of this version: the matcher's rule for the method in this
      context, then the charge chain. */
  function GetRate(find: Matcher, limitMethodsToCreated: bool, ctx: RateContext, shippingMethodId: int): (rate: Option<real>)
    // unavailable exactly when the matcher finds no rule and the setting limits methods to configured ones
    ensures rate.None? <==> MatchOf(find, ctx, shippingMethodId).None? && limitMethodsToCreated
    ensures MatchOf(find, ctx, shippingMethodId).None? && rate.Some? ==> rate.value == 0.0
    ensures rate.Some? ==> rate.value >= 0.0
    ensures MatchOf(find, ctx, shippingMethodId).Some? && ActiveCharge(MatchOf(find, ctx, shippingMethodId).value) <= 0.0
            ==> rate == Some(0.0)
    ensures var found := MatchOf(find, ctx, shippingMethodId);
            found.Some? && !found.value.usePercentage && found.value.shippingChargeAmount > 0.0
            ==> rate == Some(found.value.shippingChargeAmount)
    ensures var found := MatchOf(find, ctx, shippingMethodId);
            found.Some? && found.value.usePercentage && found.value.shippingChargePercentage > 0.0 && ctx.subtotal >= 0.0
            ==> rate == Some(Round2(PercentOf(ctx.subtotal, found.value.shippingChargePercentage)))
  {
    ChargeFor(MatchOf(find, ctx, shippingMethodId), limitMethodsToCreated, ctx.subtotal)
  }

  /** The rate of every method id for one request. */
  function RatesOf(find: Matcher, limitMethodsToCreated: bool, ctx: RateContext): int -> Option<real> {
    shippingMethodId => GetRate(find, limitMethodsToCreated, ctx, shippingMethodId)
  }

  /** The context GetShippingOptions builds: the request's store or, when it
      is 0, the current store; the address country and state, 0 when unset;
      the origin warehouse, 0 when none; the address ZIP as given. */
  function ContextOf(request: Request, currentStoreId: int, subtotal: real): (ctx: RateContext)
    requires request.shippingAddress.Some?
    ensures ctx.subtotal == subtotal
    ensures request.storeId != 0 ==> ctx.storeId == request.storeId
    ensures request.storeId == 0 ==> ctx.storeId == currentStoreId
    ensures ctx.warehouseId == match request.warehouseFrom case Some(w) => w case None => 0
    ensures ctx.countryId == match request.shippingAddress.value.countryId case Some(c) => c case None => 0
    ensures ctx.stateProvinceId == match request.shippingAddress.value.stateProvinceId case Some(c) => c case None => 0
    ensures ctx.zipPostalCode == request.shippingAddress.value.zipPostalCode
  {
    var address := request.shippingAddress.value;
    RateContext(subtotal,
                if request.storeId != 0 then request.storeId else currentStoreId,
                request.warehouseFrom.GetOr(0),
                address.countryId.GetOr(0),
                address.stateProvinceId.GetOr(0),
                address.zipPostalCode)
  }

  /** The empty-items test as written, `Items?.Count == 0`: a null list gives
      `null == 0`, which is false. */
  predicate ItemsCountIsZero(items: Option<seq<PackageItem>>) {
    items.Some? && |items.value| == 0
  }

  /** The test lets a null item list through, so the subtotal loop that
      follows it would dereference null. */
  lemma NullItemsPassTheGuard()
    ensures !ItemsCountIsZero(None)
  {
  }

  /** The test as intended (and as the country-scoped version writes it):
      a null or empty list has no shipment items. */
  predicate NoShipmentItems(items: Option<seq<PackageItem>>) {
    items.None? || |items.value| == 0
  }

  /** Past the intended test the item list is present, and the two tests
      differ on the null list only. */
  lemma NoShipmentItemsGuardsTheLoop(items: Option<seq<PackageItem>>)
    ensures !NoShipmentItems(items) ==> items.Some?
    ensures ItemsCountIsZero(items) != NoShipmentItems(items) <==> items.None?
  {
  }

  /** What GetShippingOptions answers with the intended item test: the
      errors in the order of the checks, else the rated options. */
  function ShippingOptionsOutcome(find: Matcher, limitMethodsToCreated: bool, request: Option<Request>, currentStoreId: int,
                                  shippingMethodsOf: int -> seq<ShippingMethod>): (outcome: Outcome)
    ensures request.None? <==> outcome == NullRequestThrown
    ensures outcome != NullItemsDereferenced
    // a null or empty item list, then a null address, give their error and no options
    ensures request.Some? && NoShipmentItems(request.value.items)
            ==> outcome == Returned(Response(["No shipment items"], []))
    ensures request.Some? && !NoShipmentItems(request.value.items) && request.value.shippingAddress.None?
            ==> outcome == Returned(Response(["Shipping address is not set"], []))
    // otherwise no error, and every option is a rated catalogue method of the address country
    ensures request.Some? && !NoShipmentItems(request.value.items) && request.value.shippingAddress.Some?
            ==> var ctx := ContextOf(request.value, currentStoreId, ShippableSubTotal(request.value.items.value));
                outcome.Returned? && outcome.response.errors == []
                && |outcome.response.shippingOptions| <= |shippingMethodsOf(ctx.countryId)|
  {
    if request.None? then NullRequestThrown
    else if NoShipmentItems(request.value.items) then Returned(Response(["No shipment items"], []))
    else if request.value.shippingAddress.None? then Returned(Response(["Shipping address is not set"], []))
    else
      var ctx := ContextOf(request.value, currentStoreId, ShippableSubTotal(request.value.items.value));
      Returned(Response([], Options(shippingMethodsOf(ctx.countryId), RatesOf(find, limitMethodsToCreated, ctx))))
  }

  /** What GetShippingOptions answers with the item test as written: a null
      item list passes it, so the address check comes first and, past it,
      the subtotal loop dereferences the null list. */
  function AsWrittenOutcome(find: Matcher, limitMethodsToCreated: bool, request: Option<Request>, currentStoreId: int,
                            shippingMethodsOf: int -> seq<ShippingMethod>): (outcome: Outcome)
    ensures request.Some? && request.value.items.None? && request.value.shippingAddress.Some?
            ==> outcome == NullItemsDereferenced
    ensures request.Some? && request.value.items.None? && request.value.shippingAddress.None?
            ==> outcome == Returned(Response(["Shipping address is not set"], []))
    // on every other request it answers as the intended test does
    ensures request.None? || request.value.items.Some?
            ==> outcome == ShippingOptionsOutcome(find, limitMethodsToCreated, request, currentStoreId, shippingMethodsOf)
  {
    if request.None? then NullRequestThrown
    else if ItemsCountIsZero(request.value.items) then Returned(Response(["No shipment items"], []))
    else if request.value.shippingAddress.None? then Returned(Response(["Shipping address is not set"], []))
    else if request.value.items.None? then NullItemsDereferenced
    else
      var ctx := ContextOf(request.value, currentStoreId, ShippableSubTotal(request.value.items.value));
      Returned(Response([], Options(shippingMethodsOf(ctx.countryId), RatesOf(find, limitMethodsToCreated, ctx))))
  }

  /** The two answers part on a null item list only: the intended test says
      "No shipment items" whether or not the address is set, where the test
      as written reports the missing address or dereferences null. */
  lemma CorrectedGuardDiffersOnNullItems(find: Matcher, limitMethodsToCreated: bool, request: Option<Request>, currentStoreId: int,
                                         shippingMethodsOf: int -> seq<ShippingMethod>)
    ensures var asWritten := AsWrittenOutcome(find, limitMethodsToCreated, request, currentStoreId, shippingMethodsOf);
            var intended := ShippingOptionsOutcome(find, limitMethodsToCreated, request, currentStoreId, shippingMethodsOf);
            (asWritten != intended <==> request.Some? && request.value.items.None?)
            && (request.Some? && request.value.items.None? ==> intended == Returned(Response(["No shipment items"], [])))
  {
  }

  /** ByTotalShippingComputationMethod over its matcher and settings. */
  class ByTotalShippingComputationMethod {
    const find: Matcher
    const shippingByTotalSettings: ShippingByTotalSettings

    constructor (find: Matcher, settings: ShippingByTotalSettings)
      ensures this.find == find && shippingByTotalSettings == settings
    {
      this.find := find;
      shippingByTotalSettings := settings;
    }

    /** GetShippingOptions: rejects a null request, a missing item list and a
        null address before any rate lookup; otherwise one option per
        catalogue method of the country that has a rate, in catalogue order. */
    method GetShippingOptions(request: Option<Request>, currentStoreId: int, shippingMethodsOf: int -> seq<ShippingMethod>)
      returns (outcome: Outcome)
      ensures outcome == ShippingOptionsOutcome(find, shippingByTotalSettings.limitMethodsToCreated, request, currentStoreId, shippingMethodsOf)
    {
      if request.None? {
        return NullRequestThrown;
      }
      var req := request.value;
      if NoShipmentItems(req.items) {
        return Returned(Response(["No shipment items"], []));
      }
      if req.shippingAddress.None? {
        return Returned(Response(["Shipping address is not set"], []));
      }

      var storeId := if req.storeId != 0 then req.storeId else currentStoreId;
      var countryId := req.shippingAddress.value.countryId.GetOr(0);
      var stateProvinceId := req.shippingAddress.value.stateProvinceId.GetOr(0);
      var warehouseId := req.warehouseFrom.GetOr(0);
      var zipPostalCode := req.shippingAddress.value.zipPostalCode;

      var items := req.items.value;
      var subTotal := 0.0;
      var i := 0;
      while i < |items|
        invariant 0 <= i <= |items|
        invariant subTotal == ShippableSubTotal(items[..i])
      {
        CountedSumAppend(items[..i], [items[i]], Counted, LineSubTotal);
        assert items[..i + 1] == items[..i] + [items[i]];
        if Counted(items[i]) {
          subTotal := subTotal + items[i].subTotal;
        }
        i := i + 1;
      }
      assert items[..|items|] == items;

      var ctx := RateContext(subTotal, storeId, warehouseId, countryId, stateProvinceId, zipPostalCode);
      assert ctx == ContextOf(req, currentStoreId, ShippableSubTotal(items));
      var shippingMethods := shippingMethodsOf(countryId);
      var shippingOptions := AddShippingOptions(shippingMethods, ctx);
      return Returned(Response([], shippingOptions));
    }

    /** The options loop of GetShippingOptions: one option per method whose
        rate is not null, in catalogue order. */
    method AddShippingOptions(shippingMethods: seq<ShippingMethod>, ctx: RateContext) returns (shippingOptions: seq<ShippingOption>)
      ensures shippingOptions == Options(shippingMethods, RatesOf(find, shippingByTotalSettings.limitMethodsToCreated, ctx))
    {
      var limit := shippingByTotalSettings.limitMethodsToCreated;
      shippingOptions := [];
      var j := 0;
      while j < |shippingMethods|
        invariant 0 <= j <= |shippingMethods|
        invariant shippingOptions == Options(shippingMethods[..j], RatesOf(find, limit, ctx))
      {
        var shippingMethod := shippingMethods[j];
        var rate := GetRate(find, limit, ctx, shippingMethod.id);
        OptionsExtend(shippingMethods, j, RatesOf(find, limit, ctx));
        if rate.Some? {
          shippingOptions := shippingOptions + [ShippingOption(shippingMethod.name, shippingMethod.description, rate.value)];
        }
        j := j + 1;
      }
      assert shippingMethods[..|shippingMethods|] == shippingMethods;
    }
  }

  /** A method whose matcher finds no rule is left out when LimitMethodsToCreated
      is on: no option is attributed to it. */
  lemma UnmatchedMethodExcludedWhenLimited(find: Matcher, ctx: RateContext, methods: seq<ShippingMethod>, i: nat)
    requires i < |methods|
    requires find(methods[i].id, ctx.storeId, ctx.warehouseId, ctx.countryId, ctx.subtotal, ctx.stateProvinceId, ctx.zipPostalCode).None?
    ensures RatesOf(find, true, ctx)(methods[i].id).None?
    ensures OptionFor(methods[i], RatesOf(find, true, ctx)).None?
  {
  }

  /** With LimitMethodsToCreated off every catalogue method is offered, one
      option per method in catalogue order. */
  lemma EveryMethodOfferedWhenUnlimited(find: Matcher, ctx: RateContext, methods: seq<ShippingMethod>)
    ensures |Options(methods, RatesOf(find, false, ctx))| == |methods|
    ensures forall i :: 0 <= i < |methods|
              ==> Options(methods, RatesOf(find, false, ctx))[i]
                  == ShippingOption(methods[i].name, methods[i].description, GetRate(find, false, ctx, methods[i].id).value)
  {
    OptionsAllRated(methods, RatesOf(find, false, ctx));
  }

  /** Every offered option carries a non-negative rate. */
  lemma OfferedRatesNonNegative(find: Matcher, limitMethodsToCreated: bool, ctx: RateContext, methods: seq<ShippingMethod>, o: ShippingOption)
    requires o in Options(methods, RatesOf(find, limitMethodsToCreated, ctx))
    ensures o.rate >= 0.0
  {
    OptionsSound(methods, RatesOf(find, limitMethodsToCreated, ctx), o);
  }
}
