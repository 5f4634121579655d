/** The record-building parts of the older admin controller, whose rate
    rows have no warehouse and whose update copies both charges verbatim. */
module LegacyAdmin {
  import opened Wrappers
  import opened Domain
  import opened Text
  import opened Rates
  import opened RecordService

  /** The Add* fields of ShippingByTotalListModel that AddShippingRate reads. */
  datatype AddRateModel = AddRateModel(
    addShippingMethodId: int,
    addStoreId: int,
    addCountryId: int,
    addStateProvinceId: int,
    addZipPostalCode: Option<string>,
    addDisplayOrder: int,
    addFrom: real,
    addTo: real,
    addUsePercentage: bool,
    addShippingChargePercentage: real,
    addShippingChargeAmount: real)

  /** The fields of ShippingByTotalModel that RateUpdate reads. */
  datatype RateModel = RateModel(
    id: int,
    zipPostalCode: Option<string>,
    displayOrder: int,
    from: real,
    to: real,
    usePercentage: bool,
    shippingChargePercentage: real,
    shippingChargeAmount: real)

  /** The record AddShippingRate inserts; the warehouse keeps its default 0. */
  function AddedRecord(model: AddRateModel): (r: Record)
    ensures r.zipPostalCode == NormalizeZip(model.addZipPostalCode)
    ensures r.warehouseId == 0
    ensures InactiveChargeZero(r) && r.usePercentage == model.addUsePercentage
    ensures ActiveCharge(r)
            == if model.addUsePercentage then model.addShippingChargePercentage else model.addShippingChargeAmount
    ensures r.shippingMethodId == model.addShippingMethodId && r.storeId == model.addStoreId
            && r.countryId == model.addCountryId && r.stateProvinceId == model.addStateProvinceId
            && r.displayOrder == model.addDisplayOrder && r.from == model.addFrom && r.to == model.addTo
  {
    Record(
      0,
      model.addShippingMethodId,
      model.addStoreId,
      0,
      model.addCountryId,
      model.addStateProvinceId,
      NormalizeZip(model.addZipPostalCode),
      model.addDisplayOrder,
      model.addFrom,
      model.addTo,
      model.addUsePercentage,
      if model.addUsePercentage then model.addShippingChargePercentage else 0.0,
      if model.addUsePercentage then 0.0 else model.addShippingChargeAmount)
  }

  /** The stored record after RateUpdate: the ZIP, order, range, mode and
      both charges come from the model; identifier and scope stay. */
  function UpdatedRecord(stored: Record, model: RateModel): (r: Record)
    ensures r.id == stored.id && r.shippingMethodId == stored.shippingMethodId && r.storeId == stored.storeId
            && r.warehouseId == stored.warehouseId && r.countryId == stored.countryId
            && r.stateProvinceId == stored.stateProvinceId
    ensures r.zipPostalCode == StarToNull(model.zipPostalCode)
    ensures r.displayOrder == model.displayOrder && r.from == model.from && r.to == model.to
    ensures r.usePercentage == model.usePercentage
    ensures r.shippingChargePercentage == model.shippingChargePercentage
            && r.shippingChargeAmount == model.shippingChargeAmount
  {
    stored.(
      zipPostalCode := StarToNull(model.zipPostalCode),
      displayOrder := model.displayOrder,
      from := model.from,
      to := model.to,
      usePercentage := model.usePercentage,
      shippingChargeAmount := model.shippingChargeAmount,
      shippingChargePercentage := model.shippingChargePercentage)
  }

  /** Unlike the add action, the update keeps the inactive charge as posted:
      a flat-rate update that also posts a percentage stores both. */
  lemma UpdateCanKeepInactiveCharge()
    ensures var stored := Record(1, 1, 0, 0, 0, 0, None, 0, 0.0, 100.0, false, 0.0, 5.0);
            var model := RateModel(1, None, 0, 0.0, 100.0, false, 10.0, 5.0);
            InactiveChargeZero(stored) && !InactiveChargeZero(UpdatedRecord(stored, model))
  {
  }

  /** The inactive charge the update keeps is never charged: the updated
      record is priced exactly as its zeroed form would be. */
  lemma UpdatedRecordChargesActiveField(stored: Record, model: RateModel, limitMethodsToCreated: bool, subtotal: real)
    ensures var updated := UpdatedRecord(stored, model);
            var zeroed := updated.(
              shippingChargePercentage := if model.usePercentage then model.shippingChargePercentage else 0.0,
              shippingChargeAmount := if model.usePercentage then 0.0 else model.shippingChargeAmount);
            InactiveChargeZero(zeroed)
            && ChargeFor(Some(updated), limitMethodsToCreated, subtotal) == ChargeFor(Some(zeroed), limitMethodsToCreated, subtotal)
  {
    var updated := UpdatedRecord(stored, model);
    var zeroed := updated.(
      shippingChargePercentage := if model.usePercentage then model.shippingChargePercentage else 0.0,
      shippingChargeAmount := if model.usePercentage then 0.0 else model.shippingChargeAmount);
    ChargeIgnoresInactiveField(updated, zeroed, limitMethodsToCreated, subtotal);
  }

  /** The older ShippingByTotalController over the service and the settings. */
  class ShippingByTotalController {
    const shippingByTotalService: ShippingByTotalService
    const shippingByTotalSettings: ShippingByTotalSettings

    constructor (service: ShippingByTotalService, settings: ShippingByTotalSettings)
      ensures shippingByTotalService == service && shippingByTotalSettings == settings
    {
      shippingByTotalService := service;
      shippingByTotalSettings := settings;
    }

    /** RateUpdate: an invalid posted model is answered with an error and
        changes nothing; a missing row is dereferenced as null. */
    method RateUpdate(model: RateModel, authorized: bool, modelStateIsValid: bool) returns (result: ActionResult)
      requires shippingByTotalService.Valid()
      modifies shippingByTotalService
      ensures shippingByTotalService.Valid()
      ensures shippingByTotalService.nextId == old(shippingByTotalService.nextId)
      ensures !authorized ==> result == AccessDenied && shippingByTotalService.rows == old(shippingByTotalService.rows)
      ensures authorized && !modelStateIsValid
              ==> result == ModelStateError && shippingByTotalService.rows == old(shippingByTotalService.rows)
      ensures authorized && modelStateIsValid && RecordById(old(shippingByTotalService.rows), model.id).None?
              ==> result == NullReferenceThrown && shippingByTotalService.rows == old(shippingByTotalService.rows)
      ensures authorized && modelStateIsValid && RecordById(old(shippingByTotalService.rows), model.id).Some?
              ==> result == Succeeded
                  && shippingByTotalService.rows
                     == ReplaceById(old(shippingByTotalService.rows),
                                    UpdatedRecord(RecordById(old(shippingByTotalService.rows), model.id).value, model))
    {
      if !authorized {
        return AccessDenied;
      }
      if !modelStateIsValid {
        return ModelStateError;
      }
      var shippingByTotalRecord := shippingByTotalService.GetShippingByTotalRecordById(model.id);
      if shippingByTotalRecord.None? {
        return NullReferenceThrown;
      }
      var updated := UpdatedRecord(shippingByTotalRecord.value, model);
      var _ := shippingByTotalService.UpdateShippingByTotalRecord(Some(updated));
      return Succeeded;
    }

    /** AddShippingRate: the normalised record is appended under a fresh
        identifier. */
    method AddShippingRate(model: AddRateModel, authorized: bool) returns (result: ActionResult)
      requires shippingByTotalService.Valid()
      modifies shippingByTotalService
      ensures shippingByTotalService.Valid()
      ensures shippingByTotalService.nextId
              == if authorized then old(shippingByTotalService.nextId) + 1 else old(shippingByTotalService.nextId)
      ensures !authorized ==> result == AccessDenied && shippingByTotalService.rows == old(shippingByTotalService.rows)
      ensures authorized ==> result == Succeeded
      ensures authorized ==> shippingByTotalService.rows
                             == old(shippingByTotalService.rows) + [AddedRecord(model).(id := old(shippingByTotalService.nextId))]
    {
      if !authorized {
        return AccessDenied;
      }
      var shippingByTotalRecord := AddedRecord(model);
      var _ := shippingByTotalService.InsertShippingByTotalRecord(Some(shippingByTotalRecord));
      return Succeeded;
    }

    /** SaveGeneralSettings: sets LimitMethodsToCreated when authorised. */
    method SaveGeneralSettings(limitMethodsToCreated: bool, authorized: bool) returns (result: ActionResult)
      modifies shippingByTotalSettings
      ensures result == if authorized then Succeeded else AccessDenied
      ensures shippingByTotalSettings.limitMethodsToCreated
              == if authorized then limitMethodsToCreated else old(shippingByTotalSettings.limitMethodsToCreated)
    {
      if !authorized {
        return AccessDenied;
      }
      shippingByTotalSettings.limitMethodsToCreated := limitMethodsToCreated;
      return Succeeded;
    }
  }

  /** An update never moves a rule to another method, store or country: the
      updated row is still a candidate for exactly the same scope. */
  lemma UpdateKeepsScope(rows: seq<Record>, model: RateModel)
    requires RecordById(rows, model.id).Some?
    ensures var stored := RecordById(rows, model.id).value;
            var updated := UpdatedRecord(stored, model);
            Lookup(ReplaceById(rows, updated), model.id) == Some(updated)
            && updated.shippingMethodId == stored.shippingMethodId && updated.countryId == stored.countryId
  {
    var updated := UpdatedRecord(RecordById(rows, model.id).value, model);
    LookupAfterReplace(rows, updated, model.id);
  }
}
