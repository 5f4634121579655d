/** The record-building parts of the admin controller of the
    store/warehouse/state/ZIP-scoped plugin. Permission checks are the
    `authorized` parameter; the newer service's CRUD calls are modelled by
    the repository table of RecordService. */
module Admin {
  import opened Wrappers
  import opened Domain
  import opened Text
  import opened Rates
  import opened RecordService

  /** ShippingByTotalModel, the rate row the add and update actions post. */
  datatype RateModel = RateModel(
    id: int,
    shippingMethodId: int,
    storeId: int,
    warehouseId: int,
    countryId: int,
    stateProvinceId: int,
    zipPostalCode: Option<string>,
    displayOrder: int,
    from: real,
    to: real,
    usePercentage: bool,
    shippingChargePercentage: real,
    shippingChargeAmount: real)

  /** The charge of the model's own mode. */
  function ModelCharge(model: RateModel): real {
    if model.usePercentage then model.shippingChargePercentage else model.shippingChargeAmount
  }

  /** The record AddShippingRate inserts (its identifier is issued on insert). */
  function AddedRecord(model: RateModel): (r: Record)
    ensures r.zipPostalCode == NormalizeZip(model.zipPostalCode)
    // the inactive charge is stored as 0, the active one as posted
    ensures InactiveChargeZero(r) && r.usePercentage == model.usePercentage && ActiveCharge(r) == ModelCharge(model)
    // scope, order and range are copied unchanged
    ensures r.shippingMethodId == model.shippingMethodId && r.storeId == model.storeId
            && r.warehouseId == model.warehouseId && r.countryId == model.countryId
            && r.stateProvinceId == model.stateProvinceId && r.displayOrder == model.displayOrder
            && r.from == model.from && r.to == model.to
  {
    Record(
      0,
      model.shippingMethodId,
      model.storeId,
      model.warehouseId,
      model.countryId,
      model.stateProvinceId,
      NormalizeZip(model.zipPostalCode),
      model.displayOrder,
      model.from,
      model.to,
      model.usePercentage,
      if model.usePercentage then model.shippingChargePercentage else 0.0,
      if model.usePercentage then 0.0 else model.shippingChargeAmount)
  }

  /** The stored record after RateUpdate overwrites its fields from the model. */
  function UpdatedRecord(stored: Record, model: RateModel): (r: Record)
    ensures r.id == stored.id
    ensures r.zipPostalCode == StarToNull(model.zipPostalCode)
    ensures InactiveChargeZero(r) && r.usePercentage == model.usePercentage && ActiveCharge(r) == ModelCharge(model)
    ensures r.shippingMethodId == model.shippingMethodId && r.storeId == model.storeId
            && r.warehouseId == model.warehouseId && r.countryId == model.countryId
            && r.stateProvinceId == model.stateProvinceId && r.displayOrder == model.displayOrder
            && r.from == model.from && r.to == model.to
  {
    stored.(
      zipPostalCode := StarToNull(model.zipPostalCode),
      displayOrder := model.displayOrder,
      from := model.from,
      to := model.to,
      usePercentage := model.usePercentage,
      shippingChargePercentage := if model.usePercentage then model.shippingChargePercentage else 0.0,
      shippingChargeAmount := if !model.usePercentage then model.shippingChargeAmount else 0.0,
      shippingMethodId := model.shippingMethodId,
      storeId := model.storeId,
      warehouseId := model.warehouseId,
      stateProvinceId := model.stateProvinceId,
      countryId := model.countryId)
  }

  /** Update and add store the same record but for the identifier and the
      ZIP rule: every editable field comes from the model, none from the
      stored record. */
  lemma UpdateAgreesWithAdd(stored: Record, model: RateModel)
    ensures UpdatedRecord(stored, model)
            == AddedRecord(model).(id := stored.id, zipPostalCode := StarToNull(model.zipPostalCode))
  {
  }

  /** Zeroing the inactive charge never changes a rate: the stored record is
      charged as the posted values would be. */
  lemma AddedRecordKeepsCharge(model: RateModel, limitMethodsToCreated: bool, subtotal: real)
    ensures var posted := Record(0, model.shippingMethodId, model.storeId, model.warehouseId, model.countryId,
                                 model.stateProvinceId, model.zipPostalCode, model.displayOrder, model.from, model.to,
                                 model.usePercentage, model.shippingChargePercentage, model.shippingChargeAmount);
            ChargeFor(Some(AddedRecord(model)), limitMethodsToCreated, subtotal)
            == ChargeFor(Some(posted), limitMethodsToCreated, subtotal)
  {
    var posted := Record(0, model.shippingMethodId, model.storeId, model.warehouseId, model.countryId,
                         model.stateProvinceId, model.zipPostalCode, model.displayOrder, model.from, model.to,
                         model.usePercentage, model.shippingChargePercentage, model.shippingChargeAmount);
    ChargeIgnoresInactiveField(AddedRecord(model), posted, limitMethodsToCreated, subtotal);
  }

  /** ShippingByTotalController over the service and the settings bag. */
  class ShippingByTotalController {
    const shippingByTotalService: ShippingByTotalService
    const shippingByTotalSettings: ShippingByTotalSettings

    constructor (service: ShippingByTotalService, settings: ShippingByTotalSettings)
      ensures shippingByTotalService == service && shippingByTotalSettings == settings
    {
      shippingByTotalService := service;
      shippingByTotalSettings := settings;
    }

    /** RateUpdate: the stored row of the model's identifier is overwritten;
        a missing row is dereferenced as null. */
    method RateUpdate(model: RateModel, authorized: bool) returns (result: ActionResult)
      requires shippingByTotalService.Valid()
      modifies shippingByTotalService
      ensures shippingByTotalService.Valid()
      ensures shippingByTotalService.nextId == old(shippingByTotalService.nextId)
      ensures !authorized ==> result == AccessDenied && shippingByTotalService.rows == old(shippingByTotalService.rows)
      ensures authorized && RecordById(old(shippingByTotalService.rows), model.id).None?
              ==> result == NullReferenceThrown && shippingByTotalService.rows == old(shippingByTotalService.rows)
      ensures authorized && RecordById(old(shippingByTotalService.rows), model.id).Some?
              ==> result == Succeeded
                  && shippingByTotalService.rows
                     == ReplaceById(old(shippingByTotalService.rows),
                                    UpdatedRecord(RecordById(old(shippingByTotalService.rows), model.id).value, model))
    {
      if !authorized {
        return AccessDenied;
      }
      var shippingByTotalRecord := shippingByTotalService.GetShippingByTotalRecordById(model.id);
      if shippingByTotalRecord.None? {
        return NullReferenceThrown;
      }
      var updated := UpdatedRecord(shippingByTotalRecord.value, model);
      var _ := shippingByTotalService.UpdateShippingByTotalRecord(Some(updated));
      return Succeeded;
    }

    /** RateDelete: the row goes only when the lookup by identifier finds it. */
    method RateDelete(id: int, authorized: bool) returns (result: ActionResult)
      requires shippingByTotalService.Valid()
      modifies shippingByTotalService
      ensures shippingByTotalService.Valid()
      ensures shippingByTotalService.nextId == old(shippingByTotalService.nextId)
      ensures result == if authorized then Succeeded else AccessDenied
      ensures shippingByTotalService.rows
              == if authorized && RecordById(old(shippingByTotalService.rows), id).Some?
                 then RemoveById(old(shippingByTotalService.rows), id)
                 else old(shippingByTotalService.rows)
    {
      if !authorized {
        return AccessDenied;
      }
      var shippingByTotalRecord := shippingByTotalService.GetShippingByTotalRecordById(id);
      if shippingByTotalRecord.Some? {
        var _ := shippingByTotalService.DeleteShippingByTotalRecord(shippingByTotalRecord);
      }
      return Succeeded;
    }

    /** AddShippingRate: the normalised record is appended under a fresh
        identifier. */
    method AddShippingRate(model: RateModel, authorized: bool) returns (result: ActionResult)
      requires shippingByTotalService.Valid()
      modifies shippingByTotalService
      ensures shippingByTotalService.Valid()
      ensures shippingByTotalService.nextId
              == if authorized then old(shippingByTotalService.nextId) + 1 else old(shippingByTotalService.nextId)
      ensures !authorized ==> result == AccessDenied && shippingByTotalService.rows == old(shippingByTotalService.rows)
      ensures authorized ==> result == Succeeded
      ensures authorized ==> shippingByTotalService.rows
                             == old(shippingByTotalService.rows) + [AddedRecord(model).(id := old(shippingByTotalService.nextId))]
    {
      if !authorized {
        return AccessDenied;
      }
      var shippingByTotalRecord := AddedRecord(model);
      var _ := shippingByTotalService.InsertShippingByTotalRecord(Some(shippingByTotalRecord));
      return Succeeded;
    }

    /** SaveGeneralSettings: sets LimitMethodsToCreated when authorised. */
    method SaveGeneralSettings(limitMethodsToCreated: bool, authorized: bool) returns (result: ActionResult)
      modifies shippingByTotalSettings
      ensures result == if authorized then Succeeded else AccessDenied
      ensures shippingByTotalSettings.limitMethodsToCreated
              == if authorized then limitMethodsToCreated else old(shippingByTotalSettings.limitMethodsToCreated)
    {
      if !authorized {
        return AccessDenied;
      }
      shippingByTotalSettings.limitMethodsToCreated := limitMethodsToCreated;
      return Succeeded;
    }
  }

  /** After a successful update the identifier finds the updated record and
      every other identifier finds what it found before. */
  lemma UpdatedRowIsFound(rows: seq<Record>, model: RateModel, id: int)
    requires RecordById(rows, model.id).Some?
    ensures var updated := UpdatedRecord(RecordById(rows, model.id).value, model);
            Lookup(ReplaceById(rows, updated), id) == if id == model.id then Some(updated) else Lookup(rows, id)
  {
    var updated := UpdatedRecord(RecordById(rows, model.id).value, model);
    LookupAfterReplace(rows, updated, id);
  }
}
