/** The charge calculation that both versions' GetRate apply to the matched
    rule, and the assembly of the options list from the per-method rates. */
module Rates {
  import opened Wrappers
  import opened Domain
  import opened Rounding

  /** `pct` percent of `subtotal`, computed exactly. */
  function PercentOf(subtotal: real, pct: real): (r: real)
    ensures subtotal >= 0.0 && pct >= 0.0 ==> r >= 0.0
    ensures subtotal <= 0.0 && pct >= 0.0 ==> r <= 0.0
  {
    subtotal * pct / 100.0
  }

  /** The decision chain of GetRate, given the matched rule (or none), the
      LimitMethodsToCreated setting and the subtotal. None means the method
      is unavailable. */
  function ChargeFor(found: Option<Record>, limitMethodsToCreated: bool, subtotal: real): (rate: Option<real>)
    // no rule: unavailable when limited, otherwise free
    ensures found.None? ==> (rate.None? <==> limitMethodsToCreated)
    ensures found.None? && rate.Some? ==> rate.value == 0.0
    // a rule always yields a rate, and no rate is ever negative
    ensures found.Some? ==> rate.Some?
    ensures rate.Some? ==> rate.value >= 0.0
    // a non-positive charge of the active mode gives 0 whatever the subtotal
    ensures found.Some? && ActiveCharge(found.value) <= 0.0 ==> rate == Some(0.0)
    // flat mode with a positive amount: exactly that amount
    ensures found.Some? && !found.value.usePercentage && found.value.shippingChargeAmount > 0.0
            ==> rate == Some(found.value.shippingChargeAmount)
    // percentage mode with a positive percentage: the share of the subtotal to two places
    ensures found.Some? && found.value.usePercentage && found.value.shippingChargePercentage > 0.0 && subtotal >= 0.0
            ==> rate == Some(Round2(PercentOf(subtotal, found.value.shippingChargePercentage)))
    ensures found.Some? && found.value.usePercentage && subtotal <= 0.0 ==> rate == Some(0.0)
  {
    if found.None? then
      if limitMethodsToCreated then None else Some(0.0)
    else
      var record := found.value;
      if record.usePercentage && record.shippingChargePercentage <= 0.0 then Some(0.0)
      else if !record.usePercentage && record.shippingChargeAmount <= 0.0 then Some(0.0)
      else
        var shippingTotal :=
          if record.usePercentage then Round2(PercentOf(subtotal, record.shippingChargePercentage))
          else record.shippingChargeAmount;
        Some(if shippingTotal < 0.0 then 0.0 else shippingTotal)
  }

  /** The charge depends only on the mode and the active charge field: the
      inactive field, the scope and the range do not enter into it. */
  lemma ChargeIgnoresInactiveField(a: Record, b: Record, limitMethodsToCreated: bool, subtotal: real)
    requires a.usePercentage == b.usePercentage && ActiveCharge(a) == ActiveCharge(b)
    ensures ChargeFor(Some(a), limitMethodsToCreated, subtotal) == ChargeFor(Some(b), limitMethodsToCreated, subtotal)
  {
    if a.usePercentage {
      assert a.shippingChargePercentage == b.shippingChargePercentage;
    } else {
      assert a.shippingChargeAmount == b.shippingChargeAmount;
    }
  }

  /** The subtotal loop of GetShippingOptions: the sum of `amount` over the
      lines `counted` accepts, the others skipped. */
  function CountedSum<T>(items: seq<T>, counted: T -> bool, amount: T -> real): real {
    if items == [] then 0.0
    else (if counted(items[0]) then amount(items[0]) else 0.0) + CountedSum(items[1..], counted, amount)
  }

  /** The sum over a list is the sum over its parts, which is what adding one
      line at a time in the loop builds. */
  lemma {:induction false} CountedSumAppend<T>(items: seq<T>, more: seq<T>, counted: T -> bool, amount: T -> real)
    ensures CountedSum(items + more, counted, amount) == CountedSum(items, counted, amount) + CountedSum(more, counted, amount)
  {
    if items == [] {
      assert items + more == more;
    } else {
      assert (items + more)[0] == items[0];
      assert (items + more)[1..] == items[1..] + more;
      CountedSumAppend(items[1..], more, counted, amount);
    }
  }

  /** Skipped lines never change the sum: a list of them sums to 0. */
  lemma {:induction false} SkippedLinesAddNothing<T>(items: seq<T>, counted: T -> bool, amount: T -> real)
    requires forall i :: 0 <= i < |items| ==> !counted(items[i])
    ensures CountedSum(items, counted, amount) == 0.0
  {
    if items != [] {
      assert !counted(items[0]);
      assert forall i :: 0 <= i < |items[1..]| ==> items[1..][i] == items[i + 1];
      SkippedLinesAddNothing(items[1..], counted, amount);
    }
  }

  /** Counted lines with non-negative amounts give a non-negative sum. */
  lemma {:induction false} CountedSumNonNegative<T>(items: seq<T>, counted: T -> bool, amount: T -> real)
    requires forall i :: 0 <= i < |items| ==> amount(items[i]) >= 0.0
    ensures CountedSum(items, counted, amount) >= 0.0
  {
    if items != [] {
      assert amount(items[0]) >= 0.0;
      assert forall i :: 0 <= i < |items[1..]| ==> items[1..][i] == items[i + 1];
      CountedSumNonNegative(items[1..], counted, amount);
    }
  }

  /** The option one catalogue method contributes: its name, description and
      rate, or nothing when it is unavailable. */
  function OptionFor(m: ShippingMethod, rateOf: int -> Option<real>): Option<ShippingOption> {
    match rateOf(m.id)
    case Some(rate) => Some(ShippingOption(m.name, m.description, rate))
    case None => None
  }

  /** The options loop: one option per method with a rate, in catalogue order. */
  function Options(methods: seq<ShippingMethod>, rateOf: int -> Option<real>): (options: seq<ShippingOption>)
    ensures |options| <= |methods|
  {
    if methods == [] then []
    else
      var head := match OptionFor(methods[0], rateOf) case Some(o) => [o] case None => [];
      head + Options(methods[1..], rateOf)
  }

  /** The options of a catalogue are those of its first part followed by
      those of the rest: catalogue order is kept. */
  lemma {:induction false} OptionsAppend(methods: seq<ShippingMethod>, more: seq<ShippingMethod>, rateOf: int -> Option<real>)
    ensures Options(methods + more, rateOf) == Options(methods, rateOf) + Options(more, rateOf)
  {
    if methods == [] {
      assert methods + more == more;
    } else {
      assert (methods + more)[0] == methods[0];
      assert (methods + more)[1..] == methods[1..] + more;
      OptionsAppend(methods[1..], more, rateOf);
    }
  }

  /** One more catalogue method adds its option, if it has a rate, at the end. */
  lemma OptionsExtend(methods: seq<ShippingMethod>, j: nat, rateOf: int -> Option<real>)
    requires j < |methods|
    ensures Options(methods[..j + 1], rateOf)
            == Options(methods[..j], rateOf)
               + (if rateOf(methods[j].id).Some?
                  then [ShippingOption(methods[j].name, methods[j].description, rateOf(methods[j].id).value)]
                  else [])
  {
    assert methods[..j + 1] == methods[..j] + [methods[j]];
    OptionsAppend(methods[..j], [methods[j]], rateOf);
  }

  /** Every option comes from a catalogue method that has a rate, and carries
      that method's name, description and rate. */
  lemma {:induction false} OptionsSound(methods: seq<ShippingMethod>, rateOf: int -> Option<real>, o: ShippingOption)
    requires o in Options(methods, rateOf)
    ensures exists i :: 0 <= i < |methods| && OptionFor(methods[i], rateOf) == Some(o)
  {
    var head := match OptionFor(methods[0], rateOf) case Some(o) => [o] case None => [];
    if o !in head {
      OptionsSound(methods[1..], rateOf, o);
      var i :| 0 <= i < |methods[1..]| && OptionFor(methods[1..][i], rateOf) == Some(o);
      assert methods[1..][i] == methods[i + 1];
    }
  }

  /** Every catalogue method that has a rate contributes its option. */
  lemma {:induction false} OptionsComplete(methods: seq<ShippingMethod>, rateOf: int -> Option<real>, i: nat)
    requires i < |methods| && rateOf(methods[i].id).Some?
    ensures OptionFor(methods[i], rateOf).value in Options(methods, rateOf)
  {
    if i > 0 {
      assert methods[1..][i - 1] == methods[i];
      OptionsComplete(methods[1..], rateOf, i - 1);
    }
  }

  /** When every method has a rate, the options are the catalogue, one for one. */
  lemma {:induction false} OptionsAllRated(methods: seq<ShippingMethod>, rateOf: int -> Option<real>)
    requires forall i :: 0 <= i < |methods| ==> rateOf(methods[i].id).Some?
    ensures |Options(methods, rateOf)| == |methods|
    ensures forall i :: 0 <= i < |methods| ==> Options(methods, rateOf)[i] == OptionFor(methods[i], rateOf).value
  {
    if methods != [] {
      assert rateOf(methods[0].id).Some?;
      forall i | 0 <= i < |methods[1..]| ensures rateOf(methods[1..][i].id).Some? {
        assert methods[1..][i] == methods[i + 1];
      }
      OptionsAllRated(methods[1..], rateOf);
    }
  }

  /** When no method has a rate there are no options. */
  lemma {:induction false} OptionsNoneRated(methods: seq<ShippingMethod>, rateOf: int -> Option<real>)
    requires forall i :: 0 <= i < |methods| ==> rateOf(methods[i].id).None?
    ensures Options(methods, rateOf) == []
  {
    if methods != [] {
      assert rateOf(methods[0].id).None?;
      forall i | 0 <= i < |methods[1..]| ensures rateOf(methods[1..][i].id).None? {
        assert methods[1..][i] == methods[i + 1];
      }
      OptionsNoneRated(methods[1..], rateOf);
    }
  }
}
