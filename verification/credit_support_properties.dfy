/**
 * Properties of the margin delivery amount that relate several calls:
 * how each input moves the result, when the margin approaches agree,
 * and that the result is insensitive to the order of the posted items.
 */
module CreditSupportProperties {
  import opened Wrappers
  import opened Rounding
  import opened CreditSupport

  /** Each adjustment moves the unrounded delivery amount by exactly its own
      size: a prior delivery adjustment or a disputed delivery amount lowers
      it, a prior return adjustment, a disputed transfer or a lower threshold
      raises it. */
  lemma AdjustmentDirections(
    items: seq<PostedCreditSupportItem>, pda: Money, pra: Money, dtr: Money,
    margin: Money, threshold: Money, approach: MarginApproach, ia: Option<Money>,
    dda: Money, d: real)
    ensures UndisputedDeliveryAmount(items, pda.(amount := pda.amount + d), pra, dtr, margin, threshold, approach, ia, dda)
         == UndisputedDeliveryAmount(items, pda, pra, dtr, margin, threshold, approach, ia, dda) - d
    ensures UndisputedDeliveryAmount(items, pda, pra.(amount := pra.amount + d), dtr, margin, threshold, approach, ia, dda)
         == UndisputedDeliveryAmount(items, pda, pra, dtr, margin, threshold, approach, ia, dda) + d
    ensures UndisputedDeliveryAmount(items, pda, pra, dtr.(amount := dtr.amount + d), margin, threshold, approach, ia, dda)
         == UndisputedDeliveryAmount(items, pda, pra, dtr, margin, threshold, approach, ia, dda) + d
    ensures UndisputedDeliveryAmount(items, pda, pra, dtr, margin, threshold.(amount := threshold.amount + d), approach, ia, dda)
         == UndisputedDeliveryAmount(items, pda, pra, dtr, margin, threshold, approach, ia, dda) - d
    ensures UndisputedDeliveryAmount(items, pda, pra, dtr, margin, threshold, approach, ia, dda.(amount := dda.amount + d))
         == UndisputedDeliveryAmount(items, pda, pra, dtr, margin, threshold, approach, ia, dda) - d
  {
  }

  /** Under the allocated approach the independent amount plays no part. */
  lemma AllocatedIgnoresIndependentAmount(
    items: seq<PostedCreditSupportItem>, pda: Money, pra: Money, dtr: Money,
    margin: Money, threshold: Money, ia: Option<Money>, ia': Option<Money>,
    mta: Money, rounding: CollateralRounding, dda: Money, base: string)
    ensures DeliveryAmount(items, pda, pra, dtr, margin, threshold, Allocated, ia, mta, rounding, dda, base)
         == DeliveryAmount(items, pda, pra, dtr, margin, threshold, Allocated, ia', mta, rounding, dda, base)
  {
  }

  /** The greater-of approach agrees with the allocated one when no
      independent amount is given or when it does not exceed the margin
      amount, and otherwise the independent amount governs. */
  lemma GreaterOfAgreesWithAllocatedUnlessIndependentAmountExceeds(
    items: seq<PostedCreditSupportItem>, pda: Money, pra: Money, dtr: Money,
    margin: Money, threshold: Money, ia: Option<Money>,
    mta: Money, rounding: CollateralRounding, dda: Money, base: string)
    ensures ia.None? || ia.value.amount <= margin.amount ==>
      DeliveryAmount(items, pda, pra, dtr, margin, threshold, GreaterOf, ia, mta, rounding, dda, base)
      == DeliveryAmount(items, pda, pra, dtr, margin, threshold, Allocated, None, mta, rounding, dda, base)
    ensures ia.Some? && ia.value.amount > margin.amount ==>
      DeliveryAmount(items, pda, pra, dtr, margin, threshold, GreaterOf, ia, mta, rounding, dda, base)
      == DeliveryAmount(items, pda, pra, dtr, ia.value, threshold, Allocated, None, mta, rounding, dda, base)
  {
  }

  /** An unrounded amount below the minimum transfer amount is suppressed to
      zero, whatever the rounding increment. */
  lemma BelowMinimumTransferAmountIsZero(
    items: seq<PostedCreditSupportItem>, pda: Money, pra: Money, dtr: Money,
    margin: Money, threshold: Money, approach: MarginApproach, ia: Option<Money>,
    mta: Money, rounding: CollateralRounding, dda: Money, base: string)
    requires rounding.deliveryAmount >= 0.0
    requires UndisputedDeliveryAmount(items, pda, pra, dtr, margin, threshold, approach, ia, dda) < mta.amount
    ensures DeliveryAmount(items, pda, pra, dtr, margin, threshold, approach, ia, mta, rounding, dda, base)
         == Ok(Money(0.0, base))
  {
  }

  /** At or above the minimum transfer amount (the comparison is strict), a
      non-negative unrounded amount is delivered rounded to the nearest
      increment: within half an increment of it, and unchanged by a zero
      increment. */
  lemma AtOrAboveMinimumTransferAmountIsRounded(
    items: seq<PostedCreditSupportItem>, pda: Money, pra: Money, dtr: Money,
    margin: Money, threshold: Money, approach: MarginApproach, ia: Option<Money>,
    mta: Money, rounding: CollateralRounding, dda: Money, base: string)
    requires rounding.deliveryAmount >= 0.0
    requires var raw := UndisputedDeliveryAmount(items, pda, pra, dtr, margin, threshold, approach, ia, dda);
      mta.amount <= raw && 0.0 <= raw
    ensures var raw := UndisputedDeliveryAmount(items, pda, pra, dtr, margin, threshold, approach, ia, dda);
      var r := DeliveryAmount(items, pda, pra, dtr, margin, threshold, approach, ia, mta, rounding, dda, base);
      && r.Ok?
      && (rounding.deliveryAmount > 0.0 ==>
            raw - rounding.deliveryAmount / 2.0 < r.value.amount <= raw + rounding.deliveryAmount / 2.0)
      && (rounding.deliveryAmount == 0.0 ==> r.value.amount == raw)
  {
  }

  /** The delivered amount is a fixed point of the rounding: a whole
      multiple of the increment (or zero). */
  lemma DeliveryAmountIsRounded(
    items: seq<PostedCreditSupportItem>, pda: Money, pra: Money, dtr: Money,
    margin: Money, threshold: Money, approach: MarginApproach, ia: Option<Money>,
    mta: Money, rounding: CollateralRounding, dda: Money, base: string)
    requires rounding.deliveryAmount >= 0.0
    ensures var r := DeliveryAmount(items, pda, pra, dtr, margin, threshold, approach, ia, mta, rounding, dda, base);
      r.Ok? && RoundToNearest(r.value.amount, rounding.deliveryAmount) == r.value.amount
  {
    var raw := UndisputedDeliveryAmount(items, pda, pra, dtr, margin, threshold, approach, ia, dda);
    TransferAmountIsRounded(raw, mta.amount, rounding.deliveryAmount);
  }

  /** Posting one more item of non-negative net value never increases the
      delivery amount. */
  lemma MoreCollateralNeverIncreasesDelivery(
    items: seq<PostedCreditSupportItem>, extra: PostedCreditSupportItem, pda: Money, pra: Money, dtr: Money,
    margin: Money, threshold: Money, approach: MarginApproach, ia: Option<Money>,
    mta: Money, rounding: CollateralRounding, dda: Money, base: string)
    requires rounding.deliveryAmount >= 0.0
    requires NetItemValue(extra) >= 0.0
    ensures DeliveryAmount(items + [extra], pda, pra, dtr, margin, threshold, approach, ia, mta, rounding, dda, base).value.amount
         <= DeliveryAmount(items, pda, pra, dtr, margin, threshold, approach, ia, mta, rounding, dda, base).value.amount
  {
    SumCollateralAppend(items, [extra]);
    SumCollateralSingleton(extra);
    TransferAmountMonotone(
      UndisputedDeliveryAmount(items + [extra], pda, pra, dtr, margin, threshold, approach, ia, dda),
      UndisputedDeliveryAmount(items, pda, pra, dtr, margin, threshold, approach, ia, dda),
      mta.amount, rounding.deliveryAmount);
  }

  /** Raising the threshold never increases the delivery amount. */
  lemma HigherThresholdNeverIncreasesDelivery(
    items: seq<PostedCreditSupportItem>, pda: Money, pra: Money, dtr: Money,
    margin: Money, threshold: Money, threshold': Money, approach: MarginApproach, ia: Option<Money>,
    mta: Money, rounding: CollateralRounding, dda: Money, base: string)
    requires rounding.deliveryAmount >= 0.0
    requires threshold.amount <= threshold'.amount
    ensures DeliveryAmount(items, pda, pra, dtr, margin, threshold', approach, ia, mta, rounding, dda, base).value.amount
         <= DeliveryAmount(items, pda, pra, dtr, margin, threshold, approach, ia, mta, rounding, dda, base).value.amount
  {
    TransferAmountMonotone(
      UndisputedDeliveryAmount(items, pda, pra, dtr, margin, threshold', approach, ia, dda),
      UndisputedDeliveryAmount(items, pda, pra, dtr, margin, threshold, approach, ia, dda),
      mta.amount, rounding.deliveryAmount);
  }

  /** Reordering the posted items does not change the delivery amount. */
  lemma PostedItemOrderIrrelevant(
    items: seq<PostedCreditSupportItem>, items': seq<PostedCreditSupportItem>, pda: Money, pra: Money, dtr: Money,
    margin: Money, threshold: Money, approach: MarginApproach, ia: Option<Money>,
    mta: Money, rounding: CollateralRounding, dda: Money, base: string)
    requires multiset(items) == multiset(items')
    ensures DeliveryAmount(items, pda, pra, dtr, margin, threshold, approach, ia, mta, rounding, dda, base)
         == DeliveryAmount(items', pda, pra, dtr, margin, threshold, approach, ia, mta, rounding, dda, base)
  {
    SumCollateralPermutation(items, items');
  }
}
