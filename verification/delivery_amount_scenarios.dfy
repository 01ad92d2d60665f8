/**
 * The worked examples that pin the delivery-amount calculation: each
 * builds a single posted item and a rounding record from plain amounts,
 * all in EUR, and states the exact delivery amount.
 */
module DeliveryAmountScenarios {
  import opened Wrappers
  import opened CreditSupport

  const BaseCurrency: string := "EUR"

  /** An amount in the base currency. */
  function Eur(amount: real): Money
  {
    Money(amount, BaseCurrency)
  }

  /**
   * The delivery amount for one posted item, the same increment for both
   * rounding directions and every other input given as a plain amount.
   * In closed form it is the transfer of: required amount, less threshold,
   * less the item's haircut value net of its dispute, less the prior
   * delivery adjustment, plus the prior return adjustment and the disputed
   * transfer, less the disputed delivery amount.
   */
  function SingleItemDeliveryAmount(
    postedCreditSupportAmount: real,
    valuationPercentage: real,
    fxHaircutPercentage: real,
    disputedPostedCreditSupportAmount: real,
    priorDeliveryAmountAdjustment: real,
    priorReturnAmountAdjustment: real,
    disputedTransferredPostedCreditSupportAmount: real,
    marginAmount: real,
    threshold: real,
    marginApproach: MarginApproach,
    marginAmountIA: Option<real>,
    minimumTransferAmount: real,
    roundToNearest: real,
    disputedDeliveryAmount: real): (r: Result<real, CalculationError>)
    ensures r.Err? <==> roundToNearest < 0.0
    ensures r.Ok? ==> r.value == TransferAmount(
      (if marginApproach == GreaterOf && marginAmountIA.Some? && marginAmountIA.value > marginAmount
       then marginAmountIA.value else marginAmount)
      - threshold
      - (postedCreditSupportAmount * (valuationPercentage - fxHaircutPercentage) / 100.0
         - disputedPostedCreditSupportAmount)
      - priorDeliveryAmountAdjustment
      + priorReturnAmountAdjustment
      + disputedTransferredPostedCreditSupportAmount
      - disputedDeliveryAmount,
      minimumTransferAmount, roundToNearest)
  {
    var item := PostedCreditSupportItem(
      Eur(postedCreditSupportAmount), valuationPercentage, fxHaircutPercentage,
      Eur(disputedPostedCreditSupportAmount));
    SumCollateralSingleton(item);
    var ia := match marginAmountIA
      case None => None
      case Some(a) => Some(Eur(a));
    assert RequiredAmount(Eur(marginAmount), marginApproach, ia)
        == if marginApproach == GreaterOf && marginAmountIA.Some? && marginAmountIA.value > marginAmount
           then marginAmountIA.value else marginAmount;
    assert UndisputedDeliveryAmount(
        [item], Eur(priorDeliveryAmountAdjustment), Eur(priorReturnAmountAdjustment),
        Eur(disputedTransferredPostedCreditSupportAmount), Eur(marginAmount), Eur(threshold),
        marginApproach, ia, Eur(disputedDeliveryAmount))
      == (if marginApproach == GreaterOf && marginAmountIA.Some? && marginAmountIA.value > marginAmount
          then marginAmountIA.value else marginAmount)
         - threshold
         - (postedCreditSupportAmount * (valuationPercentage - fxHaircutPercentage) / 100.0
            - disputedPostedCreditSupportAmount)
         - priorDeliveryAmountAdjustment
         + priorReturnAmountAdjustment
         + disputedTransferredPostedCreditSupportAmount
         - disputedDeliveryAmount;
    var result := DeliveryAmount(
      [item],
      Eur(priorDeliveryAmountAdjustment),
      Eur(priorReturnAmountAdjustment),
      Eur(disputedTransferredPostedCreditSupportAmount),
      Eur(marginAmount),
      Eur(threshold),
      marginApproach,
      ia,
      Eur(minimumTransferAmount),
      CollateralRounding(roundToNearest, roundToNearest),
      Eur(disputedDeliveryAmount),
      BaseCurrency);
    match result
    case Ok(money) => Ok(money.amount)
    case Err(e) => Err(e)
  }

  /** One item of 5 at full valuation against a margin of 15: deliver 10. */
  lemma Baseline()
    ensures SingleItemDeliveryAmount(5.0, 100.0, 0.0, 0.0, 0.0, 0.0, 0.0, 15.0, 0.0,
                                     Allocated, None, 0.0, 0.5, 0.0) == Ok(10.0)
  {
  }

  /** 90% valuation less an 8% haircut counts 4.1 of the 5 posted. */
  lemma ValuationPercentageAndFxHaircut()
    ensures SingleItemDeliveryAmount(5.0, 90.0, 8.0, 0.0, 0.0, 0.0, 0.0, 15.0, 0.0,
                                     Allocated, None, 0.0, 0.01, 0.0) == Ok(10.9)
  {
  }

  /** A disputed item value of 2 is not counted: deliver 12. */
  lemma DisputedPostedCreditSupportAmount()
    ensures SingleItemDeliveryAmount(5.0, 100.0, 0.0, 2.0, 0.0, 0.0, 0.0, 15.0, 0.0,
                                     Allocated, None, 0.0, 0.5, 0.0) == Ok(12.0)
  {
  }

  /** A prior delivery adjustment of 1 counts as held: deliver 9. */
  lemma PriorDeliveryAmountAdjustment()
    ensures SingleItemDeliveryAmount(5.0, 100.0, 0.0, 0.0, 1.0, 0.0, 0.0, 15.0, 0.0,
                                     Allocated, None, 0.0, 0.5, 0.0) == Ok(9.0)
  {
  }

  /** A prior return adjustment of 1 is no longer held: deliver 11. */
  lemma PriorReturnAmountAdjustment()
    ensures SingleItemDeliveryAmount(5.0, 100.0, 0.0, 0.0, 0.0, 1.0, 0.0, 15.0, 0.0,
                                     Allocated, None, 0.0, 0.5, 0.0) == Ok(11.0)
  {
  }

  /** A disputed transfer of 2 is not counted: deliver 12. */
  lemma DisputedTransferredPostedCreditSupportAmount()
    ensures SingleItemDeliveryAmount(5.0, 100.0, 0.0, 0.0, 0.0, 0.0, 2.0, 15.0, 0.0,
                                     Allocated, None, 0.0, 0.5, 0.0) == Ok(12.0)
  {
  }

  /** A threshold of 10 leaves an exposure of 5, covered by the 5 posted. */
  lemma Threshold()
    ensures SingleItemDeliveryAmount(5.0, 100.0, 0.0, 0.0, 0.0, 0.0, 0.0, 15.0, 10.0,
                                     Allocated, None, 0.0, 0.5, 0.0) == Ok(0.0)
  {
  }

  /** Under the greater-of approach an independent amount of 18 governs
      over the margin of 15: deliver 13. */
  lemma MarginApproachGreaterOf()
    ensures SingleItemDeliveryAmount(5.0, 100.0, 0.0, 0.0, 0.0, 0.0, 0.0, 15.0, 0.0,
                                     GreaterOf, Some(18.0), 0.0, 0.5, 0.0) == Ok(13.0)
  {
  }

  /** An amount of 10 below a minimum transfer amount of 16 is not
      transferred. */
  lemma MinimumTransferAmount()
    ensures SingleItemDeliveryAmount(5.0, 100.0, 0.0, 0.0, 0.0, 0.0, 0.0, 15.0, 0.0,
                                     Allocated, None, 16.0, 0.5, 0.0) == Ok(0.0)
  {
  }

  /** A disputed delivery amount of 3.5 comes off after netting: deliver
      6.5, already a multiple of the 0.5 increment. */
  lemma DisputedDeliveryAmount()
    ensures SingleItemDeliveryAmount(5.0, 100.0, 0.0, 0.0, 0.0, 0.0, 0.0, 15.0, 0.0,
                                     Allocated, None, 0.0, 0.5, 3.5) == Ok(6.5)
  {
  }

  // Inputs on which the ordering choices of the calculation show; none of
  // the worked examples above tells these orders apart.

  /** The threshold comes off after the greater-of maximum: 18 - 10 - 5 = 3
      (taking the maximum of 15 - 10 and 18 would give 13). */
  lemma ThresholdAfterIndependentAmount()
    ensures SingleItemDeliveryAmount(5.0, 100.0, 0.0, 0.0, 0.0, 0.0, 0.0, 15.0, 10.0,
                                     GreaterOf, Some(18.0), 0.0, 0.5, 0.0) == Ok(3.0)
  {
  }

  /** Margin less threshold is not floored before netting: an item of 1,
      a prior return of 4, margin 5 and threshold 10 give 5 - 10 - (1 - 4)
      = -2 and deliver 0 (flooring 5 - 10 at 0 first would give 3). */
  lemma NoFloorBeforeNetting()
    ensures SingleItemDeliveryAmount(1.0, 100.0, 0.0, 0.0, 0.0, 4.0, 0.0, 5.0, 10.0,
                                     Allocated, None, 0.0, 0.5, 0.0) == Ok(0.0)
  {
  }

  /** The disputed delivery amount comes off before the minimum-transfer
      gate: 10 - 3.5 = 6.5 is below a minimum of 8, so 0 is delivered
      (gating 10 first would deliver 6.5). */
  lemma DisputedDeliveryBeforeGate()
    ensures SingleItemDeliveryAmount(5.0, 100.0, 0.0, 0.0, 0.0, 0.0, 0.0, 15.0, 0.0,
                                     Allocated, None, 8.0, 0.5, 3.5) == Ok(0.0)
  {
  }

  /** The gate compares the unrounded amount: 9.8 is below a minimum of 10,
      so 0 is delivered (rounding to 10 first would deliver 10). */
  lemma GateOnUnroundedAmount()
    ensures SingleItemDeliveryAmount(5.0, 100.0, 0.0, 0.0, 0.0, 0.0, 0.0, 14.8, 0.0,
                                     Allocated, None, 10.0, 0.5, 0.0) == Ok(0.0)
  {
  }
}
