/**
 * The credit-support-annex margin delivery amount: the amount of collateral
 * a party must deliver on a margin call, computed from the collateral it has
 * already posted, prior-period adjustments, disputes, the margin requirement
 * and the contractual threshold, minimum transfer amount and rounding.
 *
 * All amounts are exact decimals, modelled as `real`; every amount is taken
 * to be in the base currency (the caller converts beforehand).
 */
module CreditSupport {
  import opened Wrappers
  import opened Rounding

  /** A currency amount; the currency code is carried but never converted. */
  datatype Money = Money(amount: real, currency: string)

  /** One posted collateral asset and its valuation treatment. Percentages
      are in percent units: 90 means 90%. */
  datatype PostedCreditSupportItem = PostedCreditSupportItem(
    cashOrSecurityValue: Money,
    valuationPercentage: real,
    fxHaircutPercentage: real,
    disputedCashOrSecurityValue: Money)

  /** Rounding increments agreed for each transfer direction; only
      `deliveryAmount` is used by the delivery calculation. */
  datatype CollateralRounding = CollateralRounding(deliveryAmount: real, returnAmount: real)

  /** How the margin amount is combined with an independent amount. */
  datatype MarginApproach = Allocated | GreaterOf

  /** The inputs the calculation refuses. */
  datatype CalculationError = NegativeRoundingIncrement

  // ---------------------------------------------------------------------
  // Item valuation and collateral netting

  /** Credit-support value of one item: its value scaled by the valuation
      percentage less the FX haircut percentage. A net percentage of 100
      counts the full value; one between 0 and 100 never counts more than
      the value, nor less than nothing. */
  function ItemValue(item: PostedCreditSupportItem): (v: real)
    ensures item.valuationPercentage - item.fxHaircutPercentage == 100.0
            ==> v == item.cashOrSecurityValue.amount
    ensures item.cashOrSecurityValue.amount >= 0.0
            && 0.0 <= item.valuationPercentage - item.fxHaircutPercentage <= 100.0
            ==> 0.0 <= v <= item.cashOrSecurityValue.amount
  {
    var value, pct := item.cashOrSecurityValue.amount,
                      item.valuationPercentage - item.fxHaircutPercentage;
    assert value >= 0.0 && 0.0 <= pct <= 100.0 ==> 0.0 <= value * pct <= value * 100.0 by {
      if value >= 0.0 && 0.0 <= pct <= 100.0 {
        assert value * (100.0 - pct) >= 0.0;
      }
    }
    value * pct / 100.0
  }

  /** Counted value of one item: its credit-support value less the disputed
      part of its value, deducted in full after scaling. A dispute can only
      lower the counted value, and without one the item counts its
      credit-support value. */
  function NetItemValue(item: PostedCreditSupportItem): (v: real)
    ensures item.disputedCashOrSecurityValue.amount >= 0.0 ==> v <= ItemValue(item)
    ensures item.disputedCashOrSecurityValue.amount == 0.0 ==> v == ItemValue(item)
  {
    ItemValue(item) - item.disputedCashOrSecurityValue.amount
  }

  /** Counted value of all posted items; nothing for an empty list. */
  function SumCollateral(items: seq<PostedCreditSupportItem>): (r: real)
    ensures items == [] ==> r == 0.0
  {
    if items == [] then 0.0 else NetItemValue(items[0]) + SumCollateral(items[1..])
  }

  /** When no item counts negatively, neither does the total. */
  lemma {:induction false} SumCollateralNonNegative(items: seq<PostedCreditSupportItem>)
    requires forall i | 0 <= i < |items| :: NetItemValue(items[i]) >= 0.0
    ensures SumCollateral(items) >= 0.0
  {
    if items != [] {
      assert forall i | 0 <= i < |items[1..]| :: items[1..][i] == items[i + 1];
      SumCollateralNonNegative(items[1..]);
    }
  }

  /** The haircut erodes the valuation percentage linearly: each percentage
      point of haircut removes one hundredth of the item's value, so the
      haircut is subtracted, not compounded. */
  lemma HaircutIsLinear(item: PostedCreditSupportItem)
    ensures ItemValue(item)
      == ItemValue(item.(fxHaircutPercentage := 0.0))
         - item.cashOrSecurityValue.amount * item.fxHaircutPercentage / 100.0
  {
  }

  /** At 100% valuation and no haircut an item counts at its full value,
      less whatever part of it is disputed. */
  lemma FullValuationCountsFaceValue(item: PostedCreditSupportItem)
    requires item.valuationPercentage == 100.0 && item.fxHaircutPercentage == 0.0
    ensures NetItemValue(item)
      == item.cashOrSecurityValue.amount - item.disputedCashOrSecurityValue.amount
  {
  }

  /** The counted value of a concatenation is the sum of the counted values. */
  lemma {:induction false} SumCollateralAppend(a: seq<PostedCreditSupportItem>, b: seq<PostedCreditSupportItem>)
    ensures SumCollateral(a + b) == SumCollateral(a) + SumCollateral(b)
  {
    if a == [] {
      assert a + b == b;
    } else {
      assert (a + b)[1..] == a[1..] + b;
      SumCollateralAppend(a[1..], b);
    }
  }

  /** The counted value of a single item is that item's net value. */
  lemma SumCollateralSingleton(item: PostedCreditSupportItem)
    ensures SumCollateral([item]) == NetItemValue(item)
  {
    assert [item][1..] == [];
  }

  /** Replacing one item changes the total by exactly the change in that
      item's net value. */
  lemma SumCollateralReplace(items: seq<PostedCreditSupportItem>, j: nat, item: PostedCreditSupportItem)
    requires j < |items|
    ensures SumCollateral(items[j := item])
      == SumCollateral(items) - NetItemValue(items[j]) + NetItemValue(item)
  {
    var pre, post := items[..j], items[j + 1..];
    assert items == pre + [items[j]] + post;
    assert items[j := item] == pre + [item] + post;
    SumCollateralAppend(pre + [items[j]], post);
    SumCollateralAppend(pre, [items[j]]);
    SumCollateralAppend(pre + [item], post);
    SumCollateralAppend(pre, [item]);
    SumCollateralSingleton(items[j]);
    SumCollateralSingleton(item);
  }

  /** A dispute on one item removes exactly the disputed amount, unscaled by
      the valuation percentage, from the counted collateral. */
  lemma ItemDisputeDeductedInFull(items: seq<PostedCreditSupportItem>, j: nat, disputed: real)
    requires j < |items|
    ensures SumCollateral(items[j := items[j].(disputedCashOrSecurityValue :=
                items[j].disputedCashOrSecurityValue.(amount := disputed))])
      == SumCollateral(items) + items[j].disputedCashOrSecurityValue.amount - disputed
  {
    var it := items[j].(disputedCashOrSecurityValue :=
                items[j].disputedCashOrSecurityValue.(amount := disputed));
    assert ItemValue(it) == ItemValue(items[j]);
    assert NetItemValue(it)
        == NetItemValue(items[j]) + items[j].disputedCashOrSecurityValue.amount - disputed;
    SumCollateralReplace(items, j, it);
  }

  /** The order of the posted items does not matter. */
  lemma {:induction false} SumCollateralPermutation(a: seq<PostedCreditSupportItem>, b: seq<PostedCreditSupportItem>)
    requires multiset(a) == multiset(b)
    ensures SumCollateral(a) == SumCollateral(b)
    decreases |a|
  {
    if a == [] {
      assert |b| == |multiset(b)| == 0;
    } else {
      assert a[0] in multiset(b);
      var j :| 0 <= j < |b| && b[j] == a[0];
      var rest := b[..j] + b[j + 1..];
      assert b == b[..j] + [b[j]] + b[j + 1..];
      assert a == [a[0]] + a[1..];
      assert multiset(a[1..]) == multiset(rest) by {
        assert multiset(b) == multiset(b[..j]) + multiset{b[j]} + multiset(b[j + 1..]);
        assert multiset(a) == multiset{a[0]} + multiset(a[1..]);
        assert multiset(rest) == multiset(b[..j]) + multiset(b[j + 1..]);
        assert multiset(a[1..]) == multiset(a) - multiset{a[0]};
        assert multiset(rest) == multiset(b) - multiset{b[j]};
      }
      SumCollateralPermutation(a[1..], rest);
      SumCollateralAppend(b[..j] + [b[j]], b[j + 1..]);
      SumCollateralAppend(b[..j], [b[j]]);
      SumCollateralAppend(b[..j], b[j + 1..]);
      SumCollateralSingleton(b[j]);
    }
  }

  /** Collateral counted as held: the posted items, plus what a prior
      delivery added, less what a prior return removed, less any transfer
      under dispute. */
  function PostedCreditSupportAmount(
    postedCreditSupportItems: seq<PostedCreditSupportItem>,
    priorDeliveryAmountAdjustment: Money,
    priorReturnAmountAdjustment: Money,
    disputedTransferredPostedCreditSupportAmount: Money): real
  {
    SumCollateral(postedCreditSupportItems)
      + priorDeliveryAmountAdjustment.amount
      - priorReturnAmountAdjustment.amount
      - disputedTransferredPostedCreditSupportAmount.amount
  }

  // ---------------------------------------------------------------------
  // Exposure

  /** The amount of credit support required before the threshold: the
      margin amount, or under the greater-of approach the larger of it and
      the independent amount when one is given. */
  function RequiredAmount(marginAmount: Money, marginApproach: MarginApproach, marginAmountIA: Option<Money>): (r: real)
    ensures r >= marginAmount.amount
    ensures marginApproach == GreaterOf && marginAmountIA.Some? ==> r >= marginAmountIA.value.amount
    ensures r == marginAmount.amount
         || (marginApproach == GreaterOf && marginAmountIA.Some? && r == marginAmountIA.value.amount)
  {
    match marginApproach
    case Allocated => marginAmount.amount
    case GreaterOf =>
      match marginAmountIA
      case None => marginAmount.amount
      case Some(ia) => if ia.amount > marginAmount.amount then ia.amount else marginAmount.amount
  }

  /** The delivery amount before the minimum-transfer gate and rounding:
      exposure above the threshold, less counted collateral, less the
      delivery amount still under dispute. */
  function UndisputedDeliveryAmount(
    postedCreditSupportItems: seq<PostedCreditSupportItem>,
    priorDeliveryAmountAdjustment: Money,
    priorReturnAmountAdjustment: Money,
    disputedTransferredPostedCreditSupportAmount: Money,
    marginAmount: Money,
    threshold: Money,
    marginApproach: MarginApproach,
    marginAmountIA: Option<Money>,
    disputedDeliveryAmount: Money): real
  {
    RequiredAmount(marginAmount, marginApproach, marginAmountIA)
      - threshold.amount
      - PostedCreditSupportAmount(postedCreditSupportItems, priorDeliveryAmountAdjustment,
                                  priorReturnAmountAdjustment,
                                  disputedTransferredPostedCreditSupportAmount)
      - disputedDeliveryAmount.amount
  }

  // ---------------------------------------------------------------------
  // Minimum transfer amount and rounding

  /**
   * The amount actually transferred for an unrounded amount `raw`: nothing
   * when `raw` is below the minimum transfer amount, otherwise `raw` rounded
   * to the increment; never negative.
   */
  function TransferAmount(raw: real, minimumTransferAmount: real, increment: real): (r: real)
    requires increment >= 0.0
    ensures r >= 0.0
    ensures raw < minimumTransferAmount ==> r == 0.0
    ensures raw < 0.0 ==> r == 0.0
    ensures minimumTransferAmount <= raw && 0.0 <= raw ==> r == RoundToNearest(raw, increment)
  {
    if raw < minimumTransferAmount then 0.0
    else
      var rounded := RoundToNearest(raw, increment);
      if rounded < 0.0 then 0.0
      else
        assert raw < 0.0 ==> rounded <= 0.0 by {
          if raw < 0.0 && increment > 0.0 {
            RoundToNearestMonotone(raw, 0.0, increment);
            RoundToNearestFixesMultiples(0, increment);
          }
        }
        assert 0.0 <= raw ==> rounded >= 0.0 by {
          if 0.0 <= raw {
            RoundToNearestNonNegative(raw, increment);
          }
        }
        rounded
  }

  /** A larger unrounded amount never yields a smaller transfer. */
  lemma TransferAmountMonotone(raw: real, raw': real, minimumTransferAmount: real, increment: real)
    requires increment >= 0.0
    requires raw <= raw'
    ensures TransferAmount(raw, minimumTransferAmount, increment)
         <= TransferAmount(raw', minimumTransferAmount, increment)
  {
    if minimumTransferAmount <= raw {
      RoundToNearestMonotone(raw, raw', increment);
    }
  }

  /** The transferred amount is already rounded: rounding it again changes
      nothing. */
  lemma TransferAmountIsRounded(raw: real, minimumTransferAmount: real, increment: real)
    requires increment >= 0.0
    ensures RoundToNearest(TransferAmount(raw, minimumTransferAmount, increment), increment)
         == TransferAmount(raw, minimumTransferAmount, increment)
  {
    var r := TransferAmount(raw, minimumTransferAmount, increment);
    if r == 0.0 {
      if increment > 0.0 {
        RoundToNearestFixesMultiples(0, increment);
      }
    } else {
      RoundToNearestIdempotent(raw, increment);
    }
  }

  // ---------------------------------------------------------------------
  // The calculation

  /**
   * The margin delivery amount, in the base currency. A negative rounding
   * increment is refused; every other input yields a non-negative amount.
   */
  function DeliveryAmount(
    postedCreditSupportItems: seq<PostedCreditSupportItem>,
    priorDeliveryAmountAdjustment: Money,
    priorReturnAmountAdjustment: Money,
    disputedTransferredPostedCreditSupportAmount: Money,
    marginAmount: Money,
    threshold: Money,
    marginApproach: MarginApproach,
    marginAmountIA: Option<Money>,
    minimumTransferAmount: Money,
    rounding: CollateralRounding,
    disputedDeliveryAmount: Money,
    baseCurrency: string): (r: Result<Money, CalculationError>)
    ensures r.Err? <==> rounding.deliveryAmount < 0.0
    ensures r.Ok? ==> r.value.currency == baseCurrency && r.value.amount >= 0.0
    ensures r.Ok? ==> r.value.amount == TransferAmount(
      UndisputedDeliveryAmount(postedCreditSupportItems, priorDeliveryAmountAdjustment,
                               priorReturnAmountAdjustment,
                               disputedTransferredPostedCreditSupportAmount, marginAmount,
                               threshold, marginApproach, marginAmountIA,
                               disputedDeliveryAmount),
      minimumTransferAmount.amount, rounding.deliveryAmount)
  {
    if rounding.deliveryAmount < 0.0 then Err(NegativeRoundingIncrement)
    else
      var raw := UndisputedDeliveryAmount(
        postedCreditSupportItems, priorDeliveryAmountAdjustment, priorReturnAmountAdjustment,
        disputedTransferredPostedCreditSupportAmount, marginAmount, threshold,
        marginApproach, marginAmountIA, disputedDeliveryAmount);
      Ok(Money(TransferAmount(raw, minimumTransferAmount.amount, rounding.deliveryAmount),
               baseCurrency))
  }
}
