# Margin delivery amount

A Dafny model of the credit-support-annex (CSA) **margin delivery amount**
calculation of the ISDA Common Domain Model. `DeliveryAmount.evaluate`
computes it. It takes the posted credit-support items, the prior delivery
and return adjustments, the disputed transferred amount, the margin amount,
the threshold, the margin approach, an optional independent amount, the
minimum transfer amount, the collateral rounding and the disputed delivery
amount. From these it produces the `Money` the posting party must deliver,
in the base currency.

The implementation class is not part of this model. The worked examples in
`DeliveryAmountTest.java` fix what each input contributes; the order of the
steps below, and the other points listed under "Choices the examples do not
fix", are choices consistent with all ten examples:

1. Each posted item counts `cashOrSecurityValue * (valuationPercentage - fxHaircutPercentage) / 100`
   (`CreditSupport.ItemValue`). From that, its disputed value is deducted
   in full, after scaling (`CreditSupport.NetItemValue`).
2. These values are summed over the items (`CreditSupport.SumCollateral`). The
   prior delivery adjustment is added, and the prior return adjustment and
   the disputed transferred amount are subtracted
   (`CreditSupport.PostedCreditSupportAmount`).
3. The required amount is the margin amount. Under `GREATER_OF` it is the
   larger of the margin amount and the independent amount, when one is
   given; under `ALLOCATED` any independent amount is ignored
   (`CreditSupport.RequiredAmount`).
4. The threshold, the counted collateral and the disputed delivery amount
   are subtracted from the required amount
   (`CreditSupport.UndisputedDeliveryAmount`).
5. An amount below the minimum transfer amount becomes 0. Otherwise the
   amount is rounded to the nearest multiple of `rounding.deliveryAmount`
   (a choice; see below).
   The result is never negative (`CreditSupport.TransferAmount`).

Amounts are exact decimals, modelled as `real`. The currency code is carried
as an opaque string, and the result is always in the base currency.

Files:
- `wrappers.dfy`: `Option`, and `Result` for a result that may carry an error.
- `rounding.dfy`: rounding to a multiple of an increment, and its properties.
- `credit_support.dfy`: the data model and the calculation.
- `credit_support_properties.dfy`: how each input moves the result.
- `delivery_amount_scenarios.dfy`: the ten worked examples.

### Choices the examples do not fix

All ten expected results are already exact multiples of their rounding
increment. Only one example sits on the minimum transfer amount: with a
threshold (DeliveryAmountTest.java:147-165) the unrounded amount is
15 - 10 - 5 = 0 and the minimum transfer amount is 0, where a strict and a
non-strict comparison both give 0. The only example with an item dispute
values that item at 100% with no haircut, and every call under `ALLOCATED`
passes no independent amount. The following are therefore
choices, not behaviour the examples pin down. Each is stated in the members
named beside it:
- Rounding goes to the NEAREST multiple, not up or down:
  `Rounding.RoundToNearest`, `Rounding.RoundToNearestUnique`. An unrounded
  10.2 at an increment of 0.5 delivers 10, where rounding up would deliver
  10.5. The only evidence for "nearest" is the name of the helper's
  increment parameter, `roundToNearest` (DeliveryAmountTest.java:240).
- Ties go up, toward +infinity (not away from zero):
  `Rounding.RoundToNearestHalfUp`. The difference only shows for negative
  amounts, which are floored at 0 anyway.
- The minimum-transfer comparison is strict. An amount equal to the minimum
  is transferred: `CreditSupportProperties.AtOrAboveMinimumTransferAmountIsRounded`.
- A negative amount is floored at 0: `CreditSupport.TransferAmount`.
- A rounding increment of 0 means no rounding: `Rounding.RoundToNearest`.
- A negative increment is refused with `NegativeRoundingIncrement`:
  `CreditSupport.DeliveryAmount`.
- An item's disputed value is deducted after the valuation scaling, at its
  full unscaled amount: `CreditSupport.ItemDisputeDeductedInFull`. The one
  example with an item dispute (DeliveryAmountTest.java:67-85) values the
  item at 100% with no haircut, so scaling the dispute would give the same
  12 there; the rules differ for, say, an item of 10 at 50% with a dispute
  of 2 (12 here, 11 if the dispute were scaled).
- Under `GREATER_OF`, a missing independent amount falls back to the margin
  amount: `CreditSupport.RequiredAmount`,
  `CreditSupportProperties.GreaterOfAgreesWithAllocatedUnlessIndependentAmountExceeds`.
- The threshold comes off after the `GREATER_OF` maximum, not from the
  margin amount alone: `CreditSupport.UndisputedDeliveryAmount`,
  `DeliveryAmountScenarios.ThresholdAfterIndependentAmount`. The one
  `GREATER_OF` example (DeliveryAmountTest.java:167-185) has threshold 0.
  One item of 5, margin 15, threshold 10 and independent amount 18 deliver
  3 here; taking the maximum of 15 - 10 and 18 would deliver 13.
- Nothing is floored before the final floor at 0; margin less threshold may
  go negative: `CreditSupport.UndisputedDeliveryAmount`,
  `DeliveryAmountScenarios.NoFloorBeforeNetting`. An item of 1, a prior
  return adjustment of 4, margin 5 and threshold 10 deliver 0 here;
  flooring 5 - 10 at 0 first would deliver 3.
- The disputed delivery amount comes off before the minimum-transfer gate:
  `CreditSupport.UndisputedDeliveryAmount`,
  `DeliveryAmountScenarios.DisputedDeliveryBeforeGate`. The one example with
  a disputed delivery amount (DeliveryAmountTest.java:207-225) has a
  minimum of 0. An unrounded 10 with a disputed delivery amount of 3.5 and a
  minimum of 8 delivers 0 here; gating 10 first would deliver 6.5.
- The gate compares the unrounded amount, before rounding:
  `CreditSupport.TransferAmount`, `DeliveryAmountScenarios.GateOnUnroundedAmount`.
  In the minimum-transfer example (DeliveryAmountTest.java:187-205) rounding
  leaves 10 unchanged. An unrounded 9.8 against a minimum of 10 at increment
  0.5 delivers 0 here; rounding to 10 first would deliver 10.
- Under `ALLOCATED`, an independent amount that is present is ignored:
  `CreditSupportProperties.AllocatedIgnoresIndependentAmount`.

## Model

| member | source | states |
|---|---|---|
| `Rounding.RoundToNearest` | src/test/java/org/isda/cdm/functions/DeliveryAmountTest.java:250-251 | an increment of 0 leaves the amount unchanged; otherwise the result is within half an increment of the amount (more than half below is excluded, exactly half above is allowed) |
| `Rounding.RoundToNearestUnique` | src/test/java/org/isda/cdm/functions/DeliveryAmountTest.java:250-251 | every whole multiple of the increment in that half-open window is the rounded value, so the result is the nearest multiple |
| `Rounding.RoundToNearestFixesMultiples` | src/test/java/org/isda/cdm/functions/DeliveryAmountTest.java:250-251 | an amount that is already a multiple of the increment is unchanged |
| `Rounding.RoundToNearestIsMultiple` | src/test/java/org/isda/cdm/functions/DeliveryAmountTest.java:250-251 | with a positive increment the rounded value is a whole multiple of the increment, the one in the half-open window around the amount |
| `Rounding.RoundToNearestIdempotent` | src/test/java/org/isda/cdm/functions/DeliveryAmountTest.java:250-251 | rounding twice gives the same as rounding once |
| `Rounding.RoundToNearestHalfUp` | src/test/java/org/isda/cdm/functions/DeliveryAmountTest.java:250-251 | an amount exactly half-way between two multiples rounds to the upper one, toward +infinity also for negative amounts |
| `Rounding.RoundToNearestMonotone` | src/test/java/org/isda/cdm/functions/DeliveryAmountTest.java:250-251 | rounding preserves order |
| `Rounding.RoundToNearestNonNegative` | src/test/java/org/isda/cdm/functions/DeliveryAmountTest.java:250-251 | a non-negative amount rounds to a non-negative one |
| `CreditSupport.ItemValue` | src/test/java/org/isda/cdm/functions/DeliveryAmountTest.java:243-246 | an item's credit-support value is its value scaled by valuation% minus haircut%: a net 100% counts the full value, a net percentage in [0, 100] counts between 0 and the value; linearity in the haircut is `HaircutIsLinear` |
| `CreditSupport.NetItemValue` | src/test/java/org/isda/cdm/functions/DeliveryAmountTest.java:243-247 | a non-negative dispute can only lower an item's counted value and no dispute leaves its credit-support value; that the dispute comes off unscaled is `ItemDisputeDeductedInFull` (a choice, see above) |
| `CreditSupport.SumCollateral` | src/test/java/org/isda/cdm/functions/DeliveryAmountTest.java:243-248 | an empty item list counts 0; additivity, order independence and sign are `SumCollateralAppend`, `SumCollateralPermutation` and `SumCollateralNonNegative` |
| `CreditSupport.HaircutIsLinear` | src/test/java/org/isda/cdm/functions/DeliveryAmountTest.java:47-65 | the FX haircut is subtracted from the valuation percentage, not compounded: each haircut point removes value/100 from the item's credit-support value |
| `CreditSupport.FullValuationCountsFaceValue` | src/test/java/org/isda/cdm/functions/DeliveryAmountTest.java:27-45 | at 100% valuation and no haircut, an item counts at its value less its disputed value |
| `CreditSupport.SumCollateralAppend` | src/test/java/org/isda/cdm/functions/DeliveryAmountTest.java:243-248 | the counted value of two item lists joined is the sum of their counted values |
| `CreditSupport.SumCollateralSingleton` | src/test/java/org/isda/cdm/functions/DeliveryAmountTest.java:243-248 | a one-item list counts that item's net value |
| `CreditSupport.SumCollateralReplace` | src/test/java/org/isda/cdm/functions/DeliveryAmountTest.java:243-248 | replacing one item changes the total by exactly the change in that item's net value |
| `CreditSupport.ItemDisputeDeductedInFull` | src/test/java/org/isda/cdm/functions/DeliveryAmountTest.java:67-85 | changing an item's disputed value moves the counted collateral by exactly that change, unscaled by the valuation percentage (a choice: the example at 100% valuation is consistent with it but does not rule out scaling) |
| `CreditSupport.SumCollateralPermutation` | src/test/java/org/isda/cdm/functions/DeliveryAmountTest.java:243 | item lists with the same items in any order count the same |
| `CreditSupport.SumCollateralNonNegative` | src/test/java/org/isda/cdm/functions/DeliveryAmountTest.java:243-248 | when no item counts negatively the total counted collateral is non-negative |
| `CreditSupport.PostedCreditSupportAmount` | src/test/java/org/isda/cdm/functions/DeliveryAmountTest.java:87-145 | counted collateral is the item total plus the prior delivery adjustment, less the prior return adjustment and the disputed transfer; each one's exact effect is stated by `CreditSupportProperties.AdjustmentDirections`, the one-item closed form by `DeliveryAmountScenarios.SingleItemDeliveryAmount` |
| `CreditSupport.RequiredAmount` | src/test/java/org/isda/cdm/functions/DeliveryAmountTest.java:167-185 | the result is the maximum of the margin amount and, only under GREATER_OF with an independent amount present, that independent amount: it is at least each of them and equal to one of them |
| `CreditSupport.UndisputedDeliveryAmount` | src/test/java/org/isda/cdm/functions/DeliveryAmountTest.java:147-225 | the unrounded amount is the required amount less the threshold, the counted collateral and the disputed delivery amount; its exact sensitivity to each input is `CreditSupportProperties.AdjustmentDirections`, its closed form for one item `DeliveryAmountScenarios.SingleItemDeliveryAmount` |
| `CreditSupport.TransferAmount` | src/test/java/org/isda/cdm/functions/DeliveryAmountTest.java:187-205 | never negative; 0 when the unrounded amount is below the minimum transfer amount or negative; otherwise the unrounded amount rounded to the increment |
| `CreditSupport.TransferAmountMonotone` | src/test/java/org/isda/cdm/functions/DeliveryAmountTest.java:187-205 | a larger unrounded amount never gives a smaller transfer, across the minimum-transfer gate |
| `CreditSupport.TransferAmountIsRounded` | src/test/java/org/isda/cdm/functions/DeliveryAmountTest.java:250-251 | the transferred amount is unchanged by rounding it again |
| `CreditSupport.DeliveryAmount` | src/test/java/org/isda/cdm/functions/DeliveryAmountTest.java:255-266 | refused exactly when the rounding increment is negative; otherwise a non-negative amount in the base currency, equal to the gated and rounded undisputed delivery amount |
| `CreditSupportProperties.AdjustmentDirections` | src/test/java/org/isda/cdm/functions/DeliveryAmountTest.java:87-225 | raising the prior delivery adjustment, the threshold or the disputed delivery amount by d lowers the unrounded amount by exactly d; raising the prior return adjustment or the disputed transfer by d raises it by d |
| `CreditSupportProperties.AllocatedIgnoresIndependentAmount` | src/test/java/org/isda/cdm/functions/DeliveryAmountTest.java:262 | under ALLOCATED, the independent amount, present or absent, does not change the result (the examples only pass it absent; ignoring a present one is a choice) |
| `CreditSupportProperties.GreaterOfAgreesWithAllocatedUnlessIndependentAmountExceeds` | src/test/java/org/isda/cdm/functions/DeliveryAmountTest.java:167-185 | GREATER_OF equals ALLOCATED when the independent amount is absent or at most the margin amount; otherwise it equals ALLOCATED with the independent amount as margin |
| `CreditSupportProperties.BelowMinimumTransferAmountIsZero` | src/test/java/org/isda/cdm/functions/DeliveryAmountTest.java:187-205 | an unrounded amount below the minimum transfer amount delivers exactly 0 in the base currency, whatever the increment |
| `CreditSupportProperties.AtOrAboveMinimumTransferAmountIsRounded` | src/test/java/org/isda/cdm/functions/DeliveryAmountTest.java:250-253 | a non-negative unrounded amount at or above the minimum is delivered within half an increment of itself, and unchanged with a zero increment |
| `CreditSupportProperties.DeliveryAmountIsRounded` | src/test/java/org/isda/cdm/functions/DeliveryAmountTest.java:250-251 | every delivered amount is a fixed point of the rounding |
| `CreditSupportProperties.MoreCollateralNeverIncreasesDelivery` | src/test/java/org/isda/cdm/functions/DeliveryAmountTest.java:243-266 | posting an extra item of non-negative net value never increases the delivery amount |
| `CreditSupportProperties.HigherThresholdNeverIncreasesDelivery` | src/test/java/org/isda/cdm/functions/DeliveryAmountTest.java:147-165 | a higher threshold never increases the delivery amount |
| `CreditSupportProperties.PostedItemOrderIrrelevant` | src/test/java/org/isda/cdm/functions/DeliveryAmountTest.java:243 | reordering the posted items does not change the delivery amount |
| `DeliveryAmountScenarios.SingleItemDeliveryAmount` | src/test/java/org/isda/cdm/functions/DeliveryAmountTest.java:227-269 | the test helper's one-item call is refused exactly when the increment is negative; otherwise it gives the transfer of the closed-form amount: required − threshold − (value·(val% − haircut%)/100 − disputed value) − prior delivery + prior return + disputed transfer − disputed delivery |
| `DeliveryAmountScenarios.Baseline` | src/test/java/org/isda/cdm/functions/DeliveryAmountTest.java:27-45 | one item of 5 at 100%, margin 15, increment 0.5: exactly 10 |
| `DeliveryAmountScenarios.ValuationPercentageAndFxHaircut` | src/test/java/org/isda/cdm/functions/DeliveryAmountTest.java:47-65 | 90% valuation and an 8% haircut on 5, increment 0.01: exactly 10.9 |
| `DeliveryAmountScenarios.DisputedPostedCreditSupportAmount` | src/test/java/org/isda/cdm/functions/DeliveryAmountTest.java:67-85 | disputed item value 2: exactly 12 |
| `DeliveryAmountScenarios.PriorDeliveryAmountAdjustment` | src/test/java/org/isda/cdm/functions/DeliveryAmountTest.java:87-105 | prior delivery adjustment 1: exactly 9 |
| `DeliveryAmountScenarios.PriorReturnAmountAdjustment` | src/test/java/org/isda/cdm/functions/DeliveryAmountTest.java:107-125 | prior return adjustment 1: exactly 11 |
| `DeliveryAmountScenarios.DisputedTransferredPostedCreditSupportAmount` | src/test/java/org/isda/cdm/functions/DeliveryAmountTest.java:127-145 | disputed transferred amount 2: exactly 12 |
| `DeliveryAmountScenarios.Threshold` | src/test/java/org/isda/cdm/functions/DeliveryAmountTest.java:147-165 | threshold 10 against margin 15 and collateral 5: exactly 0 |
| `DeliveryAmountScenarios.MarginApproachGreaterOf` | src/test/java/org/isda/cdm/functions/DeliveryAmountTest.java:167-185 | GREATER_OF with independent amount 18 over margin 15: exactly 13 |
| `DeliveryAmountScenarios.MinimumTransferAmount` | src/test/java/org/isda/cdm/functions/DeliveryAmountTest.java:187-205 | amount 10 below minimum transfer 16: exactly 0 |
| `DeliveryAmountScenarios.DisputedDeliveryAmount` | src/test/java/org/isda/cdm/functions/DeliveryAmountTest.java:207-225 | disputed delivery amount 3.5: exactly 6.5 |
| `DeliveryAmountScenarios.ThresholdAfterIndependentAmount` | src/test/java/org/isda/cdm/functions/DeliveryAmountTest.java:167-185 | a choice the examples leave open: with threshold 10 and independent amount 18 over margin 15, the threshold comes off the maximum and 3 is delivered |
| `DeliveryAmountScenarios.NoFloorBeforeNetting` | src/test/java/org/isda/cdm/functions/DeliveryAmountTest.java:147-165 | a choice the examples leave open: margin less threshold is not floored before netting, so an unrounded -2 delivers 0 rather than 3 |
| `DeliveryAmountScenarios.DisputedDeliveryBeforeGate` | src/test/java/org/isda/cdm/functions/DeliveryAmountTest.java:207-225 | a choice the examples leave open: the disputed delivery amount comes off before the gate, so 10 - 3.5 against a minimum of 8 delivers 0 |
| `DeliveryAmountScenarios.GateOnUnroundedAmount` | src/test/java/org/isda/cdm/functions/DeliveryAmountTest.java:187-205 | a choice the examples leave open: the gate sees the unrounded 9.8 below a minimum of 10 and delivers 0 |

## Left out

- Dependency injection and the test harness: framework plumbing with no effect on the amount.
- Rosetta builders, currency metadata and the ISO 4217 scheme URI: value construction only. The currency is an opaque string.
- The `double` inputs, the conversion to `double` and the 1e-10 tolerance: floating-point artefacts of the test. Amounts are exact `real`s, and the scenarios are exact equalities.
- The return-amount rounding increment: carried in `CollateralRounding` but not used by the delivery calculation. The symmetric return-amount calculation is not part of this model.
- Currency mismatch checks and currency conversion: the calculation assumes every amount is already in the base currency and compares no currency codes.
- Absent required amounts: every `Money` input except the independent amount is non-optional by type, so the "missing input" error cannot arise.
- The internal structure of the `DeliveryAmount` class: it is not part of this model. Only the input-to-output behaviour is modelled.
