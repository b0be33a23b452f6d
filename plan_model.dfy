/**
  The subscription plan record of PlanModel.swift. Its button and border
  colours are derived once, in the initialiser, from `isPopular` alone.
 */
module PlanModel {
  import opened Colors

  /** `PlanFeature` (its random `id` aside). */
  datatype PlanFeature = PlanFeature(iconName: string, iconColor: Color, text: string)

  /** The stored fields of `Plan` (its random `id` aside), the two derived colours included. */
  datatype PlanRecord = PlanRecord(
    name: string,
    price: string,
    priceAmount: int,
    features: seq<PlanFeature>,
    isPopular: bool,
    buttonColor: Color,
    borderColor: Color)

  /** The colours the initialiser derives from `isPopular`. */
  predicate ColorsFollowPopularity(p: PlanRecord) {
    && p.buttonColor == (if p.isPopular then Blue else Gray)
    && p.borderColor == (if p.isPopular then Blue else Separator)
  }

  /**
    `Plan`: the initialiser is its only way in, so every plan's colours
    are the ones derived from its popularity.
   */
  type Plan = p: PlanRecord | ColorsFollowPopularity(p)
    witness PlanRecord("", "", 0, [], false, Gray, Separator)

  /**
    `Plan(name:price:priceAmount:features:isPopular:)`: stores its arguments
    unchanged (features in order); a popular plan gets a blue button and
    border, any other a gray button and the separator colour as border.
   */
  function NewPlan(name: string, price: string, priceAmount: int, features: seq<PlanFeature>, isPopular: bool := false): (p: Plan)
    ensures p.name == name && p.price == price && p.priceAmount == priceAmount
    ensures p.features == features && p.isPopular == isPopular
    ensures p.buttonColor == Blue <==> isPopular
    ensures p.borderColor == Blue <==> isPopular
    ensures !isPopular ==> p.buttonColor == Gray && p.borderColor == Separator
  {
    PlanRecord(
      name, price, priceAmount, features, isPopular,
      if isPopular then Blue else Gray,
      if isPopular then Blue else Separator)
  }

  /** The derived colours depend on nothing but `isPopular`. */
  lemma ColorsDependOnlyOnPopularity(p: Plan, q: Plan)
    requires p.isPopular == q.isPopular
    ensures p.buttonColor == q.buttonColor && p.borderColor == q.borderColor
  {
  }

  /** Every plan is what the initialiser builds from its stored arguments. */
  lemma EveryPlanIsBuilt(p: Plan)
    ensures p == NewPlan(p.name, p.price, p.priceAmount, p.features, p.isPopular)
  {
  }

  /** Leaving out `isPopular` gives an ordinary plan. */
  lemma PopularDefaultsToFalse(name: string, price: string, priceAmount: int, features: seq<PlanFeature>)
    ensures !NewPlan(name, price, priceAmount, features).isPopular
    ensures NewPlan(name, price, priceAmount, features).buttonColor == Gray
    ensures NewPlan(name, price, priceAmount, features).borderColor == Separator
  {
  }
}
