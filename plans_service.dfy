/**
  The plan providers of PlansService.swift: the production catalogue and the
  test double, both returning a fixed list.
 */
module PlansServices {
  import opened Wrappers
  import opened Colors
  import opened PlanModel

  /** The implementations of `PlansServiceProtocol`. */
  datatype PlansProvider =
    | Production
    | Mock(mockPlans: seq<Plan>)
  {
    /** `getAvailablePlans()`. */
    function AvailablePlans(): seq<Plan> {
      match this
      case Production => Catalogue()
      case Mock(plans) => plans
    }
  }

  /** The three plans `PlansService` offers; only the middle one is popular. */
  function Catalogue(): seq<Plan> {
    [ NewPlan("Super 299", "₹299", 299, [
        PlanFeature("arrow.up.arrow.down", Blue, "3GB/day"),
        PlanFeature("phone.fill", Green, "1000 mins"),
        PlanFeature("envelope.fill", Purple, "100 SMS")]),
      NewPlan("Max 499", "₹499", 499, [
        PlanFeature("arrow.up.arrow.down", Blue, "5GB/day"),
        PlanFeature("phone.fill", Green, "Unlimited"),
        PlanFeature("envelope.fill", Purple, "500 SMS")], isPopular := true),
      NewPlan("Power 799", "₹799", 799, [
        PlanFeature("arrow.up.arrow.down", Blue, "10GB/day"),
        PlanFeature("phone.fill", Green, "Unlimited"),
        PlanFeature("envelope.fill", Purple, "1000 SMS")], isPopular := false) ]
  }

  /** `MockPlansService(mockPlans:)`: the given list, or one "Test Plan" when none is given. */
  function NewMockPlansService(mockPlans: Option<seq<Plan>> := None): (service: PlansProvider)
    ensures mockPlans.Some? ==> service.AvailablePlans() == mockPlans.value
    ensures mockPlans.None? ==>
      && |service.AvailablePlans()| == 1 && service.AvailablePlans()[0].name == "Test Plan"
      && service.AvailablePlans()[0].priceAmount == 199 && !service.AvailablePlans()[0].isPopular
  {
    Mock(
      if mockPlans.Some? then mockPlans.value
      else [NewPlan("Test Plan", "₹199", 199, [PlanFeature("arrow.up.arrow.down", Blue, "1GB/day")])])
  }

  /**
    The plan-validation test over both providers' default lists: every plan has
    a name, a price text and a positive amount; in the production catalogue only
    "Max 499" is popular, so only its button and border are blue.
   */
  lemma DefaultPlansAreValid()
    ensures forall p :: p in Catalogue() + NewMockPlansService().mockPlans ==> |p.name| > 0 && |p.price| > 0 && p.priceAmount > 0
    ensures forall i :: 0 <= i < |Catalogue()| ==> (Catalogue()[i].isPopular <==> Catalogue()[i].name == "Max 499")
    ensures forall i :: 0 <= i < |Catalogue()| ==> (Catalogue()[i].buttonColor == Blue <==> i == 1)
  {
  }
}
