/**
  `PlansViewModel` of PlansViewModel.swift: a list of plans that loading
  overwrites with whatever the provider returns.
 */
module PlansViewModels {
  import opened Wrappers
  import opened PlanModel
  import opened PlansServices

  class PlansViewModel {
    var plans: seq<Plan>
    const service: PlansProvider

    /** `init(service:)`: keeps the provider and loads its plans. */
    constructor (service: PlansProvider)
      ensures this.service == service
      ensures plans == service.AvailablePlans()
    {
      this.service := service;
      plans := [];
      new;
      LoadData();
    }

    /** `refreshData()`. */
    method RefreshData()
      modifies this`plans
      ensures plans == service.AvailablePlans()
    {
      LoadData();
    }

    /** `loadData()`: the provider's list, neither filtered nor reordered, replaces `plans`. */
    method LoadData()
      modifies this`plans
      ensures plans == service.AvailablePlans()
    {
      var loadedPlans := service.AvailablePlans();
      plans := loadedPlans;
    }
  }

  /**
    The plans view-model tests: a default mock gives its one "Test Plan", and a
    view model over a custom list holds that list after one refresh and after two.
   */
  method PlansScenario(custom: seq<Plan>) returns (initial: seq<Plan>, once: seq<Plan>, twice: seq<Plan>)
    ensures |initial| == 1 && initial[0].name == "Test Plan" && initial[0].priceAmount == 199
    ensures once == custom && twice == once
  {
    var viewModel := new PlansViewModel(NewMockPlansService());
    initial := viewModel.plans;
    var customViewModel := new PlansViewModel(NewMockPlansService(Some(custom)));
    customViewModel.RefreshData();
    once := customViewModel.plans;
    customViewModel.RefreshData();
    twice := customViewModel.plans;
  }
}
