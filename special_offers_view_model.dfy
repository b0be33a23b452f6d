/**
  `SpecialOffersViewModel` of SpecialOffersViewModel.swift: a list of offers
  that loading overwrites with whatever the provider returns.
 */
module OffersViewModels {
  import opened Wrappers
  import opened OfferModel
  import opened OffersServices

  class SpecialOffersViewModel {
    var specialOffers: seq<SpecialOffer>
    const service: OffersProvider

    /** `init(service:)`: keeps the provider and loads its offers. */
    constructor (service: OffersProvider)
      ensures this.service == service
      ensures specialOffers == service.SpecialOffers()
    {
      this.service := service;
      specialOffers := [];
      new;
      LoadData();
    }

    /** `refreshData()`. */
    method RefreshData()
      modifies this`specialOffers
      ensures specialOffers == service.SpecialOffers()
    {
      LoadData();
    }

    /** `loadData()`: the provider's list, neither filtered nor reordered, replaces `specialOffers`. */
    method LoadData()
      modifies this`specialOffers
      ensures specialOffers == service.SpecialOffers()
    {
      var loadedOffers := service.SpecialOffers();
      specialOffers := loadedOffers;
    }
  }

  /**
    The offers view-model tests: a default mock gives its one "Test Offer", and a
    view model over a custom list holds that list after one refresh and after two.
   */
  method OffersScenario(custom: seq<SpecialOffer>) returns (initial: seq<SpecialOffer>, once: seq<SpecialOffer>, twice: seq<SpecialOffer>)
    ensures |initial| == 1 && initial[0].title == "Test Offer" && initial[0].badgeText == "Test"
    ensures once == custom && twice == once
  {
    var viewModel := new SpecialOffersViewModel(NewMockSpecialOffersService());
    initial := viewModel.specialOffers;
    var customViewModel := new SpecialOffersViewModel(NewMockSpecialOffersService(Some(custom)));
    customViewModel.RefreshData();
    once := customViewModel.specialOffers;
    customViewModel.RefreshData();
    twice := customViewModel.specialOffers;
  }
}
