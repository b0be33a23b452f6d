/**
  The offer providers of SpecialOffersService.swift: the production list and
  the test double, both returning a fixed list.
 */
module OffersServices {
  import opened Wrappers
  import opened Colors
  import opened OfferModel

  /** The implementations of `SpecialOffersServiceProtocol`. */
  datatype OffersProvider =
    | Production
    | Mock(mockOffers: seq<SpecialOffer>)
  {
    /** `getSpecialOffers()`. */
    function SpecialOffers(): seq<SpecialOffer> {
      match this
      case Production => Catalogue()
      case Mock(offers) => offers
    }
  }

  /** The offer shown in the colour `c`, with the background and border tints the source derives from it. */
  function Tinted(title: string, description: string, badgeText: string, c: Color): SpecialOffer {
    SpecialOffer(title, description, badgeText, c, Opacity(c, 0.05), Opacity(c, 0.3))
  }

  /** The three offers `SpecialOffersService` returns. */
  function Catalogue(): seq<SpecialOffer> {
    [ Tinted("Super Saver 499", "Get 5GB/day + unlimited calls. Limited time!", "Trending", Blue),
      Tinted("Weekend Special", "Extra 2GB free on weekends. Perfect for streaming!", "Limited", Orange),
      Tinted("Student Plan", "50% off for students. Verify with your student ID.", "50% OFF", Green) ]
  }

  /** `MockSpecialOffersService(mockOffers:)`: the given list, or one "Test Offer" when none is given. */
  function NewMockSpecialOffersService(mockOffers: Option<seq<SpecialOffer>> := None): (service: OffersProvider)
    ensures mockOffers.Some? ==> service.SpecialOffers() == mockOffers.value
    ensures mockOffers.None? ==>
      && |service.SpecialOffers()| == 1 && service.SpecialOffers()[0].title == "Test Offer"
      && service.SpecialOffers()[0].badgeColor == Blue
  {
    Mock(
      if mockOffers.Some? then mockOffers.value
      else [Tinted("Test Offer", "Test description", "Test", Blue)])
  }

  /** The offer-validation test over both providers' default lists: title, description and badge are never empty. */
  lemma DefaultOffersAreValid()
    ensures forall o :: o in Catalogue() + NewMockSpecialOffersService().mockOffers ==>
      |o.title| > 0 && |o.description| > 0 && |o.badgeText| > 0
  {
  }
}
