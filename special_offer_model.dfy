/** The promotional offer record of SpecialOfferModel.swift: display data only. */
module OfferModel {
  import opened Colors

  /** `SpecialOffer` (its random `id` aside). */
  datatype SpecialOffer = SpecialOffer(
    title: string,
    description: string,
    badgeText: string,
    badgeColor: Color,
    backgroundColor: Color,
    borderColor: Color)
}
