# CellularUsageApp core, in Dafny

CellularUsageApp is a SwiftUI dashboard for a mobile-phone account. For one
snapshot of the account (balance, renewal date, data volume, call minutes and
text messages), it shows a card per usage kind. Each card shows the amount
used, the allowance, what is left and a "N% used" figure. The app also lists
subscription plans and special offers. This project models the logic behind
those screens. It does not model the screens themselves.

- `UsageModel` (cellular_usage_model.dfy) is the account snapshot and its three
  usage kinds. Each kind derives a used fraction (0 without a positive
  allowance), a remaining amount clamped at 0 and an integer percentage
  truncated from the fraction times 100. It also checks whether the renewal
  falls tomorrow, and it holds the fixed sample snapshot. Dates are whole
  seconds read in one time zone, so a calendar day is `seconds / 86400`.
  "Now" is passed in as a parameter instead of being read from the clock.
- `Decimal` (decimal.dfy) is Swift's `"\(n)"` rendering of an `Int`, together
  with the reading that inverts it. Swift prints canonical numerals: no
  leading zero except in "0" itself, and never "-0". A text that shows `n`
  between a given prefix and suffix is therefore exactly that interpolation,
  so the card texts can be stated exactly: "660.0 mins left", "/ 500 msgs",
  "34% used".
- `CardTypes` (usage_card_type.dfy) is the `String`-backed card-kind
  enumeration, its icons, and the card record and list item.
- `UsageViewModels` (cellular_usage_view_model.dfy) holds these parts:
  - `UsageViewModel`, the per-card presentation adapter, with its three
    initialisers;
  - the balance and renewal adapters;
  - the `CellularUsageViewModel` class, which holds the current snapshot in a
    mutable field, rebuilds the ordered card list from it and reloads it from
    its provider.
- `UsageService` (cellular_usage_service.dfy) holds the usage providers:
  - the production service, which always answers the sample snapshot;
  - the mock, a class whose `mockData` field callers may overwrite.
- `PlanModel`, `PlansServices` and `PlansViewModels` (plan_model.dfy,
  plans_service.dfy, plans_view_model.dfy) are the plan record, whose colours
  are derived only from `isPopular`, the plan providers, and the view model
  whose `plans` field each load overwrites.
- `OfferModel`, `OffersServices` and `OffersViewModels`
  (special_offer_model.dfy, special_offers_service.dfy,
  special_offers_view_model.dfy) do the same for special offers.
- `Colors` (colors.dfy) gives the SwiftUI colours as tags, and `Wrappers`
  (wrappers.dfy) gives `Option`.

Swift protocols with a production and a mock implementation become tagged
unions (`Production | Mock(...)`). Percentages are exact `real` numbers.
Swift's `Int(x)` on a `Double` is truncation toward zero (`TruncateToInt`).

## Model

| member | source | states |
|---|---|---|
| UsageModel.AddingDays | CellularUsageApp/Models/CellularUsageModel.swift:106 | adding `n` days moves the calendar day by exactly `n` and keeps the time of day |
| UsageModel.TruncateToInt | CellularUsageApp/Models/CellularUsageModel.swift:51 | `Int(x)` is the integer part of `x`, truncated toward zero, for either sign |
| UsageModel.TruncatedRatio | CellularUsageApp/Models/CellularUsageModel.swift:69 | truncating the exact ratio of two integers equals Swift's truncating integer division |
| UsageModel.CountPercentageInt | CellularUsageApp/Models/CellularUsageModel.swift:68-70 | in exact arithmetic, for a positive total, `Int(Double(used) / Double(total) * 100)` equals `100 * used / total` in truncating integer division |
| UsageModel.DataUsage.UsedPercentage | CellularUsageApp/Models/CellularUsageModel.swift:41-44 | 0 when the total is not positive; otherwise the fraction that, times the total, gives the amount used |
| UsageModel.DataUsage.Remaining | CellularUsageApp/Models/CellularUsageModel.swift:46-48 | never negative, at least `total - used`, and equal to either 0 or `total - used` |
| UsageModel.DataUsage.UsedPercentageInt | CellularUsageApp/Models/CellularUsageModel.swift:50-52 | 0 when the total is not positive; otherwise the percentage times 100, truncated toward zero |
| UsageModel.MinutesUsage.UsedPercentage | CellularUsageApp/Models/CellularUsageModel.swift:59-62 | 0 when the total is not positive; otherwise the exact fraction `used / total` |
| UsageModel.MinutesUsage.Remaining | CellularUsageApp/Models/CellularUsageModel.swift:64-66 | never negative, at least `total - used`, and equal to either 0 or `total - used` |
| UsageModel.MinutesUsage.UsedPercentageInt | CellularUsageApp/Models/CellularUsageModel.swift:68-70 | 0 when the total is not positive; otherwise `100 * used / total` in truncating integer division |
| UsageModel.MinutesUsage.FormattedRemaining | CellularUsageApp/Models/CellularUsageModel.swift:126-128 | the text is a canonical numeral whose value is the remaining minutes, followed by ".0 mins left" |
| UsageModel.SMSUsage.UsedPercentage | CellularUsageApp/Models/CellularUsageModel.swift:77-80 | 0 when the total is not positive; otherwise the exact fraction `used / total` |
| UsageModel.SMSUsage.Remaining | CellularUsageApp/Models/CellularUsageModel.swift:82-84 | never negative, at least `total - used`, and equal to either 0 or `total - used` |
| UsageModel.SMSUsage.UsedPercentageInt | CellularUsageApp/Models/CellularUsageModel.swift:86-88 | 0 when the total is not positive; otherwise `100 * used / total` in truncating integer division |
| UsageModel.CellularUsage.IsRenewalTomorrow | CellularUsageApp/Models/CellularUsageModel.swift:104-108 | true exactly when the renewal's calendar day is the day after `now`'s |
| UsageModel.DataUsage.FormattedUsed | CellularUsageApp/Models/CellularUsageModel.swift:112-114 | `%.1f` of the amount used, through the injected formatter; `DataCard` states that the data card shows it unchanged |
| UsageModel.DataUsage.FormattedTotal | CellularUsageApp/Models/CellularUsageModel.swift:116-118 | `%.0f` of the allowance; `DataCard` states that the card's total text is "/ " + it + " GB" |
| UsageModel.DataUsage.FormattedRemaining | CellularUsageApp/Models/CellularUsageModel.swift:120-122 | `%.1f` of the clamped remaining amount, then " GB left"; `DataCard` states that the card's remaining text is it |
| UsageModel.SampleData | CellularUsageApp/Models/CellularUsageModel.swift:134-140 | the sample renews tomorrow, counted from its first access, with balance 145.50, data 2.3/5.0, minutes 340/1000 and messages 120/500 |
| UsageModel.SampleFigures | CellularUsageApp/Models/CellularUsageModel.swift:134-140 | the sample's integer percentages are 46, 34 and 24, and 2.7 GB, 660 minutes and 380 messages remain |
| UsageModel.CountPercentageIntBounds | CellularUsageApp/Models/CellularUsageModel.swift:68-70 | for whole numbers, usage within the allowance gives 0 to 100 and usage over it gives at least 100 |
| UsageModel.DataOverLimit | CellularUsageApp/Models/CellularUsageModel.swift:41-52 | over the allowance, the fraction exceeds 1 (not clamped), nothing remains and the integer percentage is at least 100 |
| UsageModel.DataWithinLimit | CellularUsageApp/Models/CellularUsageModel.swift:41-52 | within the allowance, the fraction is in [0, 1], used plus remaining is the total, and the integer percentage is in [0, 100] |
| UsageModel.MinutesOverLimit | CellularUsageApp/Models/CellularUsageModel.swift:59-70 | over the allowance, the fraction exceeds 1, nothing remains and the integer percentage is at least 100 |
| UsageModel.MinutesWithinLimit | CellularUsageApp/Models/CellularUsageModel.swift:59-70 | within the allowance, the fraction is in [0, 1], used plus remaining is the total, and the integer percentage is in [0, 100] |
| UsageModel.SMSOverLimit | CellularUsageApp/Models/CellularUsageModel.swift:77-88 | over the allowance, the fraction exceeds 1, nothing remains and the integer percentage is at least 100 |
| UsageModel.SMSWithinLimit | CellularUsageApp/Models/CellularUsageModel.swift:77-88 | within the allowance, the fraction is in [0, 1], used plus remaining is the total, and the integer percentage is in [0, 100] |
| UsageModel.RenewalInDays | CellularUsageApp/Models/CellularUsageModel.swift:104-108 | a renewal `k` days ahead, at any time of day, counts as tomorrow exactly when `k` is 1: one day ahead is tomorrow, seven is not |
| UsageModel.DataScenarios | CellularUsageAppTests/CellularUsageModelTests.swift:15-46 | 2.3/5.0 gives 0.46, 2.7 left and 46; 1.0/0.0 gives 0, 0 and 0; 6.0/5.0 gives 1.2, 0 and 120 |
| UsageModel.MinutesScenarios | CellularUsageAppTests/CellularUsageModelTests.swift:50-79 | 340/1000 gives 0.34, 660 and 34; 100/0 gives 0, 0 and 0; 1200/1000 gives 1.2, 0 and 120 |
| UsageModel.MinutesRemainingScenario | CellularUsageAppTests/CellularUsageModelTests.swift:58 | 340 of 1000 minutes renders as "660.0 mins left" |
| UsageModel.SMSScenarios | CellularUsageAppTests/CellularUsageModelTests.swift:83-111 | 120/500 gives 0.24, 380 and 24; 50/0 gives 0, 0 and 0; 600/500 gives 1.2, 0 and 120 |
| Decimal.IntToString | CellularUsageApp/ViewModels/CellularUsageViewModel.swift:129-130 | Swift's `"\(n)"`; `IntToStringRoundTrip` and `CanonicalUnique` state that it is a canonical numeral, that it reads back as `n`, and that it is the only canonical numeral with value `n` |
| Decimal.IntToStringRoundTrip | CellularUsageApp/ViewModels/CellularUsageViewModel.swift:129-130 | the interpolated decimal of an integer is a canonical numeral that reads back as that integer |
| Decimal.DigitsCanonical | CellularUsageApp/ViewModels/CellularUsageViewModel.swift:129-130 | a digit string without a superfluous leading zero is the rendering of its own value |
| Decimal.CanonicalUnique | CellularUsageApp/ViewModels/CellularUsageViewModel.swift:129-130 | every canonical numeral, negative ones included, is the rendering of the value it reads as |
| Decimal.ShowsInterpolated | CellularUsageApp/ViewModels/CellularUsageViewModel.swift:129-140 | interpolating `n` between a prefix and a suffix gives a text that shows `n` there |
| Decimal.ShowsExactly | CellularUsageApp/ViewModels/CellularUsageViewModel.swift:129-140 | conversely, a text that shows `n` between a prefix and a suffix is exactly prefix + `"\(n)"` + suffix, so no other text (such as "0660.0 mins left" or "-0% used") passes |
| Decimal.IntToStringInjective | CellularUsageApp/ViewModels/CellularUsageViewModel.swift:129-130 | distinct integers are rendered as distinct texts |
| CardTypes.UsageCardType.RawValue | CellularUsageApp/Models/UsageCardType.swift:12-14 | the raw values "Data", "Minutes" and "SMS"; `RawValueRoundTrip` states that each names exactly its own case |
| CardTypes.UsageCardType.IconName | CellularUsageApp/Models/UsageCardType.swift:18-24 | the SF Symbol of each case; `IconNamesDistinct` states that no two cases share one |
| CardTypes.UsageCardType.Id | CellularUsageApp/Models/UsageCardType.swift:16 | the identifier is a raw value that names exactly this case |
| CardTypes.FromRawValue | CellularUsageApp/Models/UsageCardType.swift:11-14 | a found case has exactly the given raw value; when none is found, no case has it |
| CardTypes.RawValueRoundTrip | CellularUsageApp/Models/UsageCardType.swift:12-14 | every case is recovered from its raw value, so "Data", "Minutes" and "SMS" are pairwise distinct |
| CardTypes.AllCasesListsEachOnce | CellularUsageApp/Models/UsageCardType.swift:11-14 | `allCases` has three entries, contains every case and repeats none |
| CardTypes.IconNamesDistinct | CellularUsageApp/Models/UsageCardType.swift:18-24 | distinct cases have distinct icon names |
| UsageViewModels.FromDataUsage | CellularUsageApp/ViewModels/CellularUsageViewModel.swift:116-123 | `init(dataUsage:)`; `DataCard` states its title, icon, colour, fraction, percentage text and the three formatted texts |
| UsageViewModels.FromMinutesUsage | CellularUsageApp/ViewModels/CellularUsageViewModel.swift:125-132 | `init(minutesUsage:)`; `MinutesCard` and `MinutesCardTexts` state that the card shows exactly the minutes' used count, total and remaining count |
| UsageViewModels.FromSMSUsage | CellularUsageApp/ViewModels/CellularUsageViewModel.swift:134-141 | `init(smsUsage:)`; `SMSCard` and `SMSCardTexts` state that the card shows exactly the messages' used count, total and remaining count, without ".0" |
| UsageViewModels.UsageViewModel.IconName | CellularUsageApp/ViewModels/CellularUsageViewModel.swift:149-151 | the kind's icon; `PresentationByKind` states that it depends on the kind alone and differs between kinds |
| UsageViewModels.UsageViewModel.IconColor | CellularUsageApp/ViewModels/CellularUsageViewModel.swift:153-159 | blue, green or purple by kind; `PresentationByKind` states that the three kinds get three different colours |
| UsageViewModels.UsageViewModel.UsedText | CellularUsageApp/ViewModels/CellularUsageViewModel.swift:161-163 | the stored used text; `MinutesCardTexts` and `SMSCardTexts` state that it reads back as the used count |
| UsageViewModels.UsageViewModel.RemainingText | CellularUsageApp/ViewModels/CellularUsageViewModel.swift:169-171 | the stored remaining text; `MinutesCardTexts` and `SMSCardTexts` state that it is present and shows the clamped remaining count |
| UsageViewModels.UsageViewModel.CardData | CellularUsageApp/ViewModels/CellularUsageViewModel.swift:106-182 | the adapter as a `UsageCardDataProtocol` record; `CardDataOfAdapter` states each protocol property |
| UsageViewModels.CardDataOfAdapter | CellularUsageApp/ViewModels/CellularUsageViewModel.swift:106-182 | the card record's title parses back to the adapter's kind, its icon is the kind's, and its texts, fraction and percentage text are the adapter's |
| UsageViewModels.UsageViewModel.Title | CellularUsageApp/ViewModels/CellularUsageViewModel.swift:145-147 | the title parses back to the card's own kind |
| UsageViewModels.UsageViewModel.TotalText | CellularUsageApp/ViewModels/CellularUsageViewModel.swift:165-167 | "/ " followed by the stored total text, unchanged |
| UsageViewModels.UsageViewModel.UsagePercentage | CellularUsageApp/ViewModels/CellularUsageViewModel.swift:173-176 | 0 when the total is not positive; otherwise the fraction that, times the total, gives the amount used, whatever the kind |
| UsageViewModels.UsageViewModel.UsagePercentageText | CellularUsageApp/ViewModels/CellularUsageViewModel.swift:178-181 | a canonical numeral whose value is the truncated percentage times 100, followed by "% used" |
| UsageViewModels.DataCard | CellularUsageApp/ViewModels/CellularUsageViewModel.swift:116-123 | the data card is titled "Data" with the arrows icon in blue, shows the data usage's fraction and integer percentage, and holds the formatted used, total + " GB" and remaining + " GB left" texts |
| UsageViewModels.MinutesCard | CellularUsageApp/ViewModels/CellularUsageViewModel.swift:125-132 | the minutes card is titled "Minutes" with the phone icon in green, and shows the minutes usage's fraction and integer percentage |
| UsageViewModels.MinutesCardTexts | CellularUsageApp/ViewModels/CellularUsageViewModel.swift:129-131 | the used text reads back as `used`, the total text is "/ " + total + " mins", and the remaining text is the minutes' own "N.0 mins left" |
| UsageViewModels.SMSCard | CellularUsageApp/ViewModels/CellularUsageViewModel.swift:134-141 | the message card is titled "SMS" with the envelope icon in purple, and shows the SMS usage's fraction and integer percentage |
| UsageViewModels.SMSCardTexts | CellularUsageApp/ViewModels/CellularUsageViewModel.swift:138-140 | the used text reads back as `used`, the total text is "/ " + total + " msgs", and the remaining text is present: remaining + " msgs left", with no ".0" |
| UsageViewModels.SampleDataCard | CellularUsageAppTests/CellularUsageViewModelTests.swift:86-99 | in exact arithmetic, the sample's data card reads "46% used" |
| UsageViewModels.SampleMinutesCardTexts | CellularUsageAppTests/CellularUsageViewModelTests.swift:103-116 | the sample's minutes card reads "340", "/ 1000 mins" and "660.0 mins left" |
| UsageViewModels.SampleMinutesCardPercentage | CellularUsageAppTests/CellularUsageViewModelTests.swift:103-116 | the sample's minutes card reads "34% used" |
| UsageViewModels.SampleSMSCardTexts | CellularUsageAppTests/CellularUsageViewModelTests.swift:120-132 | the sample's message card reads "120" and "/ 500 msgs" |
| UsageViewModels.SampleSMSCardPercentage | CellularUsageAppTests/CellularUsageViewModelTests.swift:120-132 | the sample's message card reads "24% used" |
| UsageViewModels.PresentationByKind | CellularUsageApp/ViewModels/CellularUsageViewModel.swift:145-159 | title, icon and colour are the same for cards of the same kind and all differ between kinds |
| UsageViewModels.RenewalViewModel.RenewalDescription | CellularUsageApp/ViewModels/CellularUsageViewModel.swift:95-97 | "Tomorrow" exactly when the renewal is tomorrow, "Upcoming" exactly when it is not |
| UsageViewModels.BalanceViewModel.BalanceColor | CellularUsageApp/ViewModels/CellularUsageViewModel.swift:77-79 | "green"; `FixedColors` states that it is the same for every snapshot |
| UsageViewModels.RenewalViewModel.DateColor | CellularUsageApp/ViewModels/CellularUsageViewModel.swift:99-101 | "red"; `FixedColors` states that it is the same for every snapshot |
| UsageViewModels.FixedColors | CellularUsageApp/ViewModels/CellularUsageViewModel.swift:77-101 | whatever the snapshot, the balance colour is "green" and the date colour is "red" |
| UsageViewModels.CellularUsageViewModel.constructor | CellularUsageApp/ViewModels/CellularUsageViewModel.swift:53-56 | keeps the provider and takes the provider's current snapshot |
| UsageViewModels.CellularUsageViewModel.RefreshData | CellularUsageApp/ViewModels/CellularUsageViewModel.swift:59-61 | writes only the snapshot field, setting it to the provider's current snapshot |
| UsageViewModels.CellularUsageViewModel.BalanceView | CellularUsageApp/ViewModels/CellularUsageViewModel.swift:22-24 | the balance adapter over the current snapshot; `ViewsFollowSnapshot` states that it shows the snapshot's balance in green |
| UsageViewModels.CellularUsageViewModel.RenewalView | CellularUsageApp/ViewModels/CellularUsageViewModel.swift:26-28 | the renewal adapter over the current snapshot; `ViewsFollowSnapshot` states that it says "Tomorrow" exactly when the snapshot renews the day after `now` |
| UsageViewModels.CellularUsageViewModel.DataUsageView | CellularUsageApp/ViewModels/CellularUsageViewModel.swift:31-33 | the data card of the current snapshot; `ViewsFollowSnapshot` states its kind and fraction |
| UsageViewModels.CellularUsageViewModel.MinutesUsageView | CellularUsageApp/ViewModels/CellularUsageViewModel.swift:35-37 | the minutes card of the current snapshot; `ViewsFollowSnapshot` states its kind, fraction and remaining text |
| UsageViewModels.CellularUsageViewModel.SMSUsageView | CellularUsageApp/ViewModels/CellularUsageViewModel.swift:39-41 | the message card of the current snapshot; `ViewsFollowSnapshot` states its kind, fraction and remaining text |
| UsageViewModels.ViewsFollowSnapshot | CellularUsageApp/ViewModels/CellularUsageViewModel.swift:22-41 | every view is built from the current snapshot: its balance, its renewal day against `now`, and the kind, fraction and remaining count of each usage |
| UsageViewModels.CellularUsageViewModel.UsageItems | CellularUsageApp/ViewModels/CellularUsageViewModel.swift:44-50 | exactly three cards, whose kinds are `allCases` in order: data, minutes, SMS |
| UsageViewModels.UsageItemsPercentages | CellularUsageApp/ViewModels/CellularUsageViewModel.swift:44-50 | the three cards show the used fractions of data, minutes and messages of the current snapshot, in that order |
| UsageViewModels.UsageItemsTitled | CellularUsageApp/ViewModels/CellularUsageViewModel.swift:44-50 | every card's title parses back to that card's kind |
| UsageViewModels.RefreshScenario | CellularUsageAppTests/CellularUsageViewModelTests.swift:136-155 | a view model over a default mock starts with the sample; read at any instant `now` on the same calendar day as the sample's first access, it renews "Tomorrow"; after the mock's data is overwritten, a refresh yields the new data |
| UsageService.MockCellularUsageService.constructor | CellularUsageApp/Services/CellularUsageService.swift:30-32 | stores the given snapshot as `mockData` |
| UsageService.MockCellularUsageService.WithSampleData | CellularUsageApp/Services/CellularUsageService.swift:30-32 | without an argument, `mockData` is the sample snapshot |
| UsageService.MockCellularUsageService.GetCellularUsage | CellularUsageApp/Services/CellularUsageService.swift:34-36 | returns the current `mockData` and modifies nothing |
| UsageService.UsageProvider.Current | CellularUsageApp/Services/CellularUsageService.swift:20-36 | the production service answers the sample snapshot, which renews tomorrow; a mock answers its current `mockData` |
| UsageService.UsageProvider.GetCellularUsage | CellularUsageApp/Services/CellularUsageService.swift:20-22 | returns what the provider currently answers and modifies nothing |
| UsageService.ServiceScenario | CellularUsageAppTests/CellularUsageServiceTests.swift:71-113 | the production service and a default mock answer the same sample, with balance 145.50; after `mockData` is overwritten, the mock answers the new data |
| PlanModel.NewPlan | CellularUsageApp/Models/PlanModel.swift:22-30 | name, price, amount and features (in order) are stored unchanged; button and border are blue exactly when the plan is popular, and gray and separator otherwise |
| PlanModel.ColorsDependOnlyOnPopularity | CellularUsageApp/Models/PlanModel.swift:28-29 | any two plans with the same `isPopular` have the same button and border colours, whatever their other fields |
| PlanModel.EveryPlanIsBuilt | CellularUsageApp/Models/PlanModel.swift:22-30 | the initialiser is the only way to make a plan: every `Plan` value equals the initialiser applied to its own stored arguments |
| PlanModel.PopularDefaultsToFalse | CellularUsageApp/Models/PlanModel.swift:22 | a plan built without `isPopular` is not popular, with a gray button and the separator border |
| PlansServices.PlansProvider.AvailablePlans | CellularUsageApp/Services/PlansService.swift:19-78 | the production catalogue, or the mock's stored list; `NewMockPlansService` and `DefaultPlansAreValid` state what each contains |
| PlansServices.NewMockPlansService | CellularUsageApp/Services/PlansService.swift:63-74 | a mock built with a list answers that list unchanged; one built without answers one non-popular "Test Plan" at 199 |
| PlansServices.DefaultPlansAreValid | CellularUsageAppTests/PlansViewModelTests.swift:110-122 | every default plan has a name, a price text and a positive amount; in the catalogue only "Max 499" is popular, so only its button is blue |
| PlansViewModels.PlansViewModel.constructor | CellularUsageApp/ViewModels/PlansViewModel.swift:21-24 | keeps the provider and holds exactly the provider's list |
| PlansViewModels.PlansViewModel.RefreshData | CellularUsageApp/ViewModels/PlansViewModel.swift:27-29 | writes only `plans`, setting it to the provider's list |
| PlansViewModels.PlansViewModel.LoadData | CellularUsageApp/ViewModels/PlansViewModel.swift:32-36 | writes only `plans`, setting it to the provider's list, neither filtered nor reordered |
| PlansViewModels.PlansScenario | CellularUsageAppTests/PlansViewModelTests.swift:47-83 | a default mock gives one "Test Plan" at 199; a custom list is held unchanged after one refresh and after two |
| OffersServices.OffersProvider.SpecialOffers | CellularUsageApp/Services/SpecialOffersService.swift:19-69 | the production catalogue, or the mock's stored list; `NewMockSpecialOffersService` and `DefaultOffersAreValid` state what each contains |
| OffersServices.NewMockSpecialOffersService | CellularUsageApp/Services/SpecialOffersService.swift:54-65 | a mock built with a list answers that list unchanged; one built without answers one blue "Test Offer" |
| OffersServices.DefaultOffersAreValid | CellularUsageAppTests/SpecialOffersViewModelTests.swift:112-125 | title, description and badge text of every default offer are non-empty |
| OffersViewModels.SpecialOffersViewModel.constructor | CellularUsageApp/ViewModels/SpecialOffersViewModel.swift:21-24 | keeps the provider and holds exactly the provider's list |
| OffersViewModels.SpecialOffersViewModel.RefreshData | CellularUsageApp/ViewModels/SpecialOffersViewModel.swift:27-29 | writes only `specialOffers`, setting it to the provider's list |
| OffersViewModels.SpecialOffersViewModel.LoadData | CellularUsageApp/ViewModels/SpecialOffersViewModel.swift:32-36 | writes only `specialOffers`, setting it to the provider's list, neither filtered nor reordered |
| OffersViewModels.OffersScenario | CellularUsageAppTests/SpecialOffersViewModelTests.swift:47-83 | a default mock gives one "Test Offer" with badge "Test"; a custom list is held unchanged after one refresh and after two |

## Left out

- UsageModel.DataUsage.UsedPercentageInt: the model uses exact reals, so IEEE-754 double rounding is not modelled. In Swift, 2.3/5.0 reaches 46 only through rounding of the binary product, and cases such as 0.29 * 100 truncate to 28 in `Double`.
- UsageModel.MinutesUsage.UsedPercentageInt: the same exact-arithmetic reading. The `Double` division and product can truncate one below `100 * used / total` when that quotient is exact, for example 29/100.
- UsageModel.SMSUsage.UsedPercentageInt: the same exact-arithmetic reading as for minutes.
- UsageModel.CountPercentageInt: holds in exact arithmetic only. In `Double`, 29/100 gives `0.29 * 100 = 28.999…`, which truncates to 28, not 29.
- UsageViewModels.UsageViewModel.UsagePercentageText: `Int(usagePercentage * 100)` is truncated in `Double` in the source, so a 29-of-100 minutes card reads "28% used" in Swift but "29% used" here.
- UsageModel.MinutesUsage.Remaining: counts are unbounded integers, so the trap Swift raises when `total - used` overflows `Int` (for example `total = Int.max`, `used = -1`) is not modelled.
- UsageModel.SMSUsage.Remaining: the same `total - used` overflow trap is not modelled.
- UsageModel.TruncateToInt: Swift traps when `Int(x)` is out of range or `x` is not finite; reals are unbounded here.
- The data kind's `%.1f` and `%.0f` texts (`formattedUsed`, `formattedTotal`, `formattedRemaining`) are floating-point formatting. The formatter is passed in as `format`, and only the literal " GB" and " GB left" parts are stated.
- MinutesUsage.FormattedRemaining is `%.1f` of a whole number. It is taken to be the decimal followed by ".0", which holds where `Double` represents the count exactly (below 2^53).
- `formattedBalance` (`%.2f` and a currency prefix) is not modelled. The prefix in the code is a mis-decoded rupee sign, and the two tests expect different prefixes.
- `formattedRenewalDate` and `RenewalViewModel.formattedDate` are not modelled: they depend on the host locale's `DateFormatter`.
- `isRenewalTomorrow` reads the clock and `Calendar.current`. The model passes "now" in and uses one fixed time zone with 86400-second days, with no daylight-saving shifts. The `?? Date()` fallback is not needed, because adding days always succeeds here.
- The sample snapshot is a lazily built `static let` whose renewal date depends on when it is first read. That instant is a parameter (`SampleData(firstAccess)`).
- UsageViewModels.RefreshScenario: the view-model test reads "Tomorrow" only when the clock has not passed midnight since the sample was first read; the scenario requires `now` to be on that same calendar day.
- Random `UUID` identities of `CellularUsage`, `Plan`, `PlanFeature`, `SpecialOffer` and `UsageCardItem` are dropped; they carry no contract.
- The `CellularUsage` initialiser is the datatype's constructor, which stores its fields unchanged by construction.
- Default-argument services (`init(service: ... = CellularUsageService())`) are not separate members: a caller passes `Production` explicitly.
- `print` logging in the two list view models produces no state and is not modelled.
- `@MainActor`, `@Published` and `ObservableObject` notification are not modelled: each view model is a plain class whose methods run one at a time.
- SwiftUI colours are tags (`Colors.Color`), not colour values; `c.opacity(a)` is `Opacity(c, a)`.
- The SwiftUI views, layout, animations, splash timers and the progress bar's display-only clamp are outside the model.
- The production plan and offer catalogues are constant fixtures. Their validation tests are stated as lemmas, with no further properties.
- Plan selection, auto-selection of a popular plan and subscribing do not exist in the code. `PlansViewModel` holds only its list, so none of them is modelled.
