/**
  CellularUsageViewModel.swift: the presentation adapter `UsageViewModel`
  (one card's texts and percentage, built from one usage kind), the balance
  and renewal adapters, and the `CellularUsageViewModel` object that holds the
  current snapshot and reloads it from its provider.
 */
module UsageViewModels {
  import opened Wrappers
  import opened Colors
  import opened CardTypes
  import opened UsageModel
  import opened UsageService
  import Decimal

  /**
    `UsageViewModel`: the kind, `used` and `total` as `Double`, and the three
    pre-formatted texts its initialisers store.
   */
  datatype UsageViewModel = UsageViewModel(
    kind: UsageCardType,
    used: real,
    total: real,
    usedFormatted: string,
    totalFormatted: string,
    remainingFormatted: Option<string>)
  {
    /** `title`: the kind's raw value. */
    function Title(): (t: string)
      ensures FromRawValue(t) == Some(kind)
    {
      RawValueRoundTrip(kind);
      kind.RawValue()
    }

    /** `iconName`. */
    function IconName(): string {
      kind.IconName()
    }

    /** `iconColor`. */
    function IconColor(): Color {
      match kind
      case Data => Blue
      case Minutes => Green
      case Sms => Purple
    }

    /** `usedText`. */
    function UsedText(): string {
      usedFormatted
    }

    /** `totalText`: "/ " in front of the stored total text. */
    function TotalText(): (t: string)
      ensures |t| == |totalFormatted| + 2 && t[..2] == "/ " && t[2..] == totalFormatted
    {
      "/ " + totalFormatted
    }

    /** `remainingText`. */
    function RemainingText(): Option<string> {
      remainingFormatted
    }

    /** `usagePercentage`: 0 when there is no positive allowance, otherwise the used fraction. */
    function UsagePercentage(): (p: real)
      ensures total <= 0.0 ==> p == 0.0
      ensures total > 0.0 ==> p * total == used
    {
      if total > 0.0 then used / total else 0.0
    }

    /** `usagePercentageText`: the truncated percentage times 100, then "% used". */
    function UsagePercentageText(): (t: string)
      ensures Decimal.Shows(t, "", TruncateToInt(UsagePercentage() * 100.0), "% used")
    {
      var percentage := TruncateToInt(UsagePercentage() * 100.0);
      Decimal.ShowsInterpolated("", percentage, "% used");
      assert "" + Decimal.IntToString(percentage) + "% used" == Decimal.IntToString(percentage) + "% used";
      Decimal.IntToString(percentage) + "% used"
    }

    /** The record the views read through `UsageCardDataProtocol`. */
    function CardData(): UsageCardData {
      UsageCardData(
        Title(), IconName(), IconColor(), UsedText(), TotalText(), RemainingText(),
        UsagePercentage(), UsagePercentageText())
    }
  }

  /** `init(dataUsage:)`; `format(x, k)` stands for `String(format: "%.kf", x)`. */
  function FromDataUsage(d: DataUsage, format: (real, nat) -> string): UsageViewModel {
    UsageViewModel(
      Data, d.used, d.total,
      d.FormattedUsed(format), d.FormattedTotal(format) + " GB", Some(d.FormattedRemaining(format)))
  }

  /** `init(minutesUsage:)`. */
  function FromMinutesUsage(m: MinutesUsage): UsageViewModel {
    UsageViewModel(
      Minutes, m.used as real, m.total as real,
      Decimal.IntToString(m.used), Decimal.IntToString(m.total) + " mins", Some(m.FormattedRemaining()))
  }

  /** `init(smsUsage:)`; unlike minutes, the remaining count has no ".0". */
  function FromSMSUsage(s: SMSUsage): UsageViewModel {
    UsageViewModel(
      Sms, s.used as real, s.total as real,
      Decimal.IntToString(s.used), Decimal.IntToString(s.total) + " msgs",
      Some(Decimal.IntToString(s.Remaining()) + " msgs left"))
  }

  /** The data card agrees with the data usage it was built from. */
  lemma DataCard(d: DataUsage, format: (real, nat) -> string)
    ensures var vm := FromDataUsage(d, format);
      && vm.Title() == "Data" && vm.IconName() == "arrow.up.arrow.down" && vm.IconColor() == Blue
      && vm.UsagePercentage() == d.UsedPercentage()
      && Decimal.Shows(vm.UsagePercentageText(), "", d.UsedPercentageInt(), "% used")
      && vm.UsedText() == format(d.used, 1)
      && vm.TotalText() == "/ " + format(d.total, 0) + " GB"
      && vm.RemainingText() == Some(format(d.Remaining(), 1) + " GB left")
  {
    var vm := FromDataUsage(d, format);
    assert vm.TotalText() == "/ " + format(d.total, 0) + " GB";
  }

  /** The minutes card's title, icon, colour and percentage come from the minutes usage. */
  lemma MinutesCard(m: MinutesUsage)
    ensures var vm := FromMinutesUsage(m);
      && vm.Title() == "Minutes" && vm.IconName() == "phone.fill" && vm.IconColor() == Green
      && vm.UsagePercentage() == m.UsedPercentage()
      && Decimal.Shows(vm.UsagePercentageText(), "", m.UsedPercentageInt(), "% used")
  {
  }

  /** The minutes card shows the minutes usage's numbers, the remaining count with ".0". */
  lemma MinutesCardTexts(m: MinutesUsage)
    ensures var vm := FromMinutesUsage(m);
      && Decimal.Shows(vm.UsedText(), "", m.used, "")
      && Decimal.Shows(vm.TotalText(), "/ ", m.total, " mins")
      && vm.RemainingText() == Some(m.FormattedRemaining())
      && Decimal.Shows(vm.RemainingText().value, "", m.Remaining(), ".0 mins left")
  {
    var vm := FromMinutesUsage(m);
    assert vm.UsedText() == Decimal.IntToString(m.used);
    assert vm.TotalText() == "/ " + Decimal.IntToString(m.total) + " mins";
    Decimal.ShowsAlone(m.used);
    Decimal.ShowsInterpolated("/ ", m.total, " mins");
  }

  /** The message card's title, icon, colour and percentage come from the SMS usage. */
  lemma SMSCard(s: SMSUsage)
    ensures var vm := FromSMSUsage(s);
      && vm.Title() == "SMS" && vm.IconName() == "envelope.fill" && vm.IconColor() == Purple
      && vm.UsagePercentage() == s.UsedPercentage()
      && Decimal.Shows(vm.UsagePercentageText(), "", s.UsedPercentageInt(), "% used")
  {
  }

  /** The message card shows the SMS usage's numbers, the remaining count without ".0". */
  lemma SMSCardTexts(s: SMSUsage)
    ensures var vm := FromSMSUsage(s);
      && Decimal.Shows(vm.UsedText(), "", s.used, "")
      && Decimal.Shows(vm.TotalText(), "/ ", s.total, " msgs")
      && vm.RemainingText().Some?
      && Decimal.Shows(vm.RemainingText().value, "", s.Remaining(), " msgs left")
  {
    var vm := FromSMSUsage(s);
    assert vm.UsedText() == Decimal.IntToString(s.used);
    assert vm.TotalText() == "/ " + Decimal.IntToString(s.total) + " msgs";
    assert vm.RemainingText().value == Decimal.IntToString(s.Remaining()) + " msgs left";
    Decimal.ShowsAlone(s.used);
    Decimal.ShowsInterpolated("/ ", s.total, " msgs");
    Decimal.ShowsLeading(s.Remaining(), " msgs left");
  }

  /** The numerals the sample snapshot's minutes card shows. */
  lemma SampleMinutesNumerals()
    ensures Decimal.IntToString(340) == "340" && Decimal.IntToString(1000) == "1000"
  {
    assert Decimal.NatToString(34) == "34";
    assert Decimal.NatToString(100) == "100";
  }

  /** The numerals the sample snapshot's message card shows. */
  lemma SampleSMSNumerals()
    ensures Decimal.IntToString(120) == "120" && Decimal.IntToString(500) == "500"
  {
    assert Decimal.NatToString(12) == "12";
    assert Decimal.NatToString(50) == "50";
  }

  /** The minutes-card test on the sample snapshot: its texts. */
  lemma SampleMinutesCardTexts(t: Date)
    ensures var minutes := FromMinutesUsage(SampleData(t).minutesUsage);
      && minutes.UsedText() == "340" && minutes.TotalText() == "/ 1000 mins"
      && minutes.RemainingText() == Some("660.0 mins left")
  {
    var m := SampleData(t).minutesUsage;
    assert m == MinutesUsage(340, 1000);
    SampleMinutesNumerals();
    MinutesRemainingScenario();
    assert FromMinutesUsage(m).RemainingText() == Some(m.FormattedRemaining());
  }

  /** The minutes-card test on the sample snapshot: its percentage. */
  lemma SampleMinutesCardPercentage(t: Date)
    ensures FromMinutesUsage(SampleData(t).minutesUsage).UsagePercentageText() == "34% used"
  {
    var minutes := FromMinutesUsage(SampleData(t).minutesUsage);
    assert minutes.used == 340.0 && minutes.total == 1000.0;
    assert minutes.UsagePercentage() == 0.34;
    assert TruncateToInt(0.34 * 100.0) == 34;
    assert Decimal.NatToString(34) == "34";
  }

  /** The message-card test on the sample snapshot: its texts. */
  lemma SampleSMSCardTexts(t: Date)
    ensures var sms := FromSMSUsage(SampleData(t).smsUsage);
      && sms.UsedText() == "120" && sms.TotalText() == "/ 500 msgs"
  {
    SampleSMSNumerals();
  }

  /** The message-card test on the sample snapshot: its percentage. */
  lemma SampleSMSCardPercentage(t: Date)
    ensures FromSMSUsage(SampleData(t).smsUsage).UsagePercentageText() == "24% used"
  {
    var sms := FromSMSUsage(SampleData(t).smsUsage);
    assert sms.used == 120.0 && sms.total == 500.0;
    assert sms.UsagePercentage() == 0.24;
    assert TruncateToInt(0.24 * 100.0) == 24;
    assert Decimal.NatToString(24) == "24";
  }

  /** The data-card percentage test on the sample snapshot, in exact arithmetic. */
  lemma SampleDataCard(t: Date, format: (real, nat) -> string)
    ensures FromDataUsage(SampleData(t).dataUsage, format).UsagePercentageText() == "46% used"
  {
    var data := FromDataUsage(SampleData(t).dataUsage, format);
    assert data.UsagePercentage() == 0.46;
    assert TruncateToInt(0.46 * 100.0) == 46;
    assert Decimal.NatToString(46) == "46";
  }

  /**
    The card record is the adapter seen through `UsageCardDataProtocol`: its
    title parses back to the adapter's kind, and the texts and fraction are the
    adapter's.
   */
  lemma CardDataOfAdapter(vm: UsageViewModel)
    ensures var card := vm.CardData();
      && FromRawValue(card.title) == Some(vm.kind) && card.iconName == vm.kind.IconName()
      && card.usedText == vm.usedFormatted && card.totalText[2..] == vm.totalFormatted
      && card.remainingText == vm.remainingFormatted && card.usagePercentage == vm.UsagePercentage()
      && Decimal.Shows(card.usagePercentageText, "", TruncateToInt(vm.UsagePercentage() * 100.0), "% used")
  {
  }

  /** Title, icon and colour depend on the kind alone, and differ between kinds. */
  lemma PresentationByKind(a: UsageViewModel, b: UsageViewModel)
    ensures a.kind == b.kind ==> a.Title() == b.Title() && a.IconName() == b.IconName() && a.IconColor() == b.IconColor()
    ensures a.kind != b.kind ==> a.Title() != b.Title() && a.IconName() != b.IconName() && a.IconColor() != b.IconColor()
  {
    if a.kind != b.kind {
      IconNamesDistinct(a.kind, b.kind);
    }
  }

  /** `BalanceViewModel`. */
  datatype BalanceViewModel = BalanceViewModel(usage: CellularUsage) {

    /** `balanceColor`: the same for every balance. */
    function BalanceColor(): string {
      "green"
    }
  }

  /** `RenewalViewModel`. */
  datatype RenewalViewModel = RenewalViewModel(usage: CellularUsage) {

    /** `renewalDescription`, at the instant `now` the source reads from the clock. */
    function RenewalDescription(now: Date): (d: string)
      ensures d == "Tomorrow" <==> usage.IsRenewalTomorrow(now)
      ensures d == "Upcoming" <==> !usage.IsRenewalTomorrow(now)
    {
      if usage.IsRenewalTomorrow(now) then "Tomorrow" else "Upcoming"
    }

    /** `dateColor`: the same for every snapshot. */
    function DateColor(): string {
      "red"
    }
  }

  /** The balance is always drawn green and the renewal date always red. */
  lemma FixedColors(u: CellularUsage)
    ensures BalanceViewModel(u).BalanceColor() == "green"
    ensures RenewalViewModel(u).DateColor() == "red"
  {
  }

  /** `CellularUsageViewModel`: the current snapshot and the provider it is reloaded from. */
  class CellularUsageViewModel {
    var cellularUsage: CellularUsage
    const service: UsageProvider

    /** `init(service:)`: keeps the provider and takes its current snapshot. */
    constructor (service: UsageProvider)
      ensures this.service == service
      ensures cellularUsage == service.Current()
    {
      var u := service.GetCellularUsage();
      this.service := service;
      cellularUsage := u;
    }

    /** `refreshData()`: replaces the snapshot with the provider's current one; nothing else changes. */
    method RefreshData()
      modifies this`cellularUsage
      ensures cellularUsage == service.Current()
    {
      cellularUsage := service.GetCellularUsage();
    }

    /** `balanceViewModel`. */
    function BalanceView(): BalanceViewModel
      reads this
    {
      BalanceViewModel(cellularUsage)
    }

    /** `renewalViewModel`. */
    function RenewalView(): RenewalViewModel
      reads this
    {
      RenewalViewModel(cellularUsage)
    }

    /** `dataUsageViewModel`. */
    function DataUsageView(format: (real, nat) -> string): UsageViewModel
      reads this
    {
      FromDataUsage(cellularUsage.dataUsage, format)
    }

    /** `minutesUsageViewModel`. */
    function MinutesUsageView(): UsageViewModel
      reads this
    {
      FromMinutesUsage(cellularUsage.minutesUsage)
    }

    /** `smsUsageViewModel`. */
    function SMSUsageView(): UsageViewModel
      reads this
    {
      FromSMSUsage(cellularUsage.smsUsage)
    }

    /**
      `usageItems`: one card per kind, in the order of `allCases`, each titled by
      its kind and showing the percentage of the matching usage record.
     */
    function UsageItems(format: (real, nat) -> string): (items: seq<UsageCardItem>)
      reads this
      ensures |items| == 3
      ensures [items[0].kind, items[1].kind, items[2].kind] == AllCases
    {
      [ UsageCardItem(Data, DataUsageView(format).CardData()),
        UsageCardItem(Minutes, MinutesUsageView().CardData()),
        UsageCardItem(Sms, SMSUsageView().CardData()) ]
    }
  }

  /** Every view the object exposes is built from its current snapshot. */
  lemma ViewsFollowSnapshot(viewModel: CellularUsageViewModel, format: (real, nat) -> string, now: Date)
    ensures var usage := viewModel.cellularUsage;
      && viewModel.BalanceView().usage.balance == usage.balance
      && viewModel.BalanceView().BalanceColor() == "green"
      && (viewModel.RenewalView().RenewalDescription(now) == "Tomorrow" <==> DayOf(usage.renewalDate) == DayOf(now) + 1)
      && viewModel.RenewalView().DateColor() == "red"
      && viewModel.DataUsageView(format).kind == Data
      && viewModel.DataUsageView(format).UsagePercentage() == usage.dataUsage.UsedPercentage()
      && viewModel.MinutesUsageView().kind == Minutes
      && viewModel.MinutesUsageView().UsagePercentage() == usage.minutesUsage.UsedPercentage()
      && Decimal.Shows(viewModel.MinutesUsageView().RemainingText().value, "", usage.minutesUsage.Remaining(), ".0 mins left")
      && viewModel.SMSUsageView().kind == Sms
      && viewModel.SMSUsageView().UsagePercentage() == usage.smsUsage.UsedPercentage()
      && Decimal.Shows(viewModel.SMSUsageView().RemainingText().value, "", usage.smsUsage.Remaining(), " msgs left")
  {
    var usage := viewModel.cellularUsage;
    MinutesCardTexts(usage.minutesUsage);
    SMSCardTexts(usage.smsUsage);
  }

  /** The cards of `usageItems` show the used fractions of data, minutes and messages, in that order. */
  lemma UsageItemsPercentages(viewModel: CellularUsageViewModel, format: (real, nat) -> string)
    ensures var items, usage := viewModel.UsageItems(format), viewModel.cellularUsage;
      && items[0].data.usagePercentage == usage.dataUsage.UsedPercentage()
      && items[1].data.usagePercentage == usage.minutesUsage.UsedPercentage()
      && items[2].data.usagePercentage == usage.smsUsage.UsedPercentage()
  {
    var items, usage := viewModel.UsageItems(format), viewModel.cellularUsage;
    assert items[0].data.usagePercentage == viewModel.DataUsageView(format).UsagePercentage();
    assert items[1].data.usagePercentage == viewModel.MinutesUsageView().UsagePercentage();
    assert items[2].data.usagePercentage == viewModel.SMSUsageView().UsagePercentage();
  }

  /** Every card of `usageItems` is titled with a string that parses back to its own kind. */
  lemma UsageItemsTitled(viewModel: CellularUsageViewModel, format: (real, nat) -> string)
    ensures var items := viewModel.UsageItems(format);
      forall i :: 0 <= i < |items| ==> FromRawValue(items[i].data.title) == Some(items[i].kind)
  {
    var items := viewModel.UsageItems(format);
    assert items[0].data.title == viewModel.DataUsageView(format).Title();
    assert items[1].data.title == viewModel.MinutesUsageView().Title();
    assert items[2].data.title == viewModel.SMSUsageView().Title();
  }

  /**
    The view-model tests: built on a default mock it holds the sample snapshot and
    renews "Tomorrow"; after the mock's data is overwritten, `refreshData()` picks it up.
   */
  method RefreshScenario(t: Date, now: Date, newData: CellularUsage) returns (initial: CellularUsage, description: string, refreshed: CellularUsage)
    requires DayOf(now) == DayOf(t)
    ensures initial == SampleData(t) && description == "Tomorrow"
    ensures refreshed == newData
  {
    var mock := new MockCellularUsageService.WithSampleData(t);
    var viewModel := new CellularUsageViewModel(Mock(mock));
    initial := viewModel.cellularUsage;
    description := viewModel.RenewalView().RenewalDescription(now);
    mock.mockData := newData;
    viewModel.RefreshData();
    refreshed := viewModel.cellularUsage;
  }
}
