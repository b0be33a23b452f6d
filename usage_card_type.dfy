/**
  The three usage cards of UsageCardType.swift: the `String`-backed,
  `CaseIterable` enum, the properties every card exposes, and the list item
  that pairs a card kind with its display record.
 */
module CardTypes {
  import opened Wrappers
  import opened Colors

  datatype UsageCardType = Data | Minutes | Sms {

    /** `rawValue`. */
    function RawValue(): string {
      match this
      case Data => "Data"
      case Minutes => "Minutes"
      case Sms => "SMS"
    }

    /** `id`: the raw value, which names exactly this case. */
    function Id(): (id: string)
      ensures FromRawValue(id) == Some(this)
    {
      RawValueRoundTrip(this);
      RawValue()
    }

    /** `iconName`: the SF Symbol drawn on the card; a different one per case. */
    function IconName(): string {
      match this
      case Data => "arrow.up.arrow.down"
      case Minutes => "phone.fill"
      case Sms => "envelope.fill"
    }
  }

  /** `allCases`, in declaration order. */
  const AllCases: seq<UsageCardType> := [Data, Minutes, Sms]

  /** The synthesized `init?(rawValue:)`: the case whose raw value is `s`, if there is one. */
  function FromRawValue(s: string): (k: Option<UsageCardType>)
    ensures k.Some? ==> k.value.RawValue() == s
    ensures k.None? ==> forall c: UsageCardType :: c.RawValue() != s
  {
    if s == "Data" then Some(Data)
    else if s == "Minutes" then Some(Minutes)
    else if s == "SMS" then Some(Sms)
    else None
  }

  /** Every case is recovered from its raw value, so the raw values are pairwise distinct. */
  lemma RawValueRoundTrip(k: UsageCardType)
    ensures FromRawValue(k.RawValue()) == Some(k)
  {
  }

  /** `allCases` lists every case exactly once. */
  lemma AllCasesListsEachOnce()
    ensures |AllCases| == 3
    ensures forall k: UsageCardType :: k in AllCases
    ensures forall i, j :: 0 <= i < j < |AllCases| ==> AllCases[i] != AllCases[j]
  {
    forall k: UsageCardType ensures k in AllCases {
      match k
      case Data => assert AllCases[0] == k;
      case Minutes => assert AllCases[1] == k;
      case Sms => assert AllCases[2] == k;
    }
  }

  /** Distinct cases draw distinct icons. */
  lemma IconNamesDistinct(a: UsageCardType, b: UsageCardType)
    requires a != b
    ensures a.IconName() != b.IconName()
  {
  }

  /** The properties of `UsageCardDataProtocol`, as one record. */
  datatype UsageCardData = UsageCardData(
    title: string,
    iconName: string,
    iconColor: Color,
    usedText: string,
    totalText: string,
    remainingText: Option<string>,
    usagePercentage: real,
    usagePercentageText: string)

  /** `UsageCardItem` (its random `id` aside): a card kind with its display record. */
  datatype UsageCardItem = UsageCardItem(kind: UsageCardType, data: UsageCardData)
}
