/**
  The usage providers of CellularUsageService.swift. A view model is given one
  of them; `getCellularUsage()` is its only operation.
 */
module UsageService {
  import opened UsageModel

  /** `MockCellularUsageService`: a test double whose `mockData` callers may overwrite. */
  class MockCellularUsageService {
    var mockData: CellularUsage

    /** `init(mockData:)`. */
    constructor (mockData: CellularUsage)
      ensures this.mockData == mockData
    {
      this.mockData := mockData;
    }

    /** `init()`: `mockData` defaults to the sample snapshot. */
    constructor WithSampleData(sampleFirstAccess: Date)
      ensures mockData == SampleData(sampleFirstAccess)
    {
      mockData := SampleData(sampleFirstAccess);
    }

    /** `getCellularUsage()`: the current `mockData`; it modifies nothing. */
    method GetCellularUsage() returns (u: CellularUsage)
      ensures u == mockData
    {
      u := mockData;
    }
  }

  /** The implementations of `CellularUsageServiceProtocol`. */
  datatype UsageProvider =
    | Production(sampleFirstAccess: Date)
    | Mock(mock: MockCellularUsageService)
  {
    /** The objects whose state decides what the provider returns. */
    function Footprint(): set<object> {
      if Mock? then {mock} else {}
    }

    /** What `getCellularUsage()` returns in the current state. */
    function Current(): (u: CellularUsage)
      reads Footprint()
      ensures Production? ==> u == SampleData(sampleFirstAccess) && u.IsRenewalTomorrow(sampleFirstAccess)
      ensures Mock? ==> u == mock.mockData
    {
      match this
      case Production(t) => SampleData(t)
      case Mock(m) => m.mockData
    }

    /** `getCellularUsage()`: `CellularUsageService` always answers the sample snapshot. */
    method GetCellularUsage() returns (u: CellularUsage)
      ensures u == Current()
    {
      match this
      case Production(t) =>
        u := SampleData(t);
      case Mock(m) =>
        u := m.GetCellularUsage();
    }
  }

  /**
    The service tests: the production service and a default mock give the same
    snapshot, and after `mockData` is overwritten the mock gives the new one.
   */
  method ServiceScenario(t: Date, newData: CellularUsage) returns (before: CellularUsage, after: CellularUsage)
    ensures before == SampleData(t) && before.balance == 145.50
    ensures after == newData
  {
    var mock := new MockCellularUsageService.WithSampleData(t);
    before := Mock(mock).GetCellularUsage();
    var production := Production(t).GetCellularUsage();
    assert production == before;
    mock.mockData := newData;
    after := Mock(mock).GetCellularUsage();
  }
}
