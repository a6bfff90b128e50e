/** The shared mutable record every handler reads and updates
    (js/radar-chart/state.js), with the dataset row type it holds. */
module State {
  import opened Config
  import opened Utils

  /** One parsed dataset row. The DTI field is a fraction (0.4 means 40 %);
      the chart's DTI axis is a percentage. */
  datatype Record = Record(
    customerId: string,
    productType: string,
    loanIntent: string,
    creditScore: real,
    annualIncome: real,
    currentDebt: real,
    yearsEmployed: real,
    savingsAssets: real,
    debtToIncomeRatio: real,
    loanAmount: real,
    loanStatus: int)

  datatype LoanParameters = LoanParameters(productType: string, loanIntent: string, loanAmount: real)

  /** Geometry and current window of the virtualised customer list. */
  datatype VirtualScroll = VirtualScroll(
    itemHeight: int,
    expandedItemHeight: int,
    visibleStart: int,
    visibleEnd: int,
    buffer: int,
    scrollTop: real)

  const InitialValues: seq<real> := [650.0, 75000.0, 30000.0, 5.0, 15000.0, 40.0]
  const InitialLoanParameters := LoanParameters("Credit Card", "Business", 50000.0)
  const InitialVirtualScroll := VirtualScroll(40, 200, 0, 50, 10, 0.0)

  predicate NoDuplicates(ids: seq<string>) {
    forall i, j :: 0 <= i < j < |ids| ==> ids[i] != ids[j]
  }

  class State {
    /** The manual applicant profile, one value per axis. */
    var values: array<real>
    var isDragging: bool
    var customerData: seq<Record>
    /** Selected customers in selection order; the position of an id is its
        colour index. */
    var selectedCustomerIds: seq<string>
    var showManualData: bool
    var expandedCustomerIds: set<string>
    var loanParameters: LoanParameters
    var virtualScroll: VirtualScroll

    /** What every handler keeps: six values each within its axis range, a
        selection without repeats, only selected customers expanded, and a
        sane list window. */
    ghost predicate Valid()
      reads this, values
    {
      && values.Length == |Axes|
      && (forall i :: 0 <= i < values.Length ==> Axes[i].min <= values[i] <= Axes[i].max)
      && NoDuplicates(selectedCustomerIds)
      && (forall id :: id in expandedCustomerIds ==> id in selectedCustomerIds)
      && virtualScroll.itemHeight > 0
      && virtualScroll.buffer >= 0
      && virtualScroll.visibleStart >= 0
    }

    constructor ()
      ensures Valid() && fresh(values)
      ensures values[..] == InitialValues
      ensures !isDragging && showManualData
      ensures customerData == [] && selectedCustomerIds == [] && expandedCustomerIds == {}
      ensures loanParameters == InitialLoanParameters
      ensures virtualScroll == InitialVirtualScroll
    {
      values := new real[6](i => if 0 <= i < 6 then InitialValues[i] else 0.0);
      isDragging := false;
      customerData := [];
      selectedCustomerIds := [];
      showManualData := true;
      expandedCustomerIds := {};
      loanParameters := InitialLoanParameters;
      virtualScroll := InitialVirtualScroll;
      new;
      assert values[..] == InitialValues;
    }
  }

  /** Each initial value already is what constrainAndRound would store: in
      range and on its axis step. */
  lemma InitialValuesAreFixedPoints()
    ensures |InitialValues| == |Axes|
    ensures forall i :: 0 <= i < |Axes| ==> ConstrainAndRound(InitialValues[i], i) == InitialValues[i]
  {
    forall i | 0 <= i < |Axes|
      ensures ConstrainAndRound(InitialValues[i], i) == InitialValues[i]
    {
      ConstrainAndRoundFixedPoint(InitialValues[i], i);
      assert IsIntegral(InitialValues[i] / Step(i));
    }
  }

  /** The initial window is non-empty and the list geometry usable. */
  lemma InitialVirtualScrollWellFormed()
    ensures InitialVirtualScroll.itemHeight == 40 && InitialVirtualScroll.buffer == 10
    ensures 0 <= InitialVirtualScroll.visibleStart <= InitialVirtualScroll.visibleEnd
  {
  }
}
