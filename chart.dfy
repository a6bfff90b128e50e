/** The value side of the radar chart (js/radar-chart/chart.js): the six
    plotted values of a customer, the radial length of each vertex, the
    polygons drawn for the selection and the manual-mode rule for the
    drag handles, as computed view data. */
module Chart {
  import opened Wrappers
  import opened Config
  import opened Utils
  import opened State
  import opened Prediction

  /** getCustomerValues: each field clamped and rounded on its own axis,
      the DTI fraction first scaled to a percentage. */
  function CustomerValues(r: Record): (vs: seq<real>)
    ensures |vs| == |Axes|
    ensures forall i :: 0 <= i < |vs| ==> Axes[i].min <= vs[i] <= Axes[i].max
    ensures forall i :: 0 <= i < |vs| ==> IsMultipleOf(vs[i], Step(i))
  {
    [ ConstrainAndRound(r.creditScore, 0),
      ConstrainAndRound(r.annualIncome, 1),
      ConstrainAndRound(r.currentDebt, 2),
      ConstrainAndRound(r.yearsEmployed, 3),
      ConstrainAndRound(r.savingsAssets, 4),
      ConstrainAndRound(r.debtToIncomeRatio * 100.0, 5) ]
  }

  /** The plotted values are the row's first six distance features, each
      through constrainAndRound, and they are fixed points of it: drawing a
      customer and then dragging an untouched axis back stores the same. */
  lemma CustomerValuesAreRoundedFeatures(r: Record)
    ensures forall i :: 0 <= i < |Axes| ==> CustomerValues(r)[i] == ConstrainAndRound(RawRecord(r)[i], i)
    ensures forall i :: 0 <= i < |Axes| ==> ConstrainAndRound(CustomerValues(r)[i], i) == CustomerValues(r)[i]
  {
    var vs := CustomerValues(r);
    forall i | 0 <= i < |Axes|
      ensures ConstrainAndRound(vs[i], i) == vs[i]
    {
      ConstrainAndRoundIdempotent(RawRecord(r)[i], i);
    }
  }

  /** The distance of a vertex from the centre: (v - min) / (max - min),
      scaled to the radius. */
  function RadialLength(v: real, axisIndex: nat): (len: real)
    requires axisIndex < |Axes|
    ensures len == NormalizeValue(v, Axes[axisIndex].min, Axes[axisIndex].max) * Radius
    ensures Axes[axisIndex].min <= v <= Axes[axisIndex].max ==> 0.0 <= len <= Radius
  {
    var a := Axes[axisIndex];
    (v - a.min) / (a.max - a.min) * Radius
  }

  /** Larger values sit farther out; the map is strictly increasing. */
  lemma RadialLengthStrictlyIncreasing(v1: real, v2: real, axisIndex: nat)
    requires axisIndex < |Axes| && v1 < v2
    ensures RadialLength(v1, axisIndex) < RadialLength(v2, axisIndex)
  {
    var a := Axes[axisIndex];
    NormalizeStrictlyIncreasing(v1, v2, a.min, a.max);
  }

  /** The axis bounds sit at the centre and at the rim. */
  lemma RadialLengthEnds(axisIndex: nat)
    requires axisIndex < |Axes|
    ensures RadialLength(Axes[axisIndex].min, axisIndex) == 0.0
    ensures RadialLength(Axes[axisIndex].max, axisIndex) == Radius
  {
  }

  /** The radial lengths of a profile, one per axis. */
  function Radii(values: seq<real>): (rs: seq<real>)
    requires |values| == |Axes|
    ensures |rs| == |Axes|
    ensures forall i :: 0 <= i < |Axes| ==> rs[i] == RadialLength(values[i], i)
    ensures (forall i :: 0 <= i < |Axes| ==> Axes[i].min <= values[i] <= Axes[i].max) ==>
      forall i :: 0 <= i < |Axes| ==> 0.0 <= rs[i] <= Radius
  {
    seq(|Axes|, i requires 0 <= i < |Axes| => RadialLength(values[i], i))
  }

  /** customerData.find(d => d.customer_id === id): the first row with
      that id. */
  function FindById(data: seq<Record>, id: string): (r: Option<Record>)
    ensures r.None? <==> forall x :: x in data ==> x.customerId != id
    ensures r.Some? ==> exists j :: (0 <= j < |data| && data[j] == r.value && r.value.customerId == id &&
      forall k :: 0 <= k < j ==> data[k].customerId != id)
  {
    if data == [] then None
    else if data[0].customerId == id then Some(data[0])
    else
      var rest := FindById(data[1..], id);
      if rest.Some? then
        var j :| 0 <= j < |data[1..]| && data[1..][j] == rest.value && rest.value.customerId == id &&
          forall k :: 0 <= k < j ==> data[1..][k].customerId != id;
        assert data[j + 1] == rest.value && forall k :: 0 <= k < j + 1 ==> data[k].customerId != id;
        rest
      else rest
  }

  /** One customer polygon: the id, its row and its place in the selection. */
  datatype PolygonEntry = PolygonEntry(id: string, customer: Record, originalIndex: nat)

  /** The data join of updateChart: the selected ids mapped with their
      index, ids without a row dropped. */
  function PolygonData(ids: seq<string>, data: seq<Record>): (ps: seq<PolygonEntry>)
    ensures |ps| <= |ids|
    ensures forall p :: p in ps ==>
      p.originalIndex < |ids| && ids[p.originalIndex] == p.id && FindById(data, p.id) == Some(p.customer)
    ensures forall a, b :: 0 <= a < b < |ps| ==> ps[a].originalIndex < ps[b].originalIndex
  {
    if ids == [] then []
    else
      var last := |ids| - 1;
      var prev := PolygonData(ids[..last], data);
      match FindById(data, ids[last])
      case None => prev
      case Some(c) => prev + [PolygonEntry(ids[last], c, last)]
  }

  /** No known id is dropped: each selected id that has a row yields an
      entry at its own position. */
  lemma {:induction false} PolygonDataKeepsKnownIds(ids: seq<string>, data: seq<Record>)
    ensures forall i :: 0 <= i < |ids| && FindById(data, ids[i]).Some? ==>
      PolygonEntry(ids[i], FindById(data, ids[i]).value, i) in PolygonData(ids, data)
  {
    if ids != [] {
      var last := |ids| - 1;
      PolygonDataKeepsKnownIds(ids[..last], data);
      forall i | 0 <= i < last
        ensures ids[..last][i] == ids[i]
      {
      }
    }
  }

  /** When every selected id has a row, there is one polygon per id and
      the i-th polygon is the i-th id. */
  lemma {:induction false} PolygonDataComplete(ids: seq<string>, data: seq<Record>)
    requires forall i :: 0 <= i < |ids| ==> FindById(data, ids[i]).Some?
    ensures |PolygonData(ids, data)| == |ids|
    ensures forall i :: 0 <= i < |ids| ==>
      PolygonData(ids, data)[i] == PolygonEntry(ids[i], FindById(data, ids[i]).value, i)
  {
    if ids != [] {
      var last := |ids| - 1;
      PolygonDataComplete(ids[..last], data);
    }
  }

  /** A customer polygon as drawn: its colour and its vertex radii. */
  datatype CustomerPolygon = CustomerPolygon(id: string, color: Color, radii: seq<real>)

  /** What updateChart and updateHandlesState leave on screen. */
  datatype ChartView = ChartView(
    polygons: seq<CustomerPolygon>,
    manualRadii: seq<real>,
    manualShown: bool,
    handlesEnabled: bool)

  function Polygons(entries: seq<PolygonEntry>): (cs: seq<CustomerPolygon>)
    ensures |cs| == |entries|
    ensures forall i :: 0 <= i < |cs| ==>
      cs[i].id == entries[i].id && cs[i].color == CustomerColor(entries[i].originalIndex) &&
      |cs[i].radii| == |Axes| && forall j :: 0 <= j < |Axes| ==> 0.0 <= cs[i].radii[j] <= Radius
    ensures forall i :: 0 <= i < |cs| ==> cs[i].radii == Radii(CustomerValues(entries[i].customer))
  {
    seq(|entries|, i requires 0 <= i < |entries| =>
      CustomerPolygon(entries[i].id, CustomerColor(entries[i].originalIndex), Radii(CustomerValues(entries[i].customer))))
  }

  /** isManualMode: the handles respond only while nothing is selected. */
  predicate ManualMode(selected: seq<string>) {
    |selected| == 0
  }

  /** The chart for the given state fields. */
  function ChartData(selected: seq<string>, data: seq<Record>, values: seq<real>, showManualData: bool): (v: ChartView)
    requires |values| == |Axes|
    ensures v.handlesEnabled <==> |selected| == 0
    ensures v.manualShown == showManualData
    ensures |v.polygons| <= |selected|
    ensures |v.manualRadii| == |Axes|
    ensures v.manualRadii == Radii(values)
    ensures v.polygons == Polygons(PolygonData(selected, data))
    ensures (forall i :: 0 <= i < |Axes| ==> Axes[i].min <= values[i] <= Axes[i].max) ==>
      forall i :: 0 <= i < |Axes| ==> 0.0 <= v.manualRadii[i] <= Radius
  {
    var entries := PolygonData(selected, data);
    ChartView(Polygons(entries), Radii(values), showManualData, ManualMode(selected))
  }

  /** Each polygon drawn is a selected id that has a row, coloured by its
      place in the selection; with every id known, there is one polygon
      per id, in selection order. */
  lemma ChartPolygons(selected: seq<string>, data: seq<Record>, values: seq<real>, showManualData: bool)
    requires |values| == |Axes|
    ensures var v := ChartData(selected, data, values, showManualData);
      forall k :: 0 <= k < |v.polygons| ==> exists i :: (0 <= i < |selected| && v.polygons[k].id == selected[i] &&
        FindById(data, selected[i]).Some? && v.polygons[k].color == CustomerColor(i) &&
        v.polygons[k].radii == Radii(CustomerValues(FindById(data, selected[i]).value)))
    ensures var v := ChartData(selected, data, values, showManualData);
      (forall i :: 0 <= i < |selected| ==> FindById(data, selected[i]).Some?) ==>
        |v.polygons| == |selected| && forall i :: 0 <= i < |selected| ==>
          v.polygons[i].id == selected[i] && v.polygons[i].color == CustomerColor(i) &&
          v.polygons[i].radii == Radii(CustomerValues(FindById(data, selected[i]).value))
  {
    var v := ChartData(selected, data, values, showManualData);
    var entries := PolygonData(selected, data);
    forall k | 0 <= k < |v.polygons|
      ensures exists i :: (0 <= i < |selected| && v.polygons[k].id == selected[i] &&
        FindById(data, selected[i]).Some? && v.polygons[k].color == CustomerColor(i) &&
        v.polygons[k].radii == Radii(CustomerValues(FindById(data, selected[i]).value)))
    {
      assert entries[k] in entries;
      var i := entries[k].originalIndex;
      assert v.polygons[k].id == selected[i];
    }
    if forall i :: 0 <= i < |selected| ==> FindById(data, selected[i]).Some? {
      PolygonDataComplete(selected, data);
    }
  }

  /** The chart of a valid state: the manual polygon stays inside the rim. */
  lemma ChartOfValidState(s: State)
    requires s.Valid()
    ensures var v := ChartData(s.selectedCustomerIds, s.customerData, s.values[..], s.showManualData);
      |v.manualRadii| == |Axes| && forall i :: 0 <= i < |Axes| ==> 0.0 <= v.manualRadii[i] <= Radius
  {
  }
}
