/** The manual profile's editors (js/radar-chart/interactions.js): the six
    number fields with their input and blur handlers, and the drag handles,
    which receive the pointer's projection onto their axis. */
module Interactions {
  import opened Wrappers
  import opened Config
  import opened Utils
  import opened State
  import opened Prediction
  import Chart

  /** The field contents after updateInputs: every field that exists and
      does not have the focus shows the state's value; the rest keep their
      text. */
  function InputsAfterUpdate(fields: seq<real>, values: seq<real>, present: seq<bool>, focused: Option<nat>): (r: seq<real>)
    requires |fields| == |values| == |present|
    ensures |r| == |fields|
    ensures forall j :: 0 <= j < |r| ==> r[j] == if present[j] && focused != Some(j) then values[j] else fields[j]
  {
    seq(|fields|, j requires 0 <= j < |fields| => if present[j] && focused != Some(j) then values[j] else fields[j])
  }

  /** Refreshing the fields a second time changes nothing. */
  lemma InputsAfterUpdateIdempotent(fields: seq<real>, values: seq<real>, present: seq<bool>, focused: Option<nat>)
    requires |fields| == |values| == |present|
    ensures InputsAfterUpdate(InputsAfterUpdate(fields, values, present, focused), values, present, focused) ==
      InputsAfterUpdate(fields, values, present, focused)
  {
  }

  /** updateInputs: copy each value into its field unless the field is
      missing or being edited. */
  method UpdateInputs(s: State, fields: array<real>, present: seq<bool>, focused: Option<nat>)
    requires s.Valid() && fields != s.values
    requires fields.Length == |Axes| && |present| == |Axes|
    modifies fields
    ensures fields[..] == InputsAfterUpdate(old(fields[..]), s.values[..], present, focused)
  {
    var i := 0;
    while i < s.values.Length
      invariant 0 <= i <= s.values.Length
      invariant forall j :: 0 <= j < i ==> fields[j] == if present[j] && focused != Some(j) then s.values[j] else old(fields[j])
      invariant forall j :: i <= j < fields.Length ==> fields[j] == old(fields[j])
    {
      if present[i] && focused != Some(i) {
        fields[i] := s.values[i];
      }
      i := i + 1;
    }
  }

  /** The input handler: a number is clamped to the axis range but not
      rounded, stored at its index alone, and the prediction refreshed; NaN
      is ignored. The view is None where the panel is left as it was. */
  method OnInput(s: State, i: nat, text: Parsed, controls: LoanControls) returns (view: Option<PredictionView>)
    requires s.Valid() && i < |Axes|
    modifies s.values, s`loanParameters
    ensures s.Valid()
    ensures text.NaN? ==> s.values[..] == old(s.values[..]) && s.loanParameters == old(s.loanParameters) && view.None?
    ensures text.Number? ==>
      && s.values[..] == old(s.values[..])[i := Clamp(text.value, Axes[i].min, Axes[i].max)]
      && s.loanParameters == RefreshedParameters(s.customerData, old(s.loanParameters), controls)
      && view == PredictionDisplay(s.customerData, s.values[..], s.loanParameters)
  {
    if text.NaN? {
      return None;
    }
    var value := Clamp(text.value, Axes[i].min, Axes[i].max);
    s.values[i] := value;
    view := UpdatePrediction(s, controls);
  }

  /** The blur handler: NaN restores the field to the stored value; a number
      is stored through constrainAndRound and written back. */
  method OnBlur(s: State, i: nat, text: Parsed, controls: LoanControls) returns (fieldValue: real, view: Option<PredictionView>)
    requires s.Valid() && i < |Axes|
    modifies s.values, s`loanParameters
    ensures s.Valid()
    ensures fieldValue == s.values[i]
    ensures text.NaN? ==> s.values[..] == old(s.values[..]) && s.loanParameters == old(s.loanParameters) && view.None?
    ensures text.Number? ==>
      && s.values[..] == old(s.values[..])[i := ConstrainAndRound(text.value, i)]
      && s.loanParameters == RefreshedParameters(s.customerData, old(s.loanParameters), controls)
      && view == PredictionDisplay(s.customerData, s.values[..], s.loanParameters)
  {
    if text.NaN? {
      return s.values[i], None;
    }
    var value := ConstrainAndRound(text.value, i);
    s.values[i] := value;
    fieldValue := value;
    view := UpdatePrediction(s, controls);
  }

  /** What blur stores does not depend on the clamping the input handler
      already did, and a stored blur result is left alone by a second blur. */
  lemma BlurAfterInput(v: real, i: nat)
    requires i < |Axes|
    ensures ConstrainAndRound(Clamp(v, Axes[i].min, Axes[i].max), i) == ConstrainAndRound(v, i)
    ensures ConstrainAndRound(ConstrainAndRound(v, i), i) == ConstrainAndRound(v, i)
  {
    ConstrainAndRoundIdempotent(v, i);
  }

  /** The value a drag maps its projection to: the projection clamped to
      [0, radius], read back along the axis. */
  function DragValue(projection: real, i: nat): (v: real)
    requires i < |Axes|
    ensures Axes[i].min <= v <= Axes[i].max
    ensures Chart.RadialLength(v, i) == Clamp(projection, 0.0, Radius)
  {
    var d := Clamp(projection, 0.0, Radius);
    var a := Axes[i];
    assert 0.0 <= d / Radius <= 1.0;
    a.min + (d / Radius) * (a.max - a.min)
  }

  /** Dragging farther out never lowers the value, before or after
      rounding. */
  lemma DragValueMonotone(p1: real, p2: real, i: nat)
    requires i < |Axes| && p1 <= p2
    ensures DragValue(p1, i) <= DragValue(p2, i)
    ensures ConstrainAndRound(DragValue(p1, i), i) <= ConstrainAndRound(DragValue(p2, i), i)
  {
    var a := Axes[i];
    var d1, d2 := Clamp(p1, 0.0, Radius), Clamp(p2, 0.0, Radius);
    assert d1 / Radius <= d2 / Radius;
    assert (d1 / Radius) * (a.max - a.min) <= (d2 / Radius) * (a.max - a.min);
    ConstrainAndRoundMonotone(DragValue(p1, i), DragValue(p2, i), i);
  }

  /** A drag at the centre gives the axis minimum, one at the rim or
      beyond gives the maximum. */
  lemma DragValueEnds(p: real, i: nat)
    requires i < |Axes|
    ensures p <= 0.0 ==> DragValue(p, i) == Axes[i].min
    ensures p >= Radius ==> DragValue(p, i) == Axes[i].max
  {
  }

  /** The drag start handler. */
  method OnDragStart(s: State)
    requires s.Valid()
    modifies s`isDragging
    ensures s.Valid() && s.isDragging
  {
    s.isDragging := true;
  }

  /** The drag end handler. */
  method OnDragEnd(s: State)
    requires s.Valid()
    modifies s`isDragging
    ensures s.Valid() && !s.isDragging
  {
    s.isDragging := false;
  }

  /** The drag handler: ignored while any customer is selected; otherwise
      the rounded drag value is stored at the dragged axis alone, the fields
      are refreshed and so is the prediction. */
  method OnDrag(s: State, i: nat, projection: real, fields: array<real>, present: seq<bool>, focused: Option<nat>,
                controls: LoanControls)
    returns (view: Option<PredictionView>)
    requires s.Valid() && i < |Axes|
    requires fields != s.values && fields.Length == |Axes| && |present| == |Axes|
    modifies s.values, s`loanParameters, fields
    ensures s.Valid()
    ensures !Chart.ManualMode(old(s.selectedCustomerIds)) ==>
      s.values[..] == old(s.values[..]) && fields[..] == old(fields[..]) &&
      s.loanParameters == old(s.loanParameters) && view.None?
    ensures Chart.ManualMode(old(s.selectedCustomerIds)) ==>
      && s.values[..] == old(s.values[..])[i := ConstrainAndRound(DragValue(projection, i), i)]
      && fields[..] == InputsAfterUpdate(old(fields[..]), s.values[..], present, focused)
      && s.loanParameters == RefreshedParameters(s.customerData, old(s.loanParameters), controls)
      && view == PredictionDisplay(s.customerData, s.values[..], s.loanParameters)
  {
    if |s.selectedCustomerIds| > 0 {
      return None;
    }
    var roundedValue := ConstrainAndRound(DragValue(projection, i), i);
    s.values[i] := roundedValue;
    UpdateInputs(s, fields, present, focused);
    view := UpdatePrediction(s, controls);
  }
}
