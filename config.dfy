/** Constants of the radar chart: the chart geometry, the six axes with their
    value ranges, the customer palette and the selection warning limit
    (js/radar-chart/config.js). */
module Config {

  /** One dimension of the radar chart with its closed range [min, max]. */
  datatype Axis = Axis(name: string, min: real, max: real)

  const ChartWidth: real := 600.0
  const ChartHeight: real := 600.0
  const ChartMargin: real := 100.0

  /** Math.min(width, height) / 2 - margin. */
  const Radius: real := (if ChartWidth <= ChartHeight then ChartWidth else ChartHeight) / 2.0 - ChartMargin

  const Axes: seq<Axis> := [
    Axis("Credit Score", 300.0, 850.0),
    Axis("Annual Income", 25000.0, 175000.0),
    Axis("Current Debt", 0.0, 100000.0),
    Axis("Years Employed", 0.0, 20.0),
    Axis("Savings Assets", 0.0, 150000.0),
    Axis("DTI Ratio", 0.0, 100.0)
  ]

  const CustomerColors: seq<string> :=
    ["#2563eb", "#dc2626", "#16a34a", "#f59e0b", "#8b5cf6", "#ec4899", "#06b6d4", "#84cc16"]

  const MaxRecommendedCustomers: nat := 10

  /** The colour of the customer at position `index` of the selection: a
      palette entry, or an HSL colour of which the model keeps saturation and
      lightness (the hue is a floating-point golden-ratio modulo). */
  datatype Color = Palette(hex: string) | Hsl(saturation: int, lightness: int)

  function CustomerColor(index: nat): (c: Color)
    ensures index < |CustomerColors| ==> c == Palette(CustomerColors[index])
    ensures index >= |CustomerColors| ==>
      c.Hsl? && c.saturation in {60, 70, 80} && c.lightness in {45, 50, 55}
  {
    if index < |CustomerColors| then Palette(CustomerColors[index])
    else Hsl(60 + (index % 3) * 10, 45 + ((index / 3) % 3) * 5)
  }

  /** The generated tones repeat with period nine, and within one period
      they are all different: two generated colours share saturation and
      lightness exactly when their indices agree modulo 9. */
  lemma CustomerToneClasses(i: nat, j: nat)
    requires i >= |CustomerColors| && j >= |CustomerColors|
    ensures CustomerColor(i) == CustomerColor(j) <==> i % 9 == j % 9
  {
    ToneDigits(i);
    ToneDigits(j);
  }

  /** index % 3 and (index / 3) % 3 are the two base-3 digits of index % 9. */
  lemma ToneDigits(n: nat)
    ensures n % 3 == (n % 9) % 3
    ensures (n / 3) % 3 == (n % 9) / 3
  {
    var q, r := n / 9, n % 9;
    assert n == 9 * q + r;
    assert n / 3 == 3 * q + r / 3;
    assert n % 3 == r % 3;
  }

  lemma RadiusIs200()
    ensures Radius == 200.0
  {
  }

  /** Six axes, each with a non-empty range. */
  lemma AxesWellFormed()
    ensures |Axes| == 6
    ensures forall i :: 0 <= i < |Axes| ==> Axes[i].min < Axes[i].max
  {
  }
}
