# Loan radar chart — a Dafny model

This project models the logic under a browser page that compares a loan
applicant with customers from a loan dataset. The page draws the applicant
and the customers as polygons on a six-axis radar chart. The axes are credit
score, annual income, current debt, years employed, savings and
debt-to-income ratio. The page also estimates whether the loan would be
approved, using an unweighted 15-nearest-neighbours vote over past loans.

Three pieces of logic are modelled and proved:

- **The per-axis value engine.** It covers the axis table, min–max
  normalisation, `constrainAndRound` (clamp, then round to 1000, 0.5 or 1
  depending on the axis), the radial length of a polygon vertex, and the
  inverse map from a drag projection to an axis value.
- **The approval estimator.** It filters rows by product type and loan
  intent, falls back to the whole dataset when nothing matches, and builds
  seven-dimensional normalised points. It then applies a stable ascending
  sort by distance, takes a prefix of length k, and divides the approvals by
  k. Around it sit the prediction panel and the loan-form handlers.
- **The selection and view state.** One shared `State` object holds:
  - the six manual values, as an array;
  - the ordered selection of customer ids;
  - the set of expanded ids;
  - the loan parameters;
  - the virtual-list window.

  Each handler is a method with a field-granular `modifies` clause. It must
  keep `Valid()`: no repeated ids, only selected ids expanded, and every
  manual value within its axis range.

The modules follow the source files:

| module | file | source |
|---|---|---|
| `Wrappers` | wrappers.dfy | `Option` |
| `Config` | config.dfy | js/radar-chart/config.js |
| `Utils` | utils.dfy | js/radar-chart/utils.js, plus `Math.round` / `Math.ceil` / clamp |
| `State` | state.dfy | js/radar-chart/state.js |
| `Prediction` | prediction.dfy | js/radar-chart/prediction.js |
| `Chart` | chart.dfy | js/radar-chart/chart.js |
| `Customers` | customers.dfy | js/radar-chart/customers.js |
| `Interactions` | interactions.dfy | js/radar-chart/interactions.js |

How numbers are modelled:

- All numbers are Dafny `real`s.
- `Math.round(x)` is `(x + 0.5).Floor`, which rounds half up.
- `Math.ceil(x)` is `-((-x).Floor)`.
- `Math.max(lo, Math.min(hi, v))` is `Utils.Clamp`.

DOM inputs become parameters:

- `parseFloat` results are `Parsed` (`NaN` or a number).
- The three loan controls are `LoanControls`, with `None` standing for an
  element that is not on the page.
- The list container is an optional `Viewport`.
- A drag supplies the projection of the pointer onto the dragged axis.

A handler returns `None` as its view when it leaves the prediction panel
untouched.

## Model

| member | source | states |
|---|---|---|
| Config.CustomerColor | js/radar-chart/config.js:27-43 | Customers 0–7 get the fixed palette entry. Any later customer gets saturation 60, 70 or 80 and lightness 45, 50 or 55. |
| Config.CustomerToneClasses | js/radar-chart/config.js:39-40 | Beyond the palette, two customers get the same saturation and lightness exactly when their indices agree modulo 9. |
| Config.RadiusIs200 | js/radar-chart/config.js:8 | The chart radius is min(600, 600) / 2 − 100 = 200. |
| Config.AxesWellFormed | js/radar-chart/config.js:11-18 | There are six axes, and each has max > min. |
| Utils.Round | js/radar-chart/utils.js:27-31 | `Math.round` gives the integer within half a unit of the argument, ties going up. |
| Utils.Ceil | js/radar-chart/customers.js:159 | The result is the least integer not below x, the `Math.ceil` of the window end. |
| Utils.Clamp | js/radar-chart/utils.js:23 | The result lies in [lo, hi]. It is the value itself when in range, lo below the range and hi above it. |
| Utils.NormalizeValue | js/radar-chart/utils.js:4-7 | The result is 0 when max = min. Otherwise it is the fraction r with min + r·(max − min) = value, and it lies in [0, 1] for in-range values. |
| Utils.NormalizeStrictlyIncreasing | js/radar-chart/utils.js:6 | For min < max, a larger value normalises to a strictly larger fraction. |
| Utils.NormalizeInjective | js/radar-chart/utils.js:6 | For min < max, two values normalise alike exactly when they are equal. |
| Utils.SquaredDistance | js/radar-chart/utils.js:10-16 | The sum of squared coordinate differences over the first point's length is never negative. |
| Utils.EuclideanDistanceSquared | js/radar-chart/utils.js:10-16 | The accumulating loop computes exactly SquaredDistance. |
| Utils.SquaredDistanceSymmetric | js/radar-chart/utils.js:12-13 | For points of equal length the distance is symmetric. |
| Utils.SquaredDistancePrefix | js/radar-chart/utils.js:12 | Only the first point1.length coordinates of point2 are read. |
| Utils.SquaredDistanceZero | js/radar-chart/utils.js:10-16 | The distance is 0 exactly when the points agree on every coordinate of point1. |
| Utils.SquaredDistanceSelf | js/radar-chart/utils.js:10-16 | A point is at distance 0 from itself. |
| Utils.Step | js/radar-chart/utils.js:26-32 | Each axis' rounding step is positive: 1000 on axes 1, 2 and 4, 0.5 on axis 3, and 1 otherwise. |
| Utils.RoundToStep | js/radar-chart/utils.js:26-32 | Definition: rounds to 1000 on axes 1, 2 and 4, to 0.5 on axis 3 and to 1 otherwise. Its properties are stated in Utils.ConstrainAndRound. |
| Utils.ConstrainAndRound | js/radar-chart/utils.js:19-35 | The result lies in the axis range and is a multiple of the axis step. It is within half a step of the clamped value, with ties rounded up. |
| Utils.ConstrainAndRoundFixedPoint | js/radar-chart/utils.js:19-35 | constrainAndRound leaves v unchanged exactly when v is in range and a multiple of the axis step. |
| Utils.ConstrainAndRoundIdempotent | js/radar-chart/utils.js:19-35 | Applying constrainAndRound twice equals applying it once. |
| Utils.ConstrainAndRoundMonotone | js/radar-chart/utils.js:19-35 | constrainAndRound never reverses the order of two values. |
| Utils.IncomeRoundingExamples | js/radar-chart/utils.js:23-27 | On the income axis, 76499 → 76000, 76500 → 77000 and 1000000 → 175000. |
| State.State.constructor | js/radar-chart/state.js:2-23 | The initial state is valid. It holds the values 650 / 75000 / 30000 / 5 / 15000 / 40, an empty selection and expanded set, the manual polygon shown and no drag, Credit Card / Business / 50000, and the window 40 / 200 / 0 / 50 / 10 / 0. |
| State.InitialValuesAreFixedPoints | js/radar-chart/state.js:4 | Each initial value is a fixed point of constrainAndRound on its axis, and so lies within the axis range. |
| State.InitialVirtualScrollWellFormed | js/radar-chart/state.js:15-22 | The initial item height is 40 and the buffer 10, with 0 ≤ visibleStart ≤ visibleEnd. |
| Prediction.Matches | js/radar-chart/prediction.js:10-11 | Definition: a row matches when both its product type and its intent equal the parameters. Its properties are stated in Prediction.FilterMatching and Prediction.Candidates. |
| Prediction.FilterMatching | js/radar-chart/prediction.js:9-12 | A row is kept exactly when it matches both product type and intent. |
| Prediction.FilterMatchingAppend | js/radar-chart/prediction.js:9-12 | Filtering distributes over concatenation, so kept rows stay in dataset order. |
| Prediction.FilterMatchingCounts | js/radar-chart/prediction.js:9-12 | A matching row is kept as many times as the dataset holds it, and a non-matching one never. |
| Prediction.FilterMatchingSingle | js/radar-chart/prediction.js:9-12 | A single row is kept exactly when it matches. |
| Prediction.Candidates | js/radar-chart/prediction.js:9-15 | When some row matches, the candidates are exactly the matching rows. When none matches, they are the whole dataset. A non-empty dataset gives non-empty candidates. When some row matches, the candidates are the filtered sequence itself, in dataset order. |
| Prediction.QueryVector | js/radar-chart/prediction.js:18-26 | Definition: the applicant's seven normalised features. Its properties are stated in Prediction.SameNormalisation. |
| Prediction.RecordVector | js/radar-chart/prediction.js:30-38 | Definition: a row's seven normalised features, with DTI multiplied by 100. Its properties are stated in Prediction.SameNormalisation. |
| Prediction.SameNormalisation | js/radar-chart/prediction.js:18-37 | Applicant and row use the same seven ranges: the six axes, then the loan amount against [0, 200000]. Only the row's DTI is multiplied by 100. |
| Prediction.ZeroDistanceIffSameProfile | js/radar-chart/prediction.js:18-41 | A row is at distance 0 from the applicant exactly when its raw features equal the applicant's, with DTI taken as a percentage. |
| Prediction.Neighbours | js/radar-chart/prediction.js:29-44 | There is one entry per candidate, in candidate order. Each entry holds that row's distance, its loan status and its position. |
| Prediction.Insert | js/radar-chart/prediction.js:47 | Insertion adds exactly one entry: the result holds the old entries and the new one, as a multiset. |
| Prediction.InsertPosition | js/radar-chart/prediction.js:47 | The new entry goes in front of the first entry that is not nearer. Every entry before it is strictly nearer, and the entries before and after it keep their order. |
| Prediction.SortByDistance | js/radar-chart/prediction.js:47 | The sort is a permutation of its input. |
| Prediction.InsertSorted | js/radar-chart/prediction.js:47 | Insertion keeps the stable distance order. |
| Prediction.SortSorted | js/radar-chart/prediction.js:47 | For entries in their original order, the sort is ascending by distance and keeps ties in their original order. |
| Prediction.SortedStableUnique | js/radar-chart/prediction.js:47 | Two stably sorted arrangements of the same entries are equal. |
| Prediction.StableSortIsDetermined | js/radar-chart/prediction.js:47 | Every stable ascending sort of the entries yields SortByDistance. |
| Prediction.Ranked | js/radar-chart/prediction.js:29-47 | Definition: the candidates' neighbours sorted by distance. Its properties are stated in Prediction.StableSortIsDetermined and Prediction.NearestAreCandidates. |
| Prediction.Nearest | js/radar-chart/prediction.js:48 | The selection is the first min(k, n) ranked entries. |
| Prediction.NearestNoFarther | js/radar-chart/prediction.js:47-48 | Every selected entry is no farther than every excluded one. |
| Prediction.NearestAreCandidates | js/radar-chart/prediction.js:29-48 | Each selected entry stands for one candidate row and carries that row's distance and status. |
| Prediction.ApprovedCount | js/radar-chart/prediction.js:51 | The count is the number of entries with loan status 1, so it never exceeds the number of entries. |
| Prediction.PredictLoanApproval | js/radar-chart/prediction.js:5-53 | The estimate is 0.5 without data, and otherwise the approvals among the nearest divided by k. It lies in [0, 1] and is at most n / k. |
| Prediction.ExactMatchIsNearest | js/radar-chart/prediction.js:18-48 | A candidate with the applicant's exact profile makes the nearest entry one at distance 0. |
| Prediction.HalfOnlyWithoutData | js/radar-chart/prediction.js:6-52 | With k = 15 the estimate is 0.5 exactly when there is no data. |
| Prediction.Present | js/radar-chart/prediction.js:71-95 | The shown percentage is round(p·100), which lies in [0, 100]. The label says approved exactly when p ≥ 0.5. |
| Prediction.LabelAgreesWithPercentage | js/radar-chart/prediction.js:71-95 | For a vote out of 15, the label says approved exactly when the percentage shown is at least 50. |
| Prediction.OrElse | js/radar-chart/prediction.js:67 | `parseFloat(x) \|\| fallback` gives the fallback for NaN and 0, and the number otherwise. |
| Prediction.Complete | js/radar-chart/prediction.js:64 | Definition: all three loan controls are present. Its properties are stated in Prediction.RefreshedParameters. |
| Prediction.RefreshedParameters | js/radar-chart/prediction.js:57-68 | The loan parameters stay untouched without data or with a control missing. Otherwise they are read from the controls, and the amount is never 0. |
| Prediction.PredictionDisplay | js/radar-chart/prediction.js:57-71 | There is nothing to show exactly when there is no data. Otherwise the panel presents the k = 15 estimate for the manual values, with the percentage in [0, 100]. |
| Prediction.UpdatePrediction | js/radar-chart/prediction.js:56-97 | Only the loan parameters may change. They become RefreshedParameters, and the panel shows PredictionDisplay of the manual values. |
| Prediction.OnProductTypeChange | js/radar-chart/prediction.js:107-110 | The handler stores the selected product type, then refreshes. |
| Prediction.OnLoanIntentChange | js/radar-chart/prediction.js:115-118 | The handler stores the selected intent, then refreshes. |
| Prediction.OnLoanAmountInput | js/radar-chart/prediction.js:123-127 | The handler stores the amount, with NaN and 0 stored as 0, then refreshes. |
| Prediction.OnLoanAmountBlur | js/radar-chart/prediction.js:129-134 | The handler stores the amount, with NaN and 0 stored as 50000. It writes that value into the field, then refreshes. |
| Prediction.AmountInputFallback | js/radar-chart/prediction.js:123-127 | The input handler's 0 survives only without data or with a control missing. Otherwise the refresh stores 50000. |
| Prediction.AmountBlurSettles | js/radar-chart/prediction.js:129-134 | After blur, the stored amount is the value written into the field. |
| Prediction.InitialAmountIsFallback | js/radar-chart/state.js:10-14 | The default parameters are Credit Card / Business / 50000, the same amount as the refresh fallback. |
| Chart.CustomerValues | js/radar-chart/chart.js:114-123 | A customer has six plotted values. Each lies in its axis range and is a multiple of its axis step. |
| Chart.CustomerValuesAreRoundedFeatures | js/radar-chart/chart.js:114-123 | Each plotted value is constrainAndRound of the row's field, with DTI multiplied by 100, and is a fixed point of it. |
| Chart.RadialLength | js/radar-chart/chart.js:151-152 | The vertex length is the normalised value times the radius. It lies in [0, radius] for in-range values. |
| Chart.RadialLengthStrictlyIncreasing | js/radar-chart/chart.js:151-152 | A larger value gives a longer radius. |
| Chart.RadialLengthEnds | js/radar-chart/chart.js:151-152 | An axis' min lies at the centre and its max at the rim. |
| Chart.Radii | js/radar-chart/chart.js:173-182 | A profile has six vertex lengths, the i-th being the radial length of the i-th value on axis i. All lie within [0, radius] for in-range values. |
| Chart.FindById | js/radar-chart/chart.js:130 | The result is the first row with the id, and None exactly when no row has it. |
| Chart.PolygonData | js/radar-chart/chart.js:129-132 | Every entry is a selected id that has a row, and it carries the row found for it. Each entry's originalIndex is its id's position in the selection, and entries follow selection order. |
| Chart.PolygonDataKeepsKnownIds | js/radar-chart/chart.js:129-132 | Every selected id that has a row yields an entry at its own position, so only unknown ids are dropped. |
| Chart.PolygonDataComplete | js/radar-chart/chart.js:129-132 | When every selected id is known, there is one entry per id, the i-th being the i-th id. |
| Chart.Polygons | js/radar-chart/chart.js:139-158 | Each polygon carries the colour of its originalIndex, the colour its path gets when it is created. Its radii are those of its customer's plotted values, six lengths all within [0, radius]. |
| Chart.ManualMode | js/radar-chart/chart.js:227 | Definition: nothing is selected. Its properties are stated in Chart.ChartData and Customers.PanelRules. |
| Chart.ChartData | js/radar-chart/chart.js:173-231 | The handles are enabled exactly when nothing is selected. The manual polygon is shown exactly when showManualData is set. Its radii are those of the manual values, and they lie within [0, radius]. The customer polygons are Polygons of the selection's PolygonData. |
| Chart.ChartPolygons | js/radar-chart/chart.js:129-158 | Each polygon drawn is a known selected id carrying the colour of its selection position, the colour its path gets when it is created. Its radii are those of that id's first row's plotted values. With every id known, polygons match the selection one to one. |
| Chart.ChartOfValidState | js/radar-chart/chart.js:173-182 | In a valid state the manual polygon stays within the rim. |
| Customers.IndexOf | js/radar-chart/customers.js:271 | The result is -1 exactly when the id is absent, and otherwise the first position of the id. |
| Customers.Without | js/radar-chart/customers.js:275-277 | The rest of the selection is exactly the ids other than the removed one. |
| Customers.ToggledSelection | js/radar-chart/customers.js:271-277 | Definition: push the id when absent, splice it out otherwise. Its properties are stated in Customers.ToggleAppends, Customers.ToggleRemoves and Customers.ToggleInvariant. |
| Customers.ToggleAppends | js/radar-chart/customers.js:272-274 | Toggling an unselected id appends it at the end. |
| Customers.ToggleRemoves | js/radar-chart/customers.js:275-277 | Toggling a selected id removes exactly it and keeps the order of the rest. |
| Customers.ToggleInvariant | js/radar-chart/customers.js:270-280 | Toggling keeps the selection free of repeats and flips the toggled id's membership. Other ids are unaffected, and the count moves by one. |
| Customers.ToggleTwiceRestores | js/radar-chart/customers.js:270-280 | Selecting and then deselecting an id restores the selection. |
| Customers.ToggleCustomer | js/radar-chart/customers.js:270-292 | The selection becomes the toggled one, and a deselected id leaves the expanded set. The list window is recomputed as WindowAfter says. The state stays valid. |
| Customers.ClearAllCustomers | js/radar-chart/customers.js:295-309 | Clearing empties both the selection and the expanded set, and the list window is recomputed as WindowAfter says. |
| Customers.ToggleExpanded | js/radar-chart/customers.js:105-117 | The expand button flips the id's membership in the expanded set, and expanded ⊆ selected is kept. |
| Customers.ToUpperChar | js/radar-chart/customers.js:322 | Lower-case ASCII letters map to upper case, and every other character is kept. |
| Customers.ToUpper | js/radar-chart/customers.js:322-323 | The result has the same length, with every character upper-cased by ToUpperChar. |
| Customers.ToUpperIdempotent | js/radar-chart/customers.js:322 | Upper-casing twice equals upper-casing once. |
| Customers.FindCaseInsensitive | js/radar-chart/customers.js:323 | The result is the first dataset row whose id matches up to case, and None exactly when no row matches. |
| Customers.SelectionAfterAdd | js/radar-chart/customers.js:320-333 | Definition: the selection after an add. Its properties are stated in Customers.AddAppendsRowId and Customers.AddIdempotent. |
| Customers.AddAppendsRowId | js/radar-chart/customers.js:320-334 | An add appends at most one id, and that id is the matching row's own id. It appends that id exactly when it is not yet selected. An unknown id changes nothing. |
| Customers.AddIdempotent | js/radar-chart/customers.js:320-334 | Repeating an add changes nothing more, and ids equal up to case add the same customer. |
| Customers.AddCustomerById | js/radar-chart/customers.js:320-334 | found is true exactly when some row matches up to case. The selection becomes SelectionAfterAdd, and the expanded set is untouched. The list window is recomputed exactly when the selection changed. |
| Customers.VisibleStart | js/radar-chart/customers.js:156 | visibleStart ≥ 0, and otherwise it lies at least buffer rows before the first visible row. It is never a whole row earlier than that. |
| Customers.VisibleEnd | js/radar-chart/customers.js:157-160 | visibleEnd ≤ length − 1, and otherwise it lies at least buffer rows past the viewport bottom. It is never a whole row later than that. |
| Customers.VisibleRangeCoversViewport | js/radar-chart/customers.js:147-165 | Every row that shows through the viewport lies in [visibleStart, visibleEnd]. |
| Customers.VisibleEndNonNegative | js/radar-chart/customers.js:157-160 | With a non-negative viewport the window is not empty. |
| Customers.WindowAfter | js/radar-chart/customers.js:147-165 | The window is unchanged without a container or without rows. Otherwise it is VisibleStart to VisibleEnd, within the list, with the new scrollTop. Heights and buffer are kept. |
| Customers.CalculateVisibleRange | js/radar-chart/customers.js:147-165 | Nothing changes without a container or without rows. Otherwise start, end and scrollTop are recomputed, giving WindowAfter of the old window. |
| Customers.LoadCustomerData | js/radar-chart/customers.js:11-18 | Loading stores the rows, recomputes the window and refreshes the prediction. |
| Customers.WarningShown | js/radar-chart/customers.js:261 | Definition: more than ten customers are selected. Its properties are stated in Customers.PanelRules and Customers.WarningAfterToggle. |
| Customers.ClearAllDisabled | js/radar-chart/customers.js:315 | Definition: the selection is empty. Its properties are stated in Customers.PanelRules. |
| Customers.PanelRules | js/radar-chart/customers.js:259-315 | The warning shows exactly above 10 customers, and Clear All is disabled exactly in manual mode. |
| Customers.WarningAfterToggle | js/radar-chart/customers.js:270-290 | The warning switches only when the 11th customer is added or removed. |
| Interactions.InputsAfterUpdate | js/radar-chart/interactions.js:10-17 | Every field that is present and not focused shows the stored value, and the others keep their text. |
| Interactions.InputsAfterUpdateIdempotent | js/radar-chart/interactions.js:10-17 | Refreshing the fields twice equals refreshing them once. |
| Interactions.UpdateInputs | js/radar-chart/interactions.js:10-17 | The loop leaves the fields as InputsAfterUpdate says. |
| Interactions.OnInput | js/radar-chart/interactions.js:29-40 | NaN changes nothing. A number is stored clamped but unrounded, at its index only, and the prediction is refreshed. |
| Interactions.OnBlur | js/radar-chart/interactions.js:43-55 | NaN restores the field to the stored value and changes nothing. A number is stored through constrainAndRound at its index only. |
| Interactions.BlurAfterInput | js/radar-chart/interactions.js:29-55 | Blur after input stores what blur alone would store, and a second blur keeps it. |
| Interactions.DragValue | js/radar-chart/interactions.js:91-95 | The drag value lies in the axis range, and its radial length is the projection clamped to [0, radius]. |
| Interactions.DragValueMonotone | js/radar-chart/interactions.js:87-98 | The drag mapping is non-decreasing, before and after rounding. |
| Interactions.DragValueEnds | js/radar-chart/interactions.js:91-95 | Dragging to the centre gives the axis min, and dragging to the rim or beyond gives the max. |
| Interactions.OnDragStart | js/radar-chart/interactions.js:71-72 | Drag start sets isDragging. |
| Interactions.OnDragEnd | js/radar-chart/interactions.js:105-106 | Drag end clears isDragging. |
| Interactions.OnDrag | js/radar-chart/interactions.js:79-104 | With any customer selected, nothing changes. Otherwise the rounded drag value is stored at its index only, then fields and prediction are refreshed. |

## Left out

- Utils.EuclideanDistanceSquared: returns the squared distance. `Math.sqrt` is strictly increasing on non-negative reals, so the sort order and ties it induces are the same. The model does not compute the square root itself.
- Utils.EuclideanDistanceSquared: requires point1 to be no longer than point2. JavaScript would read `undefined` and produce NaN, but every caller passes two seven-element points.
- Floating point is not modelled: all arithmetic is exact over the reals, and integers are unbounded.
- `parseFloat` and `parseInt` of dataset fields are not modelled. Rows arrive as parsed numbers, so a row with an unparsable field, which would give a NaN distance, is outside the model.
- Customers.ToUpperChar: upper-cases ASCII letters only. It does not model Unicode case mapping, which can change a string's length.
- Chart.ChartData: colours each polygon by its current position in the selection. On the page, the D3 join keyed by id sets the colour only when a path is created, so an existing polygon keeps its old colour after an earlier customer is removed.
- Chart.Polygons: gives each polygon the colour of its current originalIndex. The page sets fill and stroke only on the enter selection, so a path that already exists keeps the colour it was created with.
- Chart.ChartPolygons: states the colour of each polygon by its current selection position, for the same reason. The model has no memory of which paths already exist.
- Customers.ToggleExpanded: flips the set at once. The page does it two animation frames after the click, and it disables the button meanwhile.
- Timing and the event loop are not modelled either: transitions, scroll throttling and the delayed virtual-list refresh.
- updateChart, updateHandlesState and the list items are not state changes. Chart.ChartData models only the view data they render. Of updateVirtualScroll, only its call to calculateVisibleRange changes state. That call is modelled, and the rendering of the visible rows is left out.
- SVG/D3 drawing and the trigonometry of vertex coordinates are left out. So is the drag's dot product: a drag takes its projection as a number.
- `formatValue`, the customer tags, the expandable detail sections, the HSL hue and the CSS strings are left out. They are presentation and locale-dependent formatting.
- The CSV fetch is asynchronous I/O. Customers.LoadCustomerData receives the parsed rows, and the error path that prints a message is left out.
- The `alert` of addCustomerById becomes `found == false`.
- Prediction.PredictLoanApproval: takes the dataset as a parameter instead of reading the shared state. The model has no "missing dataset" case, because the dataset is always a sequence.
- The Enter key handler of the value fields only triggers blur, so it is not modelled separately. The initial field assignments are also left out: in initializeInputs, and in initializeLoanParameters for the product type, intent and amount controls (js/radar-chart/prediction.js lines 106, 114 and 122).
- js/main.js is not part of this model: it only wires listeners to the page.
