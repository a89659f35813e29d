/** The forecasting service: rows are grouped into per-item quarterly time series,
    each series goes through a sufficiency gate and an external Holt-Winters
    predictor, and the forecasts are compared with the previous year's actuals. */
module ForecastingService {
  import opened Budget

  // ---------------------------------------------------------------------------
  // Grouping
  // ---------------------------------------------------------------------------

  /** The grouping key: the template string `${description}-${department}-${category}`. */
  function Key(r: HistoricalRecord): string
  {
    r.description + "-" + r.department + "-" + r.category
  }

  /** The four observations one row contributes, in quarter order. */
  function Quarters(r: HistoricalRecord): seq<real>
  {
    [r.q1, r.q2, r.q3, r.q4]
  }

  /** The keys of the rows (defined left to right, as the reduce runs). */
  function KeySet(data: seq<HistoricalRecord>): set<string>
  {
    if data == [] then {} else KeySet(data[..|data| - 1]) + {Key(data[|data| - 1])}
  }

  /** The index of the first row with key `k`. */
  function FirstIndex(data: seq<HistoricalRecord>, k: string): (i: nat)
    requires k in KeySet(data)
    ensures i < |data| && Key(data[i]) == k
  {
    var prefix := data[..|data| - 1];
    if k in KeySet(prefix) then
      var i := FirstIndex(prefix, k);
      assert data[i] == prefix[i];
      i
    else |data| - 1
  }

  /** The distinct keys in first-encounter order: the iteration order of the
      grouping dictionary. */
  function KeyOrder(data: seq<HistoricalRecord>): (keys: seq<string>)
    ensures forall k :: k in keys <==> k in KeySet(data)
    ensures forall a, b :: 0 <= a < b < |keys| ==> keys[a] != keys[b]
  {
    if data == [] then []
    else
      var prefix := data[..|data| - 1];
      var key := Key(data[|data| - 1]);
      if key in KeySet(prefix) then KeyOrder(prefix) else KeyOrder(prefix) + [key]
  }

  /** The time series of key `k`: the quarters of every row with that key,
      concatenated in input order. */
  function SeriesOf(data: seq<HistoricalRecord>, k: string): seq<real>
  {
    if data == [] then []
    else
      var last := data[|data| - 1];
      SeriesOf(data[..|data| - 1], k) + (if Key(last) == k then Quarters(last) else [])
  }

  /** The number of rows with key `k`. */
  function CountKey(data: seq<HistoricalRecord>, k: string): nat
  {
    if data == [] then 0
    else CountKey(data[..|data| - 1], k) + (if Key(data[|data| - 1]) == k then 1 else 0)
  }

  /** One entry of the grouping dictionary: `{ ...item, timeSeries }`. */
  datatype Group = Group(item: HistoricalRecord, timeSeries: seq<real>)

  /** The group the reduce builds for key `k`: the metadata of the first row
      with that key and the series of all of them. */
  function GroupOf(data: seq<HistoricalRecord>, k: string): (g: Group)
    requires k in KeySet(data)
    ensures Key(g.item) == k && g.item in data
  {
    Group(data[FirstIndex(data, k)], SeriesOf(data, k))
  }

  /** Every row's key is in the key set. */
  lemma {:induction false} KeySetHas(data: seq<HistoricalRecord>, j: nat)
    requires j < |data|
    ensures Key(data[j]) in KeySet(data)
  {
    if j < |data| - 1 {
      var prefix := data[..|data| - 1];
      KeySetHas(prefix, j);
      assert prefix[j] == data[j];
    }
  }

  /** The key set holds exactly the keys of the rows. */
  lemma KeySetIsKeys(data: seq<HistoricalRecord>, k: string)
    ensures k in KeySet(data) <==> exists j :: 0 <= j < |data| && Key(data[j]) == k
  {
    if k in KeySet(data) {
      var j := FirstIndex(data, k);
    }
    if j :| 0 <= j < |data| && Key(data[j]) == k {
      KeySetHas(data, j);
    }
  }

  /** No row before the first index has the key. */
  lemma {:induction false} FirstIndexIsFirst(data: seq<HistoricalRecord>, k: string, j: nat)
    requires k in KeySet(data) && j < FirstIndex(data, k)
    ensures Key(data[j]) != k
  {
    var prefix := data[..|data| - 1];
    assert prefix[j] == data[j];
    if k in KeySet(prefix) {
      FirstIndexIsFirst(prefix, k, j);
    } else {
      KeySetHas(prefix, j);
    }
  }

  /** The key order is the order of first occurrence. */
  lemma {:induction false} KeyOrderIsFirstEncounter(data: seq<HistoricalRecord>, a: nat, b: nat)
    requires a < b < |KeyOrder(data)|
    ensures FirstIndex(data, KeyOrder(data)[a]) < FirstIndex(data, KeyOrder(data)[b])
  {
    var prefix := data[..|data| - 1];
    var keys := KeyOrder(prefix);
    if b < |keys| {
      KeyOrderIsFirstEncounter(prefix, a, b);
      assert keys[a] in KeySet(prefix) && keys[b] in KeySet(prefix);
    } else {
      assert keys[a] in KeySet(prefix);
    }
  }

  /** A key that no row carries has an empty series. */
  lemma {:induction false} SeriesOfAbsent(data: seq<HistoricalRecord>, k: string)
    requires k !in KeySet(data)
    ensures SeriesOf(data, k) == []
  {
    if data != [] {
      SeriesOfAbsent(data[..|data| - 1], k);
    }
  }

  /** The reduce of generateForecast: folds the rows into a dictionary from key
      to group, remembering the order in which keys were first inserted. */
  method GroupRows(data: seq<HistoricalRecord>) returns (keys: seq<string>, groups: map<string, Group>)
    ensures keys == KeyOrder(data)
    ensures groups.Keys == KeySet(data)
    ensures forall k :: k in groups ==> groups[k] == GroupOf(data, k)
  {
    keys, groups := [], map[];
    for i := 0 to |data|
      invariant keys == KeyOrder(data[..i])
      invariant groups.Keys == KeySet(data[..i])
      invariant forall k :: k in groups ==> groups[k] == GroupOf(data[..i], k)
    {
      var item := data[i];
      var key := Key(item);
      KeyOrderStep(data, i);
      GroupStep(data, i, groups);
      if key !in groups {
        keys := keys + [key];
      }
      var group := if key in groups then groups[key] else Group(item, []);
      groups := groups[key := group.(timeSeries := group.timeSeries + Quarters(item))];
    }
    assert data[..|data|] == data;
  }

  /** One more row appends its key to the key order when the key is new. */
  lemma KeyOrderStep(data: seq<HistoricalRecord>, i: nat)
    requires i < |data|
    ensures KeySet(data[..i + 1]) == KeySet(data[..i]) + {Key(data[i])}
    ensures KeyOrder(data[..i + 1]) ==
            if Key(data[i]) in KeySet(data[..i]) then KeyOrder(data[..i]) else KeyOrder(data[..i]) + [Key(data[i])]
  {
    assert data[..i + 1][..i] == data[..i];
  }

  /** The step adds the row's key to the dictionary's keys. */
  lemma GroupStepKeys(data: seq<HistoricalRecord>, i: nat, groups: map<string, Group>, group: Group)
    requires i < |data|
    requires groups.Keys == KeySet(data[..i])
    ensures groups[Key(data[i]) := group].Keys == KeySet(data[..i + 1])
  {
    KeyOrderStep(data, i);
  }

  /** One more row extends its key's group (creating it from that row when the
      key is new) and leaves every other group as it was. */
  lemma GroupStep(data: seq<HistoricalRecord>, i: nat, groups: map<string, Group>)
    requires i < |data|
    requires groups.Keys == KeySet(data[..i])
    requires forall k :: k in groups ==> groups[k] == GroupOf(data[..i], k)
    ensures var key := Key(data[i]);
            var group := if key in groups then groups[key] else Group(data[i], []);
            var next := groups[key := group.(timeSeries := group.timeSeries + Quarters(data[i]))];
            && next.Keys == KeySet(data[..i + 1])
            && forall k :: k in next ==> next[k] == GroupOf(data[..i + 1], k)
  {
    var key := Key(data[i]);
    var group := if key in groups then groups[key] else Group(data[i], []);
    var extended := group.(timeSeries := group.timeSeries + Quarters(data[i]));
    GroupStepKeys(data, i, groups, extended);
    if key in groups {
      GroupOfSeen(data, i);
    } else {
      GroupOfNew(data, i);
    }
    OtherGroupsKept(data, i, groups);
  }

  /** The step leaves the groups of the other keys as they were. */
  lemma OtherGroupsKept(data: seq<HistoricalRecord>, i: nat, groups: map<string, Group>)
    requires i < |data|
    requires groups.Keys == KeySet(data[..i])
    requires forall k :: k in groups ==> groups[k] == GroupOf(data[..i], k)
    ensures forall k :: k in groups && k != Key(data[i]) ==> k in KeySet(data[..i + 1]) && groups[k] == GroupOf(data[..i + 1], k)
  {
    forall k | k in groups && k != Key(data[i])
      ensures k in KeySet(data[..i + 1]) && groups[k] == GroupOf(data[..i + 1], k)
    {
      GroupOfOther(data, i, k);
    }
  }

  /** The row's key was seen before: its group keeps its first row and gains the row's quarters. */
  lemma GroupOfSeen(data: seq<HistoricalRecord>, i: nat)
    requires i < |data| && Key(data[i]) in KeySet(data[..i])
    ensures Key(data[i]) in KeySet(data[..i + 1])
    ensures var g := GroupOf(data[..i], Key(data[i]));
            GroupOf(data[..i + 1], Key(data[i])) == g.(timeSeries := g.timeSeries + Quarters(data[i]))
  {
    var prefix, rows := data[..i], data[..i + 1];
    assert rows[..i] == prefix;
    assert rows[i] == data[i];
    var first := FirstIndex(prefix, Key(data[i]));
    assert rows[first] == prefix[first];
  }

  /** The row's key is new: its group is that row with the row's quarters. */
  lemma GroupOfNew(data: seq<HistoricalRecord>, i: nat)
    requires i < |data| && Key(data[i]) !in KeySet(data[..i])
    ensures Key(data[i]) in KeySet(data[..i + 1])
    ensures GroupOf(data[..i + 1], Key(data[i])) == Group(data[i], Quarters(data[i]))
  {
    var prefix, rows := data[..i], data[..i + 1];
    assert rows[..i] == prefix;
    assert rows[i] == data[i];
    SeriesOfAbsent(prefix, Key(data[i]));
    assert [] + Quarters(data[i]) == Quarters(data[i]);
  }

  /** The groups of other keys are unaffected by the row. */
  lemma GroupOfOther(data: seq<HistoricalRecord>, i: nat, k: string)
    requires i < |data| && k in KeySet(data[..i]) && k != Key(data[i])
    ensures k in KeySet(data[..i + 1])
    ensures GroupOf(data[..i + 1], k) == GroupOf(data[..i], k)
  {
    var prefix, rows := data[..i], data[..i + 1];
    assert rows[..i] == prefix;
    assert rows[i] == data[i];
    var first := FirstIndex(prefix, k);
    assert rows[first] == prefix[first];
    assert SeriesOf(rows, k) == SeriesOf(prefix, k) + [];
  }

  // ---------------------------------------------------------------------------
  // Forecast
  // ---------------------------------------------------------------------------

  /** The smoothing weights handed to the predictor (level, trend, seasonal). */
  datatype Smoothing = Smoothing(alpha: real, beta: real, gamma: real)

  /** The external Holt-Winters routine `nostradamus(series, alpha, beta, gamma,
      period, horizon)`: its predictions, or None when it throws. */
  type Predictor = (seq<real>, Smoothing, nat, nat) -> Option<seq<real>>

  /** A forecast record: `{ ...item, year, forecastedQ1..Q4, forecastedTotal }`,
      where `item.year` is the forecast year and `timeSeries` is the group's. */
  datatype Forecast = Forecast(
    item: HistoricalRecord,
    timeSeries: seq<real>,
    forecastedQ1: real, forecastedQ2: real, forecastedQ3: real, forecastedQ4: real,
    forecastedTotal: real)

  /** `predictions.slice(-n)` for n >= 1: the last n entries, or all of them. */
  function LastN(predictions: seq<real>, n: nat): (r: seq<real>)
    requires n >= 1
    ensures |r| == if |predictions| < n then |predictions| else n
    ensures r == predictions[|predictions| - |r|..]
  {
    if |predictions| <= n then predictions else predictions[|predictions| - n..]
  }

  /** `values[k] || 0`: an absent entry reads as 0 (a zero entry is 0 anyway). */
  function ValueAt(values: seq<real>, k: nat): (r: real)
    ensures k < |values| ==> r == values[k]
    ensures k >= |values| ==> r == 0.0
  {
    if k < |values| then values[k] else 0.0
  }

  /** The fallback record of both the insufficient-data and the predictor-failure
      paths: all forecast fields 0 and the group's year left as it is. */
  function ZeroForecast(g: Group): Forecast
  {
    Forecast(g.item, g.timeSeries, 0.0, 0.0, 0.0, 0.0, 0.0)
  }

  /** What one iteration of the `for..in` loop pushes for a group. */
  function ForecastFor(g: Group, period: nat, s: Smoothing, predict: Predictor): (f: Forecast)
    requires period >= 1
    ensures f.forecastedTotal == f.forecastedQ1 + f.forecastedQ2 + f.forecastedQ3 + f.forecastedQ4
    ensures f.timeSeries == g.timeSeries && f.item.(year := g.item.year) == g.item
    ensures Key(f.item) == Key(g.item)
    ensures |g.timeSeries| < 2 * period ==> f == ZeroForecast(g)
    ensures |g.timeSeries| >= 2 * period && predict(g.timeSeries, s, period, period).None? ==> f == ZeroForecast(g)
    ensures |g.timeSeries| >= 2 * period && predict(g.timeSeries, s, period, period).Some? ==>
              var p := predict(g.timeSeries, s, period, period).value;
              var n := if |p| < period then |p| else period;
              && f.item.year == g.item.year + 1.0
              && f.forecastedQ1 == (if 0 < n then p[|p| - n] else 0.0)
              && f.forecastedQ2 == (if 1 < n then p[|p| - n + 1] else 0.0)
              && f.forecastedQ3 == (if 2 < n then p[|p| - n + 2] else 0.0)
              && f.forecastedQ4 == (if 3 < n then p[|p| - n + 3] else 0.0)
  {
    if |g.timeSeries| < 2 * period then ZeroForecast(g)
    else match predict(g.timeSeries, s, period, period)
      case None => ZeroForecast(g)
      case Some(predictions) =>
        var values := LastN(predictions, period);
        var q1, q2, q3, q4 := ValueAt(values, 0), ValueAt(values, 1), ValueAt(values, 2), ValueAt(values, 3);
        Forecast(g.item.(year := g.item.year + 1.0), g.timeSeries, q1, q2, q3, q4, q1 + q2 + q3 + q4)
  }

  /** The keys of a list of forecasts. */
  function KeysOf(forecasts: seq<Forecast>): (keys: seq<string>)
    ensures |keys| == |forecasts|
    ensures forall i :: 0 <= i < |forecasts| ==> keys[i] == Key(forecasts[i].item)
  {
    seq(|forecasts|, i requires 0 <= i < |forecasts| => Key(forecasts[i].item))
  }

  /** The body of the `for..in` loop for one group: the sufficiency gate, the
      predictor call and the last-`period` slice. */
  method ForecastGroup(group: Group, period: nat, s: Smoothing, predict: Predictor) returns (forecast: Forecast)
    requires period >= 1
    ensures forecast == ForecastFor(group, period, s, predict)
  {
    var timeSeries := group.timeSeries;
    if |timeSeries| < 2 * period {
      return ZeroForecast(group);
    }
    var predictions := predict(timeSeries, s, period, period);
    if predictions.None? {
      return ZeroForecast(group);
    }
    var values := LastN(predictions.value, period);
    var q1, q2, q3, q4 := ValueAt(values, 0), ValueAt(values, 1), ValueAt(values, 2), ValueAt(values, 3);
    var nextYear := group.item.year + 1.0;
    forecast := Forecast(group.item.(year := nextYear), timeSeries, q1, q2, q3, q4, q1 + q2 + q3 + q4);
  }

  /** generateForecast: one forecast per distinct key, in first-encounter order,
      each computed from that key's group. `department` is accepted and unused. */
  method GenerateForecast(data: seq<HistoricalRecord>, department: string, period: nat, s: Smoothing, predict: Predictor)
    returns (forecasts: seq<Forecast>)
    requires period >= 1
    ensures KeysOf(forecasts) == KeyOrder(data)
    ensures forall i :: 0 <= i < |forecasts| ==>
              forecasts[i] == ForecastFor(GroupOf(data, KeyOrder(data)[i]), period, s, predict)
  {
    var keys, groups := GroupRows(data);
    forecasts := [];
    for i := 0 to |keys|
      invariant |forecasts| == i
      invariant forall j :: 0 <= j < i ==> forecasts[j] == ForecastFor(GroupOf(data, keys[j]), period, s, predict)
    {
      var group := groups[keys[i]];
      assert group == GroupOf(data, keys[i]);
      var forecast := ForecastGroup(group, period, s, predict);
      forecasts := forecasts + [forecast];
    }
    assert KeysOf(forecasts) == keys;
  }

  // ---------------------------------------------------------------------------
  // Variance
  // ---------------------------------------------------------------------------

  /** A variance field: the string "N/A" or a signed number. */
  datatype Variance = NotApplicable | Amount(value: real)

  /** `{ ...forecast, varianceQ1..Q4, varianceTotal }` */
  datatype VarianceRecord = VarianceRecord(
    forecast: Forecast,
    varianceQ1: Variance, varianceQ2: Variance, varianceQ3: Variance, varianceQ4: Variance,
    varianceTotal: Variance)

  /** The `find` predicate: same description, department and category, and the
      year before the forecast year. */
  predicate IsPrior(h: HistoricalRecord, f: Forecast)
  {
    && h.description == f.item.description
    && h.department == f.item.department
    && h.category == f.item.category
    && h.year == f.item.year - 1.0
  }

  /** `historicalData.find(...)`, as the index of the first match. */
  function FindPrior(historical: seq<HistoricalRecord>, f: Forecast): (r: Option<nat>)
    ensures r.Some? ==> r.value < |historical| && IsPrior(historical[r.value], f)
    ensures r.Some? ==> forall j :: 0 <= j < r.value ==> !IsPrior(historical[j], f)
    ensures r.None? ==> forall j :: 0 <= j < |historical| ==> !IsPrior(historical[j], f)
  {
    if historical == [] then None
    else if IsPrior(historical[0], f) then Some(0)
    else match FindPrior(historical[1..], f)
      case None => None
      case Some(i) => Some(i + 1)
  }

  /** One element of the variance map. */
  function VarianceFor(f: Forecast, historical: seq<HistoricalRecord>): (v: VarianceRecord)
    ensures v.forecast == f
    ensures v.varianceQ1.NotApplicable? <==> forall j :: 0 <= j < |historical| ==> !IsPrior(historical[j], f)
    ensures v.varianceQ1.NotApplicable? ==>
              v.varianceQ2.NotApplicable? && v.varianceQ3.NotApplicable? &&
              v.varianceQ4.NotApplicable? && v.varianceTotal.NotApplicable?
    ensures forall j ::
              (0 <= j < |historical| && IsPrior(historical[j], f) &&
               forall i :: 0 <= i < j ==> !IsPrior(historical[i], f))
              ==> var h := historical[j];
                  && v.varianceQ1 == Amount(f.forecastedQ1 - h.q1)
                  && v.varianceQ2 == Amount(f.forecastedQ2 - h.q2)
                  && v.varianceQ3 == Amount(f.forecastedQ3 - h.q3)
                  && v.varianceQ4 == Amount(f.forecastedQ4 - h.q4)
                  && v.varianceTotal == Amount(f.forecastedTotal - h.total)
  {
    match FindPrior(historical, f)
    case None =>
      VarianceRecord(f, NotApplicable, NotApplicable, NotApplicable, NotApplicable, NotApplicable)
    case Some(j) =>
      var h := historical[j];
      VarianceRecord(f,
        Amount(f.forecastedQ1 - h.q1), Amount(f.forecastedQ2 - h.q2),
        Amount(f.forecastedQ3 - h.q3), Amount(f.forecastedQ4 - h.q4),
        Amount(f.forecastedTotal - h.total))
  }

  /** analyzeVariance: a map over the forecasts. */
  function AnalyzeVariance(forecasts: seq<Forecast>, historical: seq<HistoricalRecord>): (r: seq<VarianceRecord>)
    ensures |r| == |forecasts|
    ensures forall i :: 0 <= i < |r| ==> r[i].forecast == forecasts[i]
    ensures forall i :: 0 <= i < |r| ==> r[i] == VarianceFor(forecasts[i], historical)
  {
    seq(|forecasts|, i requires 0 <= i < |forecasts| => VarianceFor(forecasts[i], historical))
  }

  // ---------------------------------------------------------------------------
  // Properties
  // ---------------------------------------------------------------------------

  /** A group's series holds four observations per contributing row. */
  lemma {:induction false} SeriesLength(data: seq<HistoricalRecord>, k: string)
    ensures |SeriesOf(data, k)| == 4 * CountKey(data, k)
  {
    if data != [] {
      SeriesLength(data[..|data| - 1], k);
    }
  }

  /** Later rows only extend a series: the series of a concatenation is the
      concatenation of the series. */
  lemma {:induction false} SeriesAppend(a: seq<HistoricalRecord>, b: seq<HistoricalRecord>, k: string)
    ensures SeriesOf(a + b, k) == SeriesOf(a, k) + SeriesOf(b, k)
  {
    if b == [] {
      assert a + b == a;
    } else {
      var last := b[|b| - 1];
      assert (a + b)[..|a + b| - 1] == a + b[..|b| - 1];
      assert (a + b)[|a + b| - 1] == last;
      SeriesAppend(a, b[..|b| - 1], k);
    }
  }

  /** Rows appended after a key's first row do not change that group's metadata. */
  lemma {:induction false} FirstRowKept(a: seq<HistoricalRecord>, b: seq<HistoricalRecord>, k: string)
    requires k in KeySet(a)
    ensures k in KeySet(a + b)
    ensures FirstIndex(a + b, k) == FirstIndex(a, k)
    ensures GroupOf(a + b, k).item == GroupOf(a, k).item
  {
    if b == [] {
      assert a + b == a;
    } else {
      var b' := b[..|b| - 1];
      assert (a + b)[..|a + b| - 1] == a + b';
      FirstRowKept(a, b', k);
      assert (a + b)[FirstIndex(a, k)] == a[FirstIndex(a, k)];
    }
  }

  /** Two rows whose keys are equal end up in one group that carries the first
      row's metadata and both rows' quarters. */
  lemma SharedKeyMerges(a: HistoricalRecord, b: HistoricalRecord)
    requires Key(a) == Key(b)
    ensures Key(b) in KeySet([a, b])
    ensures GroupOf([a, b], Key(b)) == Group(a, Quarters(a) + Quarters(b))
  {
    assert [a, b][..1] == [a];
    assert [a][..0] == [];
    assert Key(a) in KeySet([a]);
    assert SeriesOf([a], Key(b)) == Quarters(a);
  }

  /** The key is built by plain concatenation, so two different items can share
      a key when a field contains the separator. */
  lemma KeyCollision()
    ensures var a := HistoricalRecord("Office-Supplies", None, "General", "HR", 2023.0, 1.0, 1.0, 1.0, 1.0, 4.0);
            var b := HistoricalRecord("Office", None, "General", "Supplies-HR", 2023.0, 2.0, 2.0, 2.0, 2.0, 8.0);
            (a.description, a.department) != (b.description, b.department) && Key(a) == Key(b)
  {
  }

  /** The index of the first '-' in a string (its length when there is none). */
  function SeparatorIndex(s: string): (i: nat)
    ensures i <= |s|
    ensures forall j :: 0 <= j < i ==> s[j] != '-'
    ensures i < |s| ==> s[i] == '-'
  {
    if s == [] then 0 else if s[0] == '-' then 0 else 1 + SeparatorIndex(s[1..])
  }

  lemma {:induction false} SeparatorAfterPrefix(x: string, rest: string)
    requires '-' !in x
    ensures SeparatorIndex(x + "-" + rest) == |x|
  {
    if x != [] {
      assert (x + "-" + rest)[1..] == x[1..] + "-" + rest;
      SeparatorAfterPrefix(x[1..], rest);
    }
  }

  /** Splitting at the first separator: a prefix free of '-' is determined. */
  lemma SplitAtSeparator(x: string, r1: string, y: string, r2: string)
    requires '-' !in x && '-' !in y
    requires x + "-" + r1 == y + "-" + r2
    ensures x == y && r1 == r2
  {
    var s := x + "-" + r1;
    SeparatorAfterPrefix(x, r1);
    SeparatorAfterPrefix(y, r2);
    assert x == s[..|x|];
    assert y == (y + "-" + r2)[..|y|];
    assert r1 == s[|x| + 1..];
    assert r2 == (y + "-" + r2)[|y| + 1..];
  }

  /** When descriptions and departments contain no '-', rows share a key
      exactly when they share (description, department, category). */
  lemma KeyIdentifiesItem(a: HistoricalRecord, b: HistoricalRecord)
    requires '-' !in a.description && '-' !in a.department
    requires '-' !in b.description && '-' !in b.department
    ensures Key(a) == Key(b) <==>
              (a.description, a.department, a.category) == (b.description, b.department, b.category)
  {
    if Key(a) == Key(b) {
      assert Key(a) == a.description + "-" + (a.department + "-" + a.category);
      assert Key(b) == b.description + "-" + (b.department + "-" + b.category);
      SplitAtSeparator(a.description, a.department + "-" + a.category, b.description, b.department + "-" + b.category);
      SplitAtSeparator(a.department, a.category, b.department, b.category);
    }
  }

  /** On the success path the forecast year is the first row's year plus one,
      so the variance step always finds a prior row: the group's first row. */
  lemma SuccessComparesWithFirstRow(data: seq<HistoricalRecord>, k: string, period: nat, s: Smoothing, predict: Predictor)
    requires period >= 1 && k in KeySet(data)
    requires |SeriesOf(data, k)| >= 2 * period && predict(SeriesOf(data, k), s, period, period).Some?
    ensures FindPrior(data, ForecastFor(GroupOf(data, k), period, s, predict)) == Some(FirstIndex(data, k))
  {
    var g := GroupOf(data, k);
    var f := ForecastFor(g, period, s, predict);
    var first := FirstIndex(data, k);
    assert f.item == g.item.(year := g.item.year + 1.0);
    assert IsPrior(data[first], f);
    forall i | 0 <= i < first
      ensures !IsPrior(data[i], f)
    {
      FirstIndexIsFirst(data, k, i);
      KeyOfPrior(data[i], f);
    }
    FindPriorFirst(data, f, first);
  }

  /** A prior row shares the forecast item's key. */
  lemma KeyOfPrior(h: HistoricalRecord, f: Forecast)
    ensures IsPrior(h, f) ==> Key(h) == Key(f.item)
  {
  }

  /** The `find` returns the first matching row. */
  lemma FindPriorFirst(historical: seq<HistoricalRecord>, f: Forecast, j: nat)
    requires j < |historical| && IsPrior(historical[j], f)
    requires forall i :: 0 <= i < j ==> !IsPrior(historical[i], f)
    ensures FindPrior(historical, f) == Some(j)
  {
  }

  /** On a fallback path the year is left unchanged, so the variance step looks
      for the year before the first row; when no row with the key is older than
      the first one, every variance field is "N/A". */
  lemma FallbackHasNoPrior(data: seq<HistoricalRecord>, k: string, period: nat, s: Smoothing, predict: Predictor)
    requires period >= 1 && k in KeySet(data)
    requires |SeriesOf(data, k)| < 2 * period || predict(SeriesOf(data, k), s, period, period).None?
    requires forall j :: 0 <= j < |data| && Key(data[j]) == k ==> data[j].year >= GroupOf(data, k).item.year
    ensures VarianceFor(ForecastFor(GroupOf(data, k), period, s, predict), data).varianceQ1 == NotApplicable
  {
    var f := ForecastFor(GroupOf(data, k), period, s, predict);
    assert f.item == GroupOf(data, k).item;
    forall j | 0 <= j < |data|
      ensures !IsPrior(data[j], f)
    {
    }
  }
}
