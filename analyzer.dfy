/**
 * The business analyzer: a record's `prices` list is reduced to a trend by
 * comparing its last price with its first against fixed ±5% thresholds, and
 * the trend is turned into an opportunity label. Any exception raised while
 * detecting the trend is swallowed and yields the empty analysis.
 */
module Analyzer {
  import opened PyJson

  /** The three labels `_detect_trend` returns. */
  datatype Trend = Upward | Downward | Flat

  /** The last price must exceed the first times this factor to be upward. */
  const UpFactor: real := 1.05

  /** The last price must fall below the first times this factor to be downward. */
  const DownFactor: real := 0.95

  const BuyLabel := "Buy signal detected"
  const SellLabel := "Sell signal detected"
  const NoTrendLabel := "No clear trend"

  /** The threshold comparison of the last price with the first. */
  function Classify(first: real, last: real): (t: Trend)
    ensures t == Upward <==> last > first * 1.05
    ensures t == Downward <==> last < first * 0.95 && last <= first * 1.05
    ensures t == Flat <==> first * 0.95 <= last <= first * 1.05
  {
    if last > first * UpFactor then Upward
    else if last < first * DownFactor then Downward
    else Flat
  }

  /**
   * For a positive first price the thresholds are a relative change of more
   * than +5% (upward) or less than -5% (downward).
   */
  lemma ClassifyRelativeChange(first: real, last: real)
    requires first > 0.0
    ensures Classify(first, last) == Upward <==> (last - first) / first > 0.05
    ensures Classify(first, last) == Downward <==> (last - first) / first < -0.05
    ensures Classify(first, last) == Flat <==> -0.05 <= (last - first) / first <= 0.05
  {
    var change := (last - first) / first;
    assert last == first * (1.0 + change);
    assert last > first * UpFactor <==> first * (1.0 + change) > first * 1.05;
    assert last < first * DownFactor <==> first * (1.0 + change) < first * 0.95;
  }

  /**
   * An unchanged non-negative price is flat; an unchanged negative price is
   * upward, since both thresholds lie on the other side of it.
   */
  lemma UnchangedPriceTrend(p: real)
    ensures p >= 0.0 ==> Classify(p, p) == Flat
    ensures p < 0.0 ==> Classify(p, p) == Upward
  {
    if p < 0.0 {
      assert p * UpFactor == p + p * 0.05;
    } else {
      assert p * DownFactor == p - p * 0.05;
      assert p * UpFactor == p + p * 0.05;
    }
  }

  /**
   * Python's `x * 1.05` and the comparisons that follow it: an int or float
   * is its own value, a bool is 0 or 1, anything else raises TypeError.
   */
  function Numeric(j: Json): (r: Outcome<real>)
    ensures r.Raised? <==> !(j.Num? || j.Bool?)
    ensures r.Raised? ==> r.error == TypeError
    ensures j.Num? ==> r == Returned(j.n)
    ensures j.Bool? ==> r == Returned(if j.b then 1.0 else 0.0)
  {
    match j
    case Num(n) => Returned(n)
    case Bool(b) => Returned(if b then 1.0 else 0.0)
    case _ => Raised(TypeError)
  }

  /**
   * `[d['price'] for d in items]`, left to right: the first element that is
   * not a dict holding `price` raises, KeyError for a dict, TypeError for
   * anything else.
   */
  function PriceList(items: seq<Json>): (r: Outcome<seq<Json>>)
    ensures r.Returned? <==> forall k :: 0 <= k < |items| ==> HasKey(items[k], "price")
    ensures r.Returned? ==>
      && |r.value| == |items|
      && forall k :: 0 <= k < |items| ==> r.value[k] == items[k].fields["price"]
    ensures r.Raised? ==>
      exists k :: 0 <= k < |items| && !HasKey(items[k], "price")
        && (forall j :: 0 <= j < k ==> HasKey(items[j], "price"))
        && r.error == (if items[k].Obj? then KeyError else TypeError)
    decreases |items|
  {
    if items == [] then Returned([])
    else
      match Subscript(items[0], "price")
      case Raised(e) => Raised(e)
      case Returned(p) =>
        match PriceList(items[1..])
        case Raised(e) => Raised(e)
        case Returned(ps) => Returned([p] + ps)
  }

  /**
   * The comprehension over whatever `data.get('prices', [])` yielded: a list
   * is walked element by element; iterating a dict yields its keys and
   * iterating a str its characters, and subscripting either with 'price'
   * raises TypeError, so only an empty one gets through; None, numbers and
   * booleans are not iterable.
   */
  function Prices(prices: Json): (r: Outcome<seq<Json>>)
    ensures r.Returned? <==>
      || (prices.Arr? && forall k :: 0 <= k < |prices.items| ==> HasKey(prices.items[k], "price"))
      || prices == Obj(map[])
      || prices == Str("")
    ensures r.Returned? && prices.Arr? ==>
      && |r.value| == |prices.items|
      && forall k :: 0 <= k < |r.value| ==> r.value[k] == prices.items[k].fields["price"]
    ensures r.Returned? && !prices.Arr? ==> r.value == []
  {
    match prices
    case Arr(items) => PriceList(items)
    case Obj(fields) => if |fields| == 0 then Returned([]) else Raised(TypeError)
    case Str(s) => if s == "" then Returned([]) else Raised(TypeError)
    case _ => Raised(TypeError)
  }

  /** `data.get('prices', [])` on a dict. */
  function PricesField(fields: map<string, Json>): (prices: Json)
    ensures "prices" in fields ==> prices == fields["prices"]
    ensures "prices" !in fields ==> Prices(prices) == Returned([])
  {
    if "prices" in fields then fields["prices"] else Arr([])
  }

  /**
   * `_detect_trend`: an empty record is flat; otherwise the record's price
   * list, when it holds at least two prices, is classified by its first and
   * last price; a non-dict record has no `.get` and raises AttributeError.
   */
  function DetectTrend(data: Json): (t: Outcome<Trend>)
    ensures !Truthy(data) ==> t == Returned(Flat)
    ensures Truthy(data) && !data.Obj? ==> t == Raised(AttributeError)
    ensures t.Returned? && t.value != Flat ==>
      && data.Obj? && "prices" in data.fields && data.fields["prices"].Arr?
      && var items := data.fields["prices"].items;
         && |items| >= 2
         && HasKey(items[0], "price") && HasKey(items[|items| - 1], "price")
         && Numeric(items[0].fields["price"]).Returned?
         && Numeric(items[|items| - 1].fields["price"]).Returned?
         && t.value == Classify(Numeric(items[0].fields["price"]).value,
                                Numeric(items[|items| - 1].fields["price"]).value)
  {
    if !Truthy(data) then Returned(Flat)
    else if !data.Obj? then Raised(AttributeError)
    else
      match Prices(PricesField(data.fields))
      case Raised(e) => Raised(e)
      case Returned(ps) =>
        if |ps| < 2 then Returned(Flat)
        else
          match (Numeric(ps[0]), Numeric(ps[|ps| - 1]))
          case (Returned(first), Returned(last)) => Returned(Classify(first, last))
          case _ => Raised(TypeError)
  }

  /** The opportunity label of a trend. */
  function Opportunity(t: Trend): (text: string)
    ensures text == BuyLabel <==> t == Upward
    ensures text == SellLabel <==> t == Downward
    ensures text == NoTrendLabel <==> t == Flat
  {
    match t
    case Upward => BuyLabel
    case Downward => SellLabel
    case Flat => NoTrendLabel
  }

  /**
   * `analyze_trends`: the single key `opportunity` holding the label of the
   * detected trend, or the empty dict when detection raised.
   */
  function AnalyzeTrends(data: Json): (r: map<string, string>)
    ensures r == map[] <==> DetectTrend(data).Raised?
    ensures r != map[] ==> r.Keys == {"opportunity"} && r["opportunity"] in {BuyLabel, SellLabel, NoTrendLabel}
    ensures "opportunity" in r && r["opportunity"] == BuyLabel <==> DetectTrend(data) == Returned(Upward)
    ensures "opportunity" in r && r["opportunity"] == SellLabel <==> DetectTrend(data) == Returned(Downward)
    ensures "opportunity" in r && r["opportunity"] == NoTrendLabel <==> DetectTrend(data) == Returned(Flat)
  {
    match DetectTrend(data)
    case Raised(_) => map[]
    case Returned(t) =>
      var r := map["opportunity" := Opportunity(t)];
      assert "opportunity" in r;
      r
  }

  // ---------------------------------------------------------------------
  // Properties of the classifier

  /** A dict holding a list of priced entries under `prices`. */
  predicate PricedSeries(data: Json)
  {
    && data.Obj? && "prices" in data.fields && data.fields["prices"].Arr?
    && forall k :: 0 <= k < |data.fields["prices"].items| ==> HasKey(data.fields["prices"].items[k], "price")
  }

  /** The `price` of entry k of a priced series. */
  function PriceAt(data: Json, k: nat): Json
    requires PricedSeries(data) && k < |data.fields["prices"].items|
  {
    data.fields["prices"].items[k].fields["price"]
  }

  /** A record with no `prices` key is flat. */
  lemma NoPricesIsFlat(data: Json)
    requires data.Obj? && "prices" !in data.fields
    ensures DetectTrend(data) == Returned(Flat)
  {
    if Truthy(data) {
      assert Prices(PricesField(data.fields)) == Returned([]);
    }
  }

  /** A series of fewer than two priced entries is flat. */
  lemma FewerThanTwoPricesIsFlat(data: Json)
    requires PricedSeries(data) && |data.fields["prices"].items| < 2
    ensures DetectTrend(data) == Returned(Flat)
  {
    assert "prices" in data.fields;
  }

  /**
   * On a series of at least two numeric prices the trend is upward exactly
   * when the last price exceeds the first by more than 5%, downward exactly
   * when it is not upward and the last price is below 95% of the first, and
   * flat otherwise.
   */
  lemma TrendThresholds(data: Json, first: real, last: real)
    requires PricedSeries(data) && |data.fields["prices"].items| >= 2
    requires PriceAt(data, 0) == Num(first)
    requires PriceAt(data, |data.fields["prices"].items| - 1) == Num(last)
    ensures DetectTrend(data) == Returned(Upward) <==> last > first * 1.05
    ensures DetectTrend(data) == Returned(Downward) <==> !(last > first * 1.05) && last < first * 0.95
    ensures DetectTrend(data) == Returned(Flat) <==> first * 0.95 <= last <= first * 1.05
  {
    var items := data.fields["prices"].items;
    var ps := Prices(PricesField(data.fields));
    assert ps.Returned? && |ps.value| == |items|;
    assert ps.value[0] == Num(first) && ps.value[|ps.value| - 1] == Num(last);
  }

  /**
   * For a non-negative first price, prices exactly on either threshold are
   * flat. (Below zero the thresholds swap sides and no series is flat.)
   */
  lemma BoundaryIsFlat(data: Json, first: real)
    requires PricedSeries(data) && |data.fields["prices"].items| >= 2
    requires first >= 0.0 && PriceAt(data, 0) == Num(first)
    requires PriceAt(data, |data.fields["prices"].items| - 1) in {Num(first * 1.05), Num(first * 0.95)}
    ensures DetectTrend(data) == Returned(Flat)
  {
    var last := PriceAt(data, |data.fields["prices"].items| - 1).n;
    TrendThresholds(data, first, last);
  }

  /**
   * Only the first and the last price matter: two records whose priced
   * series agree on those have the same trend, whatever lies between and
   * however long the series are.
   */
  lemma MiddlePricesIrrelevant(a: Json, b: Json)
    requires PricedSeries(a) && |a.fields["prices"].items| >= 2
    requires PricedSeries(b) && |b.fields["prices"].items| >= 2
    requires PriceAt(a, 0) == PriceAt(b, 0)
    requires PriceAt(a, |a.fields["prices"].items| - 1) == PriceAt(b, |b.fields["prices"].items| - 1)
    ensures DetectTrend(a) == DetectTrend(b)
  {
    var pa := Prices(PricesField(a.fields));
    var pb := Prices(PricesField(b.fields));
    assert pa.Returned? && pa.value[0] == pb.value[0];
    assert pa.value[|pa.value| - 1] == pb.value[|pb.value| - 1];
  }

  /** An entry of `prices` without a `price` field makes the analysis empty. */
  lemma MissingPriceGivesEmpty(data: Json, k: nat)
    requires data.Obj? && "prices" in data.fields && data.fields["prices"].Arr?
    requires k < |data.fields["prices"].items| && !HasKey(data.fields["prices"].items[k], "price")
    ensures AnalyzeTrends(data) == map[]
  {
    assert Truthy(data);
    assert Prices(PricesField(data.fields)).Raised?;
  }

  /** A record whose `prices` is not a list of dicts, or a non-empty record that is not a dict, analyzes to nothing. */
  lemma MalformedRecordGivesEmpty(data: Json)
    requires || (Truthy(data) && !data.Obj?)
             || (data.Obj? && "prices" in data.fields
                 && data.fields["prices"] in {Null, Bool(true), Bool(false)})
    ensures AnalyzeTrends(data) == map[]
  {
    if data.Obj? {
      assert Truthy(data);
    }
  }

  /** The series of one record with the given prices, in order. */
  function Series(prices: seq<real>): (data: Json)
    ensures PricedSeries(data) && |data.fields["prices"].items| == |prices|
    ensures forall k :: 0 <= k < |prices| ==> PriceAt(data, k) == Num(prices[k])
  {
    Obj(map["prices" := Arr(seq(|prices|, k requires 0 <= k < |prices| => Obj(map["price" := Num(prices[k])])))])
  }

  /** Prices 100, 100, 100, 106: 106 exceeds 105, so upward and a buy signal. */
  lemma RisingScenario()
    ensures AnalyzeTrends(Series([100.0, 100.0, 100.0, 106.0])) == map["opportunity" := BuyLabel]
  {
    TrendThresholds(Series([100.0, 100.0, 100.0, 106.0]), 100.0, 106.0);
  }

  /** Prices 100, 95: 95 is exactly 95% of 100, which is not below it, so flat. */
  lemma ThresholdScenario()
    ensures AnalyzeTrends(Series([100.0, 95.0])) == map["opportunity" := NoTrendLabel]
  {
    TrendThresholds(Series([100.0, 95.0]), 100.0, 95.0);
  }

  /** Prices 100, 94: below 95, so downward and a sell signal. */
  lemma FallingScenario()
    ensures AnalyzeTrends(Series([100.0, 94.0])) == map["opportunity" := SellLabel]
  {
    TrendThresholds(Series([100.0, 94.0]), 100.0, 94.0);
  }
}
