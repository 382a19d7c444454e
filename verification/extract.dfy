/** Turning whole gateway responses into point lists (main.go:103-155). */
module Extract {
  import opened Wrappers
  import opened Envoy
  import opened Points

  /** Which list of the production response a measurement came from. */
  datatype ListKind = ProductionList | ConsumptionList

  /** The points of one measurement's lines, in line order, each tagged with
      its position counted from 0 within that measurement alone. */
  function LinePoints(lineType: string, lines: seq<Line>, sourceTag: string): seq<Point> {
    seq(|lines|, i requires 0 <= i < |lines| => LineToPoint(lineType, lines[i], i, sourceTag))
  }

  /** The points one measurement contributes, following the two loops of
      extractProductionStats: the production list keeps "production"; the
      consumption list tests its two labels one after the other. */
  function MeasurementPoints(kind: ListKind, m: Measurement, sourceTag: string): seq<Point> {
    match kind
    case ProductionList =>
      if m.measurementType == MeasurementProduction
      then LinePoints(MeasurementProduction, m.lines, sourceTag) else []
    case ConsumptionList =>
      (if m.measurementType == MeasurementTotalConsumption
       then LinePoints(LabelConsumption, m.lines, sourceTag) else [])
      + (if m.measurementType == MeasurementNetConsumption
         then LinePoints(LabelNet, m.lines, sourceTag) else [])
  }

  /** The points of a whole list, measurement by measurement in list order. */
  function Section(kind: ListKind, ms: seq<Measurement>, sourceTag: string): seq<Point>
    decreases |ms|
  {
    if |ms| == 0 then [] else MeasurementPoints(kind, ms[0], sourceTag) + Section(kind, ms[1..], sourceTag)
  }

  /** extractProductionStats: the production list's points, then the
      consumption list's. */
  function ExtractProductionStats(prod: ProductionResponse, sourceTag: string): seq<Point> {
    Section(ProductionList, prod.production, sourceTag) + Section(ConsumptionList, prod.consumption, sourceTag)
  }

  /** extractInverterStats: one point per inverter, at the inverter's position. */
  function ExtractInverterStats(inverters: seq<Inverter>, sourceTag: string): seq<Point> {
    seq(|inverters|, i requires 0 <= i < |inverters| => InverterPoint(inverters[i], sourceTag))
  }

  /** extractBatteryStats: one point per battery, at the battery's position. */
  function ExtractBatteryStats(batteries: seq<Battery>, sourceTag: string): seq<Point> {
    seq(|batteries|, i requires 0 <= i < |batteries| => BatteryPoint(batteries[i], sourceTag))
  }

  // ---------------------------------------------------------------------------
  // Reference definitions

  /** The label a measurement's points are published under, or None when the
      list ignores that measurement type. */
  function Relabel(kind: ListKind, measurementType: string): Option<string> {
    match kind
    case ProductionList =>
      if measurementType == "production" then Some("production") else None
    case ConsumptionList =>
      if measurementType == "total-consumption" then Some("consumption")
      else if measurementType == "net-consumption" then Some("net")
      else None
  }

  /** The number of lines in the measurements of `ms` whose type is `category`. */
  function LinesTyped(ms: seq<Measurement>, category: string): nat
    decreases |ms|
  {
    if |ms| == 0 then 0
    else (if ms[0].measurementType == category then |ms[0].lines| else 0) + LinesTyped(ms[1..], category)
  }

  /** The number of points of `ps` published under category `t`. */
  function CountOfType(ps: seq<Point>, t: string): nat
    decreases |ps|
  {
    if |ps| == 0 then 0 else (if TypeOf(ps[0]) == Some(t) then 1 else 0) + CountOfType(ps[1..], t)
  }

  /** The categories a list's points may be published under. */
  function KindLabels(kind: ListKind): set<string> {
    match kind
    case ProductionList => {"production"}
    case ConsumptionList => {"consumption", "net"}
  }

  // ---------------------------------------------------------------------------
  // Lemmas

  /** A measurement contributes exactly the line points of its published label,
      or nothing when its type is not one its list recognises. */
  lemma MeasurementPointsByLabel(kind: ListKind, m: Measurement, sourceTag: string)
    ensures Relabel(kind, m.measurementType).None? ==> MeasurementPoints(kind, m, sourceTag) == []
    ensures Relabel(kind, m.measurementType).Some? ==>
      MeasurementPoints(kind, m, sourceTag) == LinePoints(Relabel(kind, m.measurementType).value, m.lines, sourceTag)
  {
  }

  /** A list's points are the points of its parts, in order. */
  lemma {:induction false} SectionAppend(kind: ListKind, a: seq<Measurement>, b: seq<Measurement>, sourceTag: string)
    ensures Section(kind, a + b, sourceTag) == Section(kind, a, sourceTag) + Section(kind, b, sourceTag)
    decreases |a|
  {
    if |a| == 0 {
      assert a + b == b;
    } else {
      assert (a + b)[1..] == a[1..] + b;
      SectionAppend(kind, a[1..], b, sourceTag);
    }
  }

  /** The points of a measurement sit, as one block, between those of the
      measurements before it and those after it. */
  lemma SectionSplit(kind: ListKind, before: seq<Measurement>, m: Measurement, after: seq<Measurement>,
                     sourceTag: string)
    ensures Section(kind, before + [m] + after, sourceTag) ==
      Section(kind, before, sourceTag) + MeasurementPoints(kind, m, sourceTag) + Section(kind, after, sourceTag)
  {
    assert Section(kind, [m] + after, sourceTag) == MeasurementPoints(kind, m, sourceTag) + Section(kind, after, sourceTag) by {
      assert ([m] + after)[1..] == after;
    }
    assert before + [m] + after == before + ([m] + after);
    SectionAppend(kind, before, [m] + after, sourceTag);
  }

  /** Order, relabelling and index restart: line `i` of a recognised
      measurement `m` becomes the point at offset `i` past all points of the
      measurements before `m`, named and tagged with its published label and
      with `i` itself as its line index, so the index starts again at 0 for
      every measurement. */
  lemma SectionPointAt(kind: ListKind, before: seq<Measurement>, m: Measurement, after: seq<Measurement>,
                       i: nat, sourceTag: string)
    requires Relabel(kind, m.measurementType).Some? && i < |m.lines|
    ensures var offset := |Section(kind, before, sourceTag)|;
      && offset + i < |Section(kind, before + [m] + after, sourceTag)|
      && Section(kind, before + [m] + after, sourceTag)[offset + i] ==
         LineToPoint(Relabel(kind, m.measurementType).value, m.lines[i], i, sourceTag)
  {
    var pre := Section(kind, before, sourceTag);
    var here := MeasurementPoints(kind, m, sourceTag);
    SectionSplit(kind, before, m, after, sourceTag);
    assert i < |here| && here[i] == LineToPoint(Relabel(kind, m.measurementType).value, m.lines[i], i, sourceTag) by {
      MeasurementPointsByLabel(kind, m, sourceTag);
    }
    ConcatIndex(pre, here, Section(kind, after, sourceTag), i);
  }

  lemma ConcatIndex<T>(a: seq<T>, b: seq<T>, c: seq<T>, i: nat)
    requires i < |b|
    ensures |a| + i < |a + b + c| && (a + b + c)[|a| + i] == b[i]
  {
  }

  /** A measurement whose type its list does not recognise contributes
      nothing: dropping it leaves the list's points unchanged. */
  lemma UnrecognisedContributesNothing(kind: ListKind, before: seq<Measurement>, m: Measurement,
                                       after: seq<Measurement>, sourceTag: string)
    requires Relabel(kind, m.measurementType).None?
    ensures Section(kind, before + [m] + after, sourceTag) == Section(kind, before + after, sourceTag)
  {
    assert MeasurementPoints(kind, m, sourceTag) == [] by {
      MeasurementPointsByLabel(kind, m, sourceTag);
    }
    assert Section(kind, [m] + after, sourceTag) == Section(kind, after, sourceTag) by {
      assert ([m] + after)[1..] == after;
    }
    assert before + [m] + after == before + ([m] + after);
    SectionAppend(kind, before, [m] + after, sourceTag);
    SectionAppend(kind, before, after, sourceTag);
  }

  /** A point built from a line and published under one of `labels`. */
  predicate LinePointIn(p: Point, sourceTag: string, labels: set<string>) {
    WellTagged(p, sourceTag) && TypeOf(p).Some? && TypeOf(p).value in labels
  }

  lemma LinePointsWellTagged(category: string, lines: seq<Line>, sourceTag: string)
    requires category in {"production", "consumption", "net"}
    ensures forall k :: 0 <= k < |lines| ==>
      LinePointIn(LinePoints(category, lines, sourceTag)[k], sourceTag, {category})
  {
    forall k | 0 <= k < |lines|
      ensures LinePointIn(LinePoints(category, lines, sourceTag)[k], sourceTag, {category})
    {
      LinePointWellTagged(category, lines[k], k, sourceTag);
    }
  }

  lemma MeasurementPointsWellTagged(kind: ListKind, m: Measurement, sourceTag: string)
    ensures forall p :: p in MeasurementPoints(kind, m, sourceTag) ==> LinePointIn(p, sourceTag, KindLabels(kind))
  {
    MeasurementPointsByLabel(kind, m, sourceTag);
    var category := Relabel(kind, m.measurementType);
    if category.Some? {
      var ps := LinePoints(category.value, m.lines, sourceTag);
      LinePointsWellTagged(category.value, m.lines, sourceTag);
      forall p | p in ps ensures LinePointIn(p, sourceTag, KindLabels(kind)) {
        var k :| 0 <= k < |ps| && ps[k] == p;
        assert LinePointIn(ps[k], sourceTag, {category.value});
      }
    }
  }

  /** Every point a list yields is a well-tagged line point of one of the
      list's categories. */
  lemma {:induction false} SectionWellTagged(kind: ListKind, ms: seq<Measurement>, sourceTag: string)
    ensures forall p :: p in Section(kind, ms, sourceTag) ==> LinePointIn(p, sourceTag, KindLabels(kind))
    decreases |ms|
  {
    if |ms| > 0 {
      SectionWellTagged(kind, ms[1..], sourceTag);
      MeasurementPointsWellTagged(kind, ms[0], sourceTag);
    }
  }

  /** The line points of one label, counted by category. */
  lemma {:induction false} CountUniform(ps: seq<Point>, category: string, t: string)
    requires forall k :: 0 <= k < |ps| ==> TypeOf(ps[k]) == Some(category)
    ensures CountOfType(ps, t) == if category == t then |ps| else 0
    decreases |ps|
  {
    if |ps| > 0 {
      CountUniform(ps[1..], category, t);
    }
  }

  lemma {:induction false} CountAppend(a: seq<Point>, b: seq<Point>, t: string)
    ensures CountOfType(a + b, t) == CountOfType(a, t) + CountOfType(b, t)
    decreases |a|
  {
    if |a| == 0 {
      assert a + b == b;
    } else {
      assert (a + b)[1..] == a[1..] + b;
      CountAppend(a[1..], b, t);
    }
  }

  lemma LinePointsCount(category: string, lines: seq<Line>, t: string, sourceTag: string)
    requires category in {"production", "consumption", "net"}
    ensures |LinePoints(category, lines, sourceTag)| == |lines|
    ensures CountOfType(LinePoints(category, lines, sourceTag), t) == if category == t then |lines| else 0
  {
    var ps := LinePoints(category, lines, sourceTag);
    forall k | 0 <= k < |ps|
      ensures TypeOf(ps[k]) == Some(category)
    {
      LinePointWellTagged(category, lines[k], k, sourceTag);
    }
    CountUniform(ps, category, t);
  }

  /** Per category, the production list yields one point per line of its
      "production" measurements and nothing else. */
  lemma {:induction false} ProductionSectionCount(ms: seq<Measurement>, t: string, sourceTag: string)
    ensures |Section(ProductionList, ms, sourceTag)| == LinesTyped(ms, "production")
    ensures CountOfType(Section(ProductionList, ms, sourceTag), t) ==
      if t == "production" then LinesTyped(ms, "production") else 0
    decreases |ms|
  {
    if |ms| > 0 {
      ProductionSectionCount(ms[1..], t, sourceTag);
      LinePointsCount("production", ms[0].lines, t, sourceTag);
      CountAppend(MeasurementPoints(ProductionList, ms[0], sourceTag), Section(ProductionList, ms[1..], sourceTag), t);
    }
  }

  /** Per category, the consumption list yields one "consumption" point per
      line of its "total-consumption" measurements and one "net" point per
      line of its "net-consumption" measurements, and nothing else. */
  lemma {:induction false} ConsumptionSectionCount(ms: seq<Measurement>, t: string, sourceTag: string)
    ensures |Section(ConsumptionList, ms, sourceTag)| ==
      LinesTyped(ms, "total-consumption") + LinesTyped(ms, "net-consumption")
    ensures CountOfType(Section(ConsumptionList, ms, sourceTag), t) ==
      (if t == "consumption" then LinesTyped(ms, "total-consumption") else 0)
      + (if t == "net" then LinesTyped(ms, "net-consumption") else 0)
    decreases |ms|
  {
    if |ms| > 0 {
      var m := ms[0];
      ConsumptionSectionCount(ms[1..], t, sourceTag);
      LinePointsCount("consumption", m.lines, t, sourceTag);
      LinePointsCount("net", m.lines, t, sourceTag);
      var total := if m.measurementType == "total-consumption" then LinePoints("consumption", m.lines, sourceTag) else [];
      var net := if m.measurementType == "net-consumption" then LinePoints("net", m.lines, sourceTag) else [];
      CountAppend(total, net, t);
      CountAppend(total + net, Section(ConsumptionList, ms[1..], sourceTag), t);
    }
  }

  /** extractProductionStats emits exactly one point per line of the
      recognised measurements, and per category exactly as many as the
      measurements of the matching gateway type have lines; measurements of
      any other type add nothing. */
  lemma ExtractProductionCount(prod: ProductionResponse, sourceTag: string)
    ensures var ps := ExtractProductionStats(prod, sourceTag);
      && |ps| == LinesTyped(prod.production, "production")
                 + LinesTyped(prod.consumption, "total-consumption")
                 + LinesTyped(prod.consumption, "net-consumption")
      && CountOfType(ps, "production") == LinesTyped(prod.production, "production")
      && CountOfType(ps, "consumption") == LinesTyped(prod.consumption, "total-consumption")
      && CountOfType(ps, "net") == LinesTyped(prod.consumption, "net-consumption")
  {
    var a := Section(ProductionList, prod.production, sourceTag);
    var b := Section(ConsumptionList, prod.consumption, sourceTag);
    forall t | t in {"production", "consumption", "net"}
      ensures CountOfType(a + b, t) ==
        (if t == "production" then LinesTyped(prod.production, "production") else 0)
        + (if t == "consumption" then LinesTyped(prod.consumption, "total-consumption") else 0)
        + (if t == "net" then LinesTyped(prod.consumption, "net-consumption") else 0)
    {
      ProductionSectionCount(prod.production, t, sourceTag);
      ConsumptionSectionCount(prod.consumption, t, sourceTag);
      CountAppend(a, b, t);
    }
    ProductionSectionCount(prod.production, "", sourceTag);
    ConsumptionSectionCount(prod.consumption, "", sourceTag);
  }

  /** All production-list points come first and all consumption-list points
      after them. */
  lemma ExtractProductionOrder(prod: ProductionResponse, sourceTag: string)
    ensures var ps := ExtractProductionStats(prod, sourceTag);
      var k := LinesTyped(prod.production, "production");
      && k <= |ps|
      && (forall p :: p in ps[..k] ==> TypeOf(p) == Some("production"))
      && (forall p :: p in ps[k..] ==> TypeOf(p) == Some("consumption") || TypeOf(p) == Some("net"))
  {
    var a := Section(ProductionList, prod.production, sourceTag);
    var b := Section(ConsumptionList, prod.consumption, sourceTag);
    ProductionSectionCount(prod.production, "", sourceTag);
    assert (a + b)[..|a|] == a && (a + b)[|a|..] == b;
    forall p | p in a ensures TypeOf(p) == Some("production") {
      SectionWellTagged(ProductionList, prod.production, sourceTag);
      assert LinePointIn(p, sourceTag, {"production"});
    }
    forall p | p in b ensures TypeOf(p) == Some("consumption") || TypeOf(p) == Some("net") {
      SectionWellTagged(ConsumptionList, prod.consumption, sourceTag);
      assert LinePointIn(p, sourceTag, {"consumption", "net"});
    }
  }

  /** Every point extractProductionStats emits keeps the exporter's tagging
      invariant. */
  lemma ExtractProductionWellTagged(prod: ProductionResponse, sourceTag: string)
    ensures forall p :: p in ExtractProductionStats(prod, sourceTag) ==> WellTagged(p, sourceTag)
  {
    SectionWellTagged(ProductionList, prod.production, sourceTag);
    SectionWellTagged(ConsumptionList, prod.consumption, sourceTag);
  }

  /** `p` is the point of inverter `inv`: named after its serial, tagged with
      it, carrying its reported watts, and well tagged. */
  predicate InverterPointOf(p: Point, inv: Inverter, sourceTag: string) {
    && p.measurement == "inverter-production-" + inv.serialNumber
    && TagValue(p, TagSerial) == Some(inv.serialNumber)
    && TypeOf(p) == Some(MeasurementInverter)
    && FieldMap(p.fields) == map[FieldP := IntValue(inv.lastReportWatts)]
    && WellTagged(p, sourceTag)
  }

  /** `p` is the point of battery `bat`: named after its serial, tagged with
      it, carrying its charge level and temperature, and well tagged. */
  predicate BatteryPointOf(p: Point, bat: Battery, sourceTag: string) {
    && p.measurement == "battery-" + bat.serialNum
    && TagValue(p, TagSerial) == Some(bat.serialNum)
    && TypeOf(p) == Some(MeasurementBattery)
    && FieldMap(p.fields) == map[FieldPercentFull := IntValue(bat.percentFull), FieldTemperature := IntValue(bat.temperature)]
    && WellTagged(p, sourceTag)
  }

  /** Inverter and battery points keep the input's length and order: the
      `k`-th point is named after, tagged with and built from the `k`-th entry. */
  lemma InverterBatteryStats(inverters: seq<Inverter>, batteries: seq<Battery>, sourceTag: string)
    ensures var ps := ExtractInverterStats(inverters, sourceTag);
      && |ps| == |inverters|
      && forall k :: 0 <= k < |ps| ==> InverterPointOf(ps[k], inverters[k], sourceTag)
    ensures var bs := ExtractBatteryStats(batteries, sourceTag);
      && |bs| == |batteries|
      && forall k :: 0 <= k < |bs| ==> BatteryPointOf(bs[k], batteries[k], sourceTag)
  {
    var ps := ExtractInverterStats(inverters, sourceTag);
    forall k | 0 <= k < |ps| ensures InverterPointOf(ps[k], inverters[k], sourceTag) {
      InverterPointShape(inverters[k], sourceTag);
      InverterPointWellTagged(inverters[k], sourceTag);
    }
    var bs := ExtractBatteryStats(batteries, sourceTag);
    forall k | 0 <= k < |bs| ensures BatteryPointOf(bs[k], batteries[k], sourceTag) {
      BatteryPointShape(batteries[k], sourceTag);
      BatteryPointWellTagged(batteries[k], sourceTag);
    }
  }
}
