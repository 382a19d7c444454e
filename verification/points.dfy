/** Time-series points and the three builders that turn one telemetry record
    into one point (main.go:29-48, 90-101, 127-155). */
module Points {
  import opened Wrappers
  import opened Envoy
  import Decimal

  const MeasurementProduction: string := "production"
  const MeasurementTotalConsumption: string := "total-consumption"
  const MeasurementNetConsumption: string := "net-consumption"
  const MeasurementInverter: string := "inverter"
  const MeasurementBattery: string := "battery"

  /** The labels the consumption list's two kinds are published under. */
  const LabelConsumption: string := "consumption"
  const LabelNet: string := "net"

  const TagSource: string := "source"
  const TagMeasurementType: string := "measurement-type"
  const TagLineIdx: string := "line-idx"
  const TagSerial: string := "serial"

  const FieldP: string := "P"
  const FieldQ: string := "Q"
  const FieldS: string := "S"
  const FieldIrms: string := "I_rms"
  const FieldVrms: string := "V_rms"
  const FieldPercentFull: string := "percent-full"
  const FieldTemperature: string := "temperature"

  /** Every `measurement-type` a point of this exporter can carry. */
  const Categories: set<string> :=
    {MeasurementProduction, LabelConsumption, LabelNet, MeasurementInverter, MeasurementBattery}

  datatype Tag = Tag(key: string, value: string)

  /** A field value as the database client stores it: a float or a 64-bit integer. */
  datatype FieldValue = FloatValue(f: Float64) | IntValue(i: int64)

  datatype Field = Field(key: string, value: FieldValue)

  /** A point without its timestamp: measurement name, tags and fields, each
      list in the order the builder added them. */
  datatype Point = Point(measurement: string, tags: seq<Tag>, fields: seq<Field>)

  /** The tags read as a key/value map; a later tag with the same key wins. */
  function TagMap(tags: seq<Tag>): map<string, string>
    decreases |tags|
  {
    if |tags| == 0 then map[]
    else TagMap(tags[..|tags| - 1])[tags[|tags| - 1].key := tags[|tags| - 1].value]
  }

  /** The fields read as a key/value map; a later field with the same key wins. */
  function FieldMap(fields: seq<Field>): map<string, FieldValue>
    decreases |fields|
  {
    if |fields| == 0 then map[]
    else FieldMap(fields[..|fields| - 1])[fields[|fields| - 1].key := fields[|fields| - 1].value]
  }

  predicate DistinctTagKeys(tags: seq<Tag>) {
    forall j, k :: 0 <= j < k < |tags| ==> tags[j].key != tags[k].key
  }

  predicate DistinctFieldKeys(fields: seq<Field>) {
    forall j, k :: 0 <= j < k < |fields| ==> fields[j].key != fields[k].key
  }

  /** The value of tag `key` on point `p`, if it has one. */
  function TagValue(p: Point, key: string): Option<string> {
    var m := TagMap(p.tags);
    if key in m then Some(m[key]) else None
  }

  /** The category a point is published under. */
  function TypeOf(p: Point): Option<string> {
    TagValue(p, TagMeasurementType)
  }

  /** The invariant every point of this exporter keeps: tag keys are unique,
      field keys are unique, the point names its source and its category is
      one of the five the exporter publishes. */
  predicate WellTagged(p: Point, sourceTag: string) {
    && DistinctTagKeys(p.tags)
    && DistinctFieldKeys(p.fields)
    && TagValue(p, TagSource) == Some(sourceTag)
    && TypeOf(p).Some?
    && TypeOf(p).value in Categories
  }

  /** lineToPoint: one point per circuit line. */
  function LineToPoint(lineType: string, line: Line, idx: nat, sourceTag: string): Point {
    Point(lineType + "-line" + Decimal.FromNat(idx),
          [Tag(TagSource, sourceTag), Tag(TagMeasurementType, lineType), Tag(TagLineIdx, Decimal.FromNat(idx))],
          [Field(FieldP, FloatValue(line.wNow)), Field(FieldQ, FloatValue(line.reactPwr)),
           Field(FieldS, FloatValue(line.apprntPwr)), Field(FieldIrms, FloatValue(line.rmsCurrent)),
           Field(FieldVrms, FloatValue(line.rmsVoltage))])
  }

  /** The point of one inverter (the loop body of extractInverterStats). */
  function InverterPoint(inv: Inverter, sourceTag: string): Point {
    Point("inverter-production-" + inv.serialNumber,
          [Tag(TagSource, sourceTag), Tag(TagMeasurementType, MeasurementInverter), Tag(TagSerial, inv.serialNumber)],
          [Field(FieldP, IntValue(inv.lastReportWatts))])
  }

  /** The point of one battery (the loop body of extractBatteryStats). */
  function BatteryPoint(bat: Battery, sourceTag: string): Point {
    Point("battery-" + bat.serialNum,
          [Tag(TagSource, sourceTag), Tag(TagMeasurementType, MeasurementBattery), Tag(TagSerial, bat.serialNum)],
          [Field(FieldPercentFull, IntValue(bat.percentFull)), Field(FieldTemperature, IntValue(bat.temperature))])
  }

  /** A line point is named `{lineType}-line{idx}`; read as maps, its tags are
      exactly the source, the category and the line's position, and its fields
      exactly the line's five electrical readings; no key appears twice. */
  lemma LineToPointShape(lineType: string, line: Line, idx: nat, sourceTag: string)
    ensures var p := LineToPoint(lineType, line, idx, sourceTag);
      && p.measurement == lineType + "-line" + Decimal.FromNat(idx)
      && TagMap(p.tags) ==
         map[TagSource := sourceTag, TagMeasurementType := lineType, TagLineIdx := Decimal.FromNat(idx)]
      && DistinctTagKeys(p.tags)
      && FieldMap(p.fields) ==
         map[FieldP := FloatValue(line.wNow), FieldQ := FloatValue(line.reactPwr),
             FieldS := FloatValue(line.apprntPwr), FieldIrms := FloatValue(line.rmsCurrent),
             FieldVrms := FloatValue(line.rmsVoltage)]
      && DistinctFieldKeys(p.fields)
  {
    var p := LineToPoint(lineType, line, idx, sourceTag);
    var tags := p.tags;
    var fields := p.fields;
    assert TagMap(tags[..1]) == map[TagSource := sourceTag];
    assert TagMap(tags[..2]) == map[TagSource := sourceTag, TagMeasurementType := lineType];
    assert FieldMap(fields[..1]) == map[FieldP := FloatValue(line.wNow)];
    assert FieldMap(fields[..2]) == FieldMap(fields[..1])[FieldQ := FloatValue(line.reactPwr)];
    assert fields[..3][..2] == fields[..2];
    assert FieldMap(fields[..3]) == FieldMap(fields[..2])[FieldS := FloatValue(line.apprntPwr)];
    assert fields[..4][..3] == fields[..3];
    assert FieldMap(fields[..4]) == FieldMap(fields[..3])[FieldIrms := FloatValue(line.rmsCurrent)];
  }

  /** An inverter point is named after the inverter's serial number; its tags
      are exactly the source, the inverter category and the serial, and its
      one field is the watts last reported. */
  lemma InverterPointShape(inv: Inverter, sourceTag: string)
    ensures var p := InverterPoint(inv, sourceTag);
      && p.measurement == "inverter-production-" + inv.serialNumber
      && TagMap(p.tags) ==
         map[TagSource := sourceTag, TagMeasurementType := MeasurementInverter, TagSerial := inv.serialNumber]
      && DistinctTagKeys(p.tags)
      && FieldMap(p.fields) == map[FieldP := IntValue(inv.lastReportWatts)]
      && DistinctFieldKeys(p.fields)
  {
    var tags := InverterPoint(inv, sourceTag).tags;
    assert TagMap(tags[..1]) == map[TagSource := sourceTag];
    assert TagMap(tags[..2]) == map[TagSource := sourceTag, TagMeasurementType := MeasurementInverter];
  }

  /** A battery point is named after the battery's serial number; its tags are
      exactly the source, the battery category and the serial, and its fields
      exactly the charge level and the temperature. */
  lemma BatteryPointShape(bat: Battery, sourceTag: string)
    ensures var p := BatteryPoint(bat, sourceTag);
      && p.measurement == "battery-" + bat.serialNum
      && TagMap(p.tags) ==
         map[TagSource := sourceTag, TagMeasurementType := MeasurementBattery, TagSerial := bat.serialNum]
      && DistinctTagKeys(p.tags)
      && FieldMap(p.fields) ==
         map[FieldPercentFull := IntValue(bat.percentFull), FieldTemperature := IntValue(bat.temperature)]
      && DistinctFieldKeys(p.fields)
  {
    var p := BatteryPoint(bat, sourceTag);
    var tags := p.tags;
    assert TagMap(tags[..1]) == map[TagSource := sourceTag];
    assert TagMap(tags[..2]) == map[TagSource := sourceTag, TagMeasurementType := MeasurementBattery];
    assert FieldMap(p.fields[..1]) == map[FieldPercentFull := IntValue(bat.percentFull)];
  }

  /** The `line-idx` tag and the digits ending the name of a line point both
      read back as the line's position. */
  lemma LineIndexRoundTrip(lineType: string, line: Line, idx: nat, sourceTag: string)
    ensures var p := LineToPoint(lineType, line, idx, sourceTag);
      && TagValue(p, TagLineIdx).Some?
      && Decimal.Canonical(TagValue(p, TagLineIdx).value)
      && Decimal.ToNat(TagValue(p, TagLineIdx).value) == idx
      && p.measurement == lineType + "-line" + TagValue(p, TagLineIdx).value
  {
    LineToPointShape(lineType, line, idx, sourceTag);
    Decimal.ToNatFromNat(idx);
  }

  /** Two lines of one measurement type share a point name only when they sit
      at the same position. */
  lemma LineNamesDistinct(lineType: string, line1: Line, idx1: nat, line2: Line, idx2: nat, sourceTag: string)
    ensures LineToPoint(lineType, line1, idx1, sourceTag).measurement == LineToPoint(lineType, line2, idx2, sourceTag).measurement
            <==> idx1 == idx2
  {
    var prefix := lineType + "-line";
    var name1 := prefix + Decimal.FromNat(idx1);
    var name2 := prefix + Decimal.FromNat(idx2);
    if name1 == name2 {
      assert name1[|prefix|..] == Decimal.FromNat(idx1);
      assert name2[|prefix|..] == Decimal.FromNat(idx2);
      Decimal.FromNatInjective(idx1, idx2);
    }
  }

  /** A line point keeps the exporter's tagging invariant and is published
      under the category it was built for. */
  lemma LinePointWellTagged(lineType: string, line: Line, idx: nat, sourceTag: string)
    requires lineType in {MeasurementProduction, LabelConsumption, LabelNet}
    ensures WellTagged(LineToPoint(lineType, line, idx, sourceTag), sourceTag)
    ensures TypeOf(LineToPoint(lineType, line, idx, sourceTag)) == Some(lineType)
  {
    LineToPointShape(lineType, line, idx, sourceTag);
  }

  /** An inverter point keeps the tagging invariant, is published under the
      inverter category and carries the inverter's serial. */
  lemma InverterPointWellTagged(inv: Inverter, sourceTag: string)
    ensures WellTagged(InverterPoint(inv, sourceTag), sourceTag)
    ensures TypeOf(InverterPoint(inv, sourceTag)) == Some(MeasurementInverter)
    ensures TagValue(InverterPoint(inv, sourceTag), TagSerial) == Some(inv.serialNumber)
  {
    InverterPointShape(inv, sourceTag);
  }

  /** A battery point keeps the tagging invariant, is published under the
      battery category and carries the battery's serial. */
  lemma BatteryPointWellTagged(bat: Battery, sourceTag: string)
    ensures WellTagged(BatteryPoint(bat, sourceTag), sourceTag)
    ensures TypeOf(BatteryPoint(bat, sourceTag)) == Some(MeasurementBattery)
    ensures TagValue(BatteryPoint(bat, sourceTag), TagSerial) == Some(bat.serialNum)
  {
    BatteryPointShape(bat, sourceTag);
  }
}
