/** One scrape cycle (main.go:157-203): three fetches from the gateway
    client, each answered with a value that may be nil and an error that may
    be nil, combined category by category into one batch that is handed to
    the database writer at most once. The client and the writer are not run:
    their answers are inputs, and the calls made are recorded in the result. */
module Scrape {
  import opened Wrappers
  import opened Envoy
  import opened Points
  import opened Extract

  /** An error value returned by the client or the writer; only its presence matters. */
  datatype Error = Error(message: string)

  /** What one client call returned: a possibly nil value and a possibly nil error. */
  datatype Fetch<T> = Fetch(value: Option<T>, err: Option<Error>)

  /** The calls the scrape makes on the gateway client. */
  datatype ClientCall = CallProduction | CallInverters | CallBatteries | CallInvalidateSession

  /** The operations whose failure the scrape logs. */
  datatype Operation = OpProduction | OpInverters | OpBatteries | OpWrite

  /** What a scrape did: the count it returned, the batch it handed to the
      writer (None when the writer was not called), the client calls it made
      in order, and the failures it logged in order. */
  datatype ScrapeOutcome = ScrapeOutcome(
    count: nat,
    written: Option<seq<Point>>,
    calls: seq<ClientCall>,
    logged: seq<Operation>)

  /** The production fetch's points: taken whenever a response came back with
      a non-empty production list, whether or not an error came with it. */
  function ProductionPart(f: Fetch<ProductionResponse>, sourceTag: string): seq<Point> {
    if f.value.Some? && |f.value.value.production| > 0
    then ExtractProductionStats(f.value.value, sourceTag) else []
  }

  /** The inverter fetch's points: taken whenever a non-empty list came back,
      whether or not an error came with it. */
  function InverterPart(f: Fetch<seq<Inverter>>, sourceTag: string): seq<Point> {
    if f.value.Some? && |f.value.value| > 0 then ExtractInverterStats(f.value.value, sourceTag) else []
  }

  /** The battery fetch's points: taken only when no error came back and the
      list is not nil. */
  function BatteryPart(f: Fetch<seq<Battery>>, sourceTag: string): seq<Point> {
    if f.err.None? && f.value.Some? then ExtractBatteryStats(f.value.value, sourceTag) else []
  }

  /** The batch one scrape assembles, in fetch order. */
  function Batch(prod: Fetch<ProductionResponse>, inv: Fetch<seq<Inverter>>, bat: Fetch<seq<Battery>>,
                 sourceTag: string): seq<Point> {
    ProductionPart(prod, sourceTag) + InverterPart(inv, sourceTag) + BatteryPart(bat, sourceTag)
  }

  /** The failures a scrape logs, in the order it meets them. */
  function FailuresLogged(prod: Fetch<ProductionResponse>, inv: Fetch<seq<Inverter>>, bat: Fetch<seq<Battery>>,
                          wrote: bool, writeErr: Option<Error>): seq<Operation> {
    (if prod.err.Some? then [OpProduction] else [])
    + (if inv.err.Some? then [OpInverters] else [])
    + (if bat.err.Some? then [OpBatteries] else [])
    + (if wrote && writeErr.Some? then [OpWrite] else [])
  }

  /** scrape: fetch the three categories, assemble the batch, write it in one
      call when it is not empty, and return its size whatever the write
      returned. `writeErr` is what the writer answers if it is called. */
  function Scrape(prod: Fetch<ProductionResponse>, inv: Fetch<seq<Inverter>>, bat: Fetch<seq<Battery>>,
                  writeErr: Option<Error>, sourceTag: string): (r: ScrapeOutcome)
    ensures r.written.Some? <==> r.count > 0
    ensures r.written.Some? ==> |r.written.value| == r.count
    ensures r.count == |ProductionPart(prod, sourceTag)| + |InverterPart(inv, sourceTag)| + |BatteryPart(bat, sourceTag)|
    ensures r.calls == [CallProduction, CallInverters, CallBatteries]
    ensures CallInvalidateSession !in r.calls
    ensures OpWrite in r.logged <==> r.count > 0 && writeErr.Some?
    ensures OpProduction in r.logged <==> prod.err.Some?
    ensures OpInverters in r.logged <==> inv.err.Some?
    ensures OpBatteries in r.logged <==> bat.err.Some?
  {
    var points := Batch(prod, inv, bat, sourceTag);
    var wrote := |points| > 0;
    ScrapeOutcome(|points|, if wrote then Some(points) else None,
                  [CallProduction, CallInverters, CallBatteries],
                  FailuresLogged(prod, inv, bat, wrote, writeErr))
  }

  /** The writer's answer changes only what is logged: the count and the
      written batch are the same whether the write succeeds or fails. */
  lemma WriteFailureKeepsCount(prod: Fetch<ProductionResponse>, inv: Fetch<seq<Inverter>>, bat: Fetch<seq<Battery>>,
                               e1: Option<Error>, e2: Option<Error>, sourceTag: string)
    ensures Scrape(prod, inv, bat, e1, sourceTag).count == Scrape(prod, inv, bat, e2, sourceTag).count
    ensures Scrape(prod, inv, bat, e1, sourceTag).written == Scrape(prod, inv, bat, e2, sourceTag).written
  {
  }

  /** The writer is called with the whole batch exactly when the batch is
      not empty, and the batch is every category's points in fetch order. */
  lemma WrittenBatchIsWholeBatch(prod: Fetch<ProductionResponse>, inv: Fetch<seq<Inverter>>, bat: Fetch<seq<Battery>>,
                                 writeErr: Option<Error>, sourceTag: string)
    ensures var r := Scrape(prod, inv, bat, writeErr, sourceTag);
      var pp := ProductionPart(prod, sourceTag);
      var ip := InverterPart(inv, sourceTag);
      var bp := BatteryPart(bat, sourceTag);
      && (r.written.Some? <==> |pp| + |ip| + |bp| > 0)
      && (r.written.Some? ==>
            (&& r.written.value[..|pp|] == pp
             && r.written.value[|pp|..|pp| + |ip|] == ip
             && r.written.value[|pp| + |ip|..] == bp))
  {
  }

  /** With nothing fetched the writer is never called and the count is 0. */
  lemma EmptyScrape(writeErr: Option<Error>, sourceTag: string)
    ensures var r := Scrape(Fetch(None, None), Fetch(None, None), Fetch(None, None), writeErr, sourceTag);
      r.count == 0 && r.written.None? && r.logged == []
  {
  }

  /** An error returned beside a production response or an inverter list
      does not discard it. */
  lemma ErrorBesideValueIgnored(resp: ProductionResponse, invs: seq<Inverter>, e: Error, sourceTag: string)
    ensures ProductionPart(Fetch(Some(resp), Some(e)), sourceTag) == ProductionPart(Fetch(Some(resp), None), sourceTag)
    ensures InverterPart(Fetch(Some(invs), Some(e)), sourceTag) == InverterPart(Fetch(Some(invs), None), sourceTag)
    ensures |InverterPart(Fetch(Some(invs), Some(e)), sourceTag)| == |invs|
  {
    InverterBatteryStats(invs, [], sourceTag);
  }

  /** An error from the battery fetch discards whatever list came with it. */
  lemma BatteryErrorDiscards(bats: Option<seq<Battery>>, e: Error, sourceTag: string)
    ensures BatteryPart(Fetch(bats, Some(e)), sourceTag) == []
    ensures bats.Some? ==> |BatteryPart(Fetch(bats, None), sourceTag)| == |bats.value|
  {
    InverterBatteryStats([], bats.GetOr([]), sourceTag);
  }

  /** A production response whose production list is empty contributes no
      points at all, even when its consumption list has lines to report. */
  lemma ConsumptionOnlyDropped(resp: ProductionResponse, err: Option<Error>, sourceTag: string)
    requires |resp.production| == 0
    ensures ProductionPart(Fetch(Some(resp), err), sourceTag) == []
    ensures LinesTyped(resp.consumption, "total-consumption") > 0 ==>
      |ExtractProductionStats(resp, sourceTag)| > 0
  {
    ExtractProductionCount(resp, sourceTag);
  }

  /** A failure in one category never removes another category's points:
      replacing the production answer by any other leaves the inverter and
      battery points of the batch unchanged, and likewise for the others. */
  lemma CategoriesIndependent(prod: Fetch<ProductionResponse>, prod': Fetch<ProductionResponse>,
                              inv: Fetch<seq<Inverter>>, inv': Fetch<seq<Inverter>>,
                              bat: Fetch<seq<Battery>>, bat': Fetch<seq<Battery>>, sourceTag: string)
    ensures var b := Batch(prod, inv, bat, sourceTag);
      var b' := Batch(prod', inv, bat, sourceTag);
      b[|ProductionPart(prod, sourceTag)|..] == b'[|ProductionPart(prod', sourceTag)|..]
    ensures var b := Batch(prod, inv, bat, sourceTag);
      var b' := Batch(prod, inv', bat, sourceTag);
      && b[..|ProductionPart(prod, sourceTag)|] == b'[..|ProductionPart(prod, sourceTag)|]
      && b[|b| - |BatteryPart(bat, sourceTag)|..] == b'[|b'| - |BatteryPart(bat, sourceTag)|..]
    ensures var b := Batch(prod, inv, bat, sourceTag);
      var b' := Batch(prod, inv, bat', sourceTag);
      var front := |ProductionPart(prod, sourceTag)| + |InverterPart(inv, sourceTag)|;
      b[..front] == b'[..front]
  {
  }

  /** A failed production fetch with successful inverter and battery fetches
      counts exactly the inverters and batteries. */
  lemma ProductionFailureCount(e: Error, invs: seq<Inverter>, bats: seq<Battery>,
                               writeErr: Option<Error>, sourceTag: string)
    ensures Scrape(Fetch(None, Some(e)), Fetch(Some(invs), None), Fetch(Some(bats), None), writeErr, sourceTag).count
      == |invs| + |bats|
  {
    InverterBatteryStats(invs, bats, sourceTag);
  }

  /** Every point of every batch keeps the exporter's tagging invariant. */
  lemma BatchWellTagged(prod: Fetch<ProductionResponse>, inv: Fetch<seq<Inverter>>, bat: Fetch<seq<Battery>>,
                        sourceTag: string)
    ensures forall p :: p in Batch(prod, inv, bat, sourceTag) ==> WellTagged(p, sourceTag)
  {
    if prod.value.Some? {
      ExtractProductionWellTagged(prod.value.value, sourceTag);
    }
    InverterBatteryStats(inv.value.GetOr([]), bat.value.GetOr([]), sourceTag);
  }

  /** The successful-scrape example: one production line, one inverter and
      one battery give three points named after their sources. */
  lemma SuccessfulScrapeExample()
    ensures var line := Line(Float64(0x4059_0000_0000_0000), Float64(0), Float64(0), Float64(0), Float64(0));
      var prod := ProductionResponse([Measurement("production", [line])], []);
      var r := Scrape(Fetch(Some(prod), None), Fetch(Some([Inverter("123", 100)]), None),
                      Fetch(Some([Battery("456", 80, 25)]), None), None, "test");
      && r.count == 3
      && r.written.Some?
      && r.written.value[0].measurement == "production-line0"
      && r.written.value[1].measurement == "inverter-production-123"
      && r.written.value[2].measurement == "battery-456"
  {
    var line := Line(Float64(0x4059_0000_0000_0000), Float64(0), Float64(0), Float64(0), Float64(0));
    var prod := ProductionResponse([Measurement("production", [line])], []);
    var lp := LineToPoint("production", line, 0, "test");
    var ip := InverterPoint(Inverter("123", 100), "test");
    var bp := BatteryPoint(Battery("456", 80, 25), "test");
    assert ProductionPart(Fetch(Some(prod), None), "test") == [lp] by {
      var ms := [Measurement("production", [line])];
      assert ms[1..] == [];
      assert LinePoints("production", [line], "test") == [lp];
      assert Section(ProductionList, ms, "test") == [lp];
      assert Section(ConsumptionList, [], "test") == [];
    }
    assert InverterPart(Fetch(Some([Inverter("123", 100)]), None), "test") == [ip];
    assert BatteryPart(Fetch(Some([Battery("456", 80, 25)]), None), "test") == [bp];
    assert lp.measurement == "production-line0" by {
      assert Decimal.FromNat(0) == "0";
    }
  }

  /** The failing-production example: a nil response with an error and no
      other data give a count of 0 and no write. */
  lemma ProductionErrorExample()
    ensures var r := Scrape(Fetch(None, Some(Error("production error"))), Fetch(None, None), Fetch(None, None),
                            None, "test");
      r.count == 0 && r.written.None? && r.logged == [OpProduction]
  {
  }
}
