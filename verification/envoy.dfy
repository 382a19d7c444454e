/** The telemetry records the gateway client library hands to the exporter.
    Only the members the exporter reads are modelled; the values themselves
    are copied into points untouched, so they are kept as opaque bit patterns
    and machine integers with no arithmetic on them. */
module Envoy {

  /** A Go `float64`, kept as its IEEE 754 bit pattern. */
  datatype Float64 = Float64(bits: bv64)

  /** A Go 64-bit signed integer. */
  newtype int64 = x: int | -0x8000_0000_0000_0000 <= x < 0x8000_0000_0000_0000

  /** One circuit line of a production or consumption measurement. */
  datatype Line = Line(
    wNow: Float64,        // real power
    reactPwr: Float64,    // reactive power
    apprntPwr: Float64,   // apparent power
    rmsCurrent: Float64,
    rmsVoltage: Float64)

  /** A measurement: its type label as the gateway reports it, and its lines
      in the gateway's order. */
  datatype Measurement = Measurement(measurementType: string, lines: seq<Line>)

  /** The production endpoint's answer: a production list and a consumption list. */
  datatype ProductionResponse = ProductionResponse(
    production: seq<Measurement>,
    consumption: seq<Measurement>)

  datatype Inverter = Inverter(serialNumber: string, lastReportWatts: int64)

  datatype Battery = Battery(serialNum: string, percentFull: int64, temperature: int64)
}
