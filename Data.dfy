/** The records the telemetry service returns and the location reading the
    screen shows. Numbers are `real`: the app only copies them, it never
    computes with them. */
module Data {

  /** One telemetry sample: when it was taken, its value (named `value` on
      the wire) and which variable it measures. */
  datatype ApiData = ApiData(time: string, content: real, variable: string)

  /** The body of a telemetry response: its `result` list of samples. */
  datatype ApiResponse = ApiResponse(result: seq<ApiData>)

  /** The pet's position and the timestamp it is shown with. */
  datatype LocationData = LocationData(latitude: real, longitude: real, time: string)

  const Latitude: string := "latitude"
  const Longitude: string := "longitude"

  /** A record that the location fold reads. */
  predicate IsLocationRecord(r: ApiData)
  {
    r.variable == Latitude || r.variable == Longitude
  }
}
