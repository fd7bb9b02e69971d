/**
 * The immutable event that application code records: either one inbound
 * HTTP request served, or one outbound dependency call made.
 *
 * `hyper::Uri` and `hyper::Method` are kept as opaque strings; a
 * `std::time::Duration` is a non-negative count of time units.
 */
module TelemetryEvents {

  /** Rust's `u16`: the HTTP status code is a 16-bit unsigned integer. */
  newtype u16 = x: int | 0 <= x < 0x1_0000

  /**
   * An event is exactly one of the two variants. Both carry a `duration`
   * of the same (non-negative) type, so `e.duration` is defined for every
   * event. A datatype value has no mutable state: the fields are fixed at
   * construction.
   */
  datatype TelemetryEvent =
    | HttpServerEvent(url: string, statusCode: u16, duration: nat, httpMethod: string)
    | HttpDependencyEvent(name: string, dependencyType: string, target: string,
                          success: bool, duration: nat)
}
