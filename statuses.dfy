/** The status tags every element reports through `getStatus`. */
module Statuses {
  /** Everything is fine; the only status an actuator ever reports. */
  const STATUS_OK: string := "OK"
  /** The last sensor read failed. */
  const READ_ERROR: string := "READ_ERROR"
}
