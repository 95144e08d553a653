/**
 * Fixed-width integers of the firmware interface and the constants of the
 * WiFiNINA definitions header that the connection controller uses.
 * The header itself (utility/wl_definitions.h) is not part of this model;
 * the values below are those of the upstream WiFiNINA library.
 */
module Types {

  newtype uint8 = x: int | 0 <= x < 0x100
  newtype uint32 = x: int | 0 <= x < 0x1_0000_0000
  newtype int8 = x: int | -0x80 <= x < 0x80

  /** `--x` on a `uint8_t`: 0 wraps around to 255. */
  function Decrement(x: uint8): uint8
  {
    ((x as int - 1) % 0x100) as uint8
  }

  /** The implicit conversion of a `uint8_t` returned from a function declared `int8_t`. */
  function AsInt8(x: uint8): (r: int8)
    ensures r as int % 0x100 == x as int
    ensures x < 0x80 <==> r >= 0
  {
    if x < 0x80 then x as int8 else (x as int - 0x100) as int8
  }

  // wl_error_code_t
  const WL_FAILURE: int8 := -1
  const WL_SUCCESS: int8 := 1

  // wl_status_t
  const WL_IDLE_STATUS: uint8 := 0
  const WL_NO_SSID_AVAIL: uint8 := 1
  const WL_SCAN_COMPLETED: uint8 := 2
  const WL_CONNECTED: uint8 := 3
  const WL_CONNECT_FAILED: uint8 := 4
  const WL_CONNECTION_LOST: uint8 := 5
  const WL_DISCONNECTED: uint8 := 6
  const WL_AP_LISTENING: uint8 := 7
  const WL_AP_CONNECTED: uint8 := 8
  const WL_AP_FAILED: uint8 := 9

  /** Default number of status polls per attempt. */
  const WL_MAX_ATTEMPT_CONNECTION: uint8 := 10
  /** Default wait before each status poll, in milliseconds. */
  const WL_DELAY_START_CONNECTION: uint32 := 5000
  /** The fixed wait before each poll of the scan result count, in milliseconds. */
  const SCAN_DELAY_MS: uint32 := 2000
}
