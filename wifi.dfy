/**
 * `WiFiClass` of src/WiFi.cpp: the retry configuration and callback slots it
 * keeps, and the operations that start a station join, an access point or a
 * network scan and poll the co-processor until the attempt settles.
 *
 * Each attempt takes the co-processor as a `Driver` (its reply to the
 * initiation request and the answers of its successive polls) and returns,
 * besides the source's return value, the trace of what it did: the request,
 * every callback invocation, every delay and every poll.
 */
module WiFi {
  import opened Types
  import opened Trace
  import opened Connection

  class WiFiClass {
    var retryCount: uint8
    var retryDelay: uint32
    var callbackConnectionStatus: Callback
    var callbackAccessPointStatus: Callback
    var callbackScanStatus: Callback

    /** The scan callback slot is null: no setter ever writes it. */
    ghost predicate ScanSlotEmpty()
      reads this
    {
      callbackScanStatus == Null
    }

    constructor ()
      ensures retryCount == WL_MAX_ATTEMPT_CONNECTION && retryDelay == WL_DELAY_START_CONNECTION
      ensures callbackConnectionStatus == Null && callbackAccessPointStatus == Null
      ensures ScanSlotEmpty()
    {
      retryCount := WL_MAX_ATTEMPT_CONNECTION;
      retryDelay := WL_DELAY_START_CONNECTION;
      callbackConnectionStatus := Null;
      callbackAccessPointStatus := Null;
      callbackScanStatus := Null;
    }

    method SetRetryCount(c: uint8)
      modifies this`retryCount
      ensures GetRetryCount() == c
    {
      retryCount := c;
    }

    function GetRetryCount(): uint8
      reads this
    {
      retryCount
    }

    method SetRetryDelay(c: uint32)
      modifies this`retryDelay
      ensures GetRetryDelay() == c
    {
      retryDelay := c;
    }

    function GetRetryDelay(): uint32
      reads this
    {
      retryDelay
    }

    method SetConnectionStatusCallback(cb: Callback)
      modifies this`callbackConnectionStatus
      ensures callbackConnectionStatus == cb
    {
      callbackConnectionStatus := cb;
    }

    method SetAccessPointStatusCallback(cb: Callback)
      modifies this`callbackAccessPointStatus
      ensures callbackAccessPointStatus == cb
    {
      callbackAccessPointStatus := cb;
    }

    /** Writes the access point slot, as the source does; the scan slot keeps its value. */
    method SetScanStatusCallback(cb: Callback)
      modifies this`callbackAccessPointStatus
      ensures callbackAccessPointStatus == cb
    {
      callbackAccessPointStatus := cb;
    }

    /** Join an open network. */
    method Begin(ssid: string, driver: Driver) returns (status: uint8, trace: seq<Event>)
      requires AttemptBudget(retryCount) <= |driver.answers|
      ensures Report(status, trace) ==
        Attempt(Station, SetNetwork(ssid), WL_CONNECT_FAILED, callbackConnectionStatus,
                retryDelay, retryCount, driver)
    {
      status, trace := RunAttempt(Station, SetNetwork(ssid), WL_CONNECT_FAILED,
                                  callbackConnectionStatus, retryDelay, retryCount, driver);
    }

    /** Join a network secured by the WEP key `key` at index `keyIndex`. */
    method BeginWithKey(ssid: string, keyIndex: uint8, key: string, driver: Driver)
      returns (status: uint8, trace: seq<Event>)
      requires AttemptBudget(retryCount) <= |driver.answers|
      ensures Report(status, trace) ==
        Attempt(Station, SetKey(ssid, keyIndex, key), WL_CONNECT_FAILED, callbackConnectionStatus,
                retryDelay, retryCount, driver)
    {
      status, trace := RunAttempt(Station, SetKey(ssid, keyIndex, key), WL_CONNECT_FAILED,
                                  callbackConnectionStatus, retryDelay, retryCount, driver);
    }

    /** Join a WPA network with `passphrase`. */
    method BeginWithPassphrase(ssid: string, passphrase: string, driver: Driver)
      returns (status: uint8, trace: seq<Event>)
      requires AttemptBudget(retryCount) <= |driver.answers|
      ensures Report(status, trace) ==
        Attempt(Station, SetPassphrase(ssid, passphrase), WL_CONNECT_FAILED, callbackConnectionStatus,
                retryDelay, retryCount, driver)
    {
      status, trace := RunAttempt(Station, SetPassphrase(ssid, passphrase), WL_CONNECT_FAILED,
                                  callbackConnectionStatus, retryDelay, retryCount, driver);
    }

    /** Start an open access point on channel 1. */
    method BeginAP(ssid: string, driver: Driver) returns (status: uint8, trace: seq<Event>)
      requires AttemptBudget(retryCount) <= |driver.answers|
      ensures Report(status, trace) ==
        Attempt(AccessPoint, SetApNetwork(ssid, 1), WL_AP_FAILED, callbackAccessPointStatus,
                retryDelay, retryCount, driver)
    {
      status, trace := BeginAPOnChannel(ssid, 1, driver);
    }

    /** Start an open access point on `channel`. */
    method BeginAPOnChannel(ssid: string, channel: uint8, driver: Driver)
      returns (status: uint8, trace: seq<Event>)
      requires AttemptBudget(retryCount) <= |driver.answers|
      ensures Report(status, trace) ==
        Attempt(AccessPoint, SetApNetwork(ssid, channel), WL_AP_FAILED, callbackAccessPointStatus,
                retryDelay, retryCount, driver)
    {
      status, trace := RunAttempt(AccessPoint, SetApNetwork(ssid, channel), WL_AP_FAILED,
                                  callbackAccessPointStatus, retryDelay, retryCount, driver);
    }

    /** Start a WPA access point on channel 1. */
    method BeginSecuredAP(ssid: string, passphrase: string, driver: Driver)
      returns (status: uint8, trace: seq<Event>)
      requires AttemptBudget(retryCount) <= |driver.answers|
      ensures Report(status, trace) ==
        Attempt(AccessPoint, SetApPassphrase(ssid, passphrase, 1), WL_AP_FAILED, callbackAccessPointStatus,
                retryDelay, retryCount, driver)
    {
      status, trace := BeginSecuredAPOnChannel(ssid, passphrase, 1, driver);
    }

    /** Start a WPA access point on `channel`. */
    method BeginSecuredAPOnChannel(ssid: string, passphrase: string, channel: uint8, driver: Driver)
      returns (status: uint8, trace: seq<Event>)
      requires AttemptBudget(retryCount) <= |driver.answers|
      ensures Report(status, trace) ==
        Attempt(AccessPoint, SetApPassphrase(ssid, passphrase, channel), WL_AP_FAILED,
                callbackAccessPointStatus, retryDelay, retryCount, driver)
    {
      status, trace := RunAttempt(AccessPoint, SetApPassphrase(ssid, passphrase, channel), WL_AP_FAILED,
                                  callbackAccessPointStatus, retryDelay, retryCount, driver);
    }

    /** Scan for networks and return how many were found, or `WL_FAILURE`. */
    method ScanNetworks(driver: Driver) returns (networks: int8, trace: seq<Event>)
      requires AttemptBudget(retryCount) <= |driver.answers|
      ensures Report(networks, trace) == Scan(callbackScanStatus, retryCount, driver)
      ensures ScanSlotEmpty() ==> Notifications(trace) == []
    {
      trace := [Issue(StartScan)];
      if driver.reply == WL_FAILURE {
        networks := WL_FAILURE;
        EmptyScanSlotNeverNotifies(retryCount, driver);
        return;
      }
      var numOfNetworks, rounds := PollUntilSettled(Scanning, callbackScanStatus, SCAN_DELAY_MS,
                                                    retryCount, driver.answers);
      networks := AsInt8(numOfNetworks);
      trace := trace + rounds;
      EmptyScanSlotNeverNotifies(retryCount, driver);
    }
  }
}
