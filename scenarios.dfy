/**
 * Client programs of `WiFiClass` that use only the contracts of its
 * operations and the lemmas about attempts, on concrete runs: a join that
 * succeeds on the third poll, an access point that never comes up, a rejected
 * passphrase, a zero retry count, the default access point channel and the
 * scan callback setter.
 */
module Scenarios {
  import opened Types
  import opened Trace
  import opened Connection
  import opened WiFi

  /** Retry count 3, no delay, answers Idle, NoSsidAvailable, Connected: connected after three polls. */
  method JoinSucceedsOnThirdPoll() returns (status: uint8, polls: seq<uint8>)
    ensures status == WL_CONNECTED
    ensures polls == [WL_IDLE_STATUS, WL_NO_SSID_AVAIL, WL_CONNECTED]
  {
    var wifi := new WiFiClass();
    wifi.SetRetryCount(3);
    wifi.SetRetryDelay(0);
    var driver := Driver(WL_SUCCESS, [WL_IDLE_STATUS, WL_NO_SSID_AVAIL, WL_CONNECTED]);
    var trace;
    status, trace := wifi.Begin("home", driver);
    SettledAnswerEndsAttempt(Station, SetNetwork("home"), WL_CONNECT_FAILED, wifi.callbackConnectionStatus,
                             0, 3, driver, 2);
    AcceptedInitiationPollsWithinBudget(Station, SetNetwork("home"), WL_CONNECT_FAILED,
                                        wifi.callbackConnectionStatus, 0, 3, driver);
    polls := Polled(trace);
    assert driver.answers[..3] == driver.answers;
  }

  /** Retry count 2, secured access point, answers Idle, Idle: returns Idle after two polls. */
  method SecuredApExhaustsRetries() returns (status: uint8, pollCount: nat)
    ensures status == WL_IDLE_STATUS && pollCount == 2
  {
    var wifi := new WiFiClass();
    wifi.SetRetryCount(2);
    var driver := Driver(WL_SUCCESS, [WL_IDLE_STATUS, WL_IDLE_STATUS]);
    var trace;
    status, trace := wifi.BeginSecuredAP("hotspot", "secret12", driver);
    ExhaustedAttemptReturnsPendingStatus(AccessPoint, SetApPassphrase("hotspot", "secret12", 1), WL_AP_FAILED,
                                         wifi.callbackAccessPointStatus, wifi.retryDelay, 2, driver);
    pollCount := |Polled(trace)|;
  }

  /** A passphrase join whose request the driver rejects: `WL_CONNECT_FAILED`, no poll, no callback. */
  method RejectedPassphraseJoin(id: nat, answers: seq<uint8>) returns (status: uint8, trace: seq<Event>)
    requires WL_MAX_ATTEMPT_CONNECTION as int <= |answers|
    ensures status == WL_CONNECT_FAILED
    ensures Polled(trace) == [] && Notifications(trace) == []
  {
    var wifi := new WiFiClass();
    wifi.SetConnectionStatusCallback(Fn(id));
    var driver := Driver(WL_FAILURE, answers);
    status, trace := wifi.BeginWithPassphrase("office", "password", driver);
    RejectedInitiationShortCircuits(Station, SetPassphrase("office", "password"), WL_CONNECT_FAILED,
                                    Fn(id), wifi.retryDelay, wifi.retryCount, driver);
  }

  /** Retry count 0 with a co-processor that stays idle: 256 polls, result Idle. */
  method ZeroRetryCountPollsFullByte() returns (status: uint8, pollCount: nat)
    ensures status == WL_IDLE_STATUS && pollCount == 0x100
  {
    var wifi := new WiFiClass();
    wifi.SetRetryCount(0);
    var driver := Driver(WL_SUCCESS, seq(0x100, _ => WL_IDLE_STATUS));
    var trace;
    status, trace := wifi.Begin("home", driver);
    ExhaustedAttemptReturnsPendingStatus(Station, SetNetwork("home"), WL_CONNECT_FAILED,
                                         wifi.callbackConnectionStatus, wifi.retryDelay, 0, driver);
    pollCount := |Polled(trace)|;
  }

  /** Starting an access point without a channel is starting it on channel 1. */
  method DefaultApChannelIsOne(wifi: WiFiClass, ssid: string, passphrase: string, driver: Driver)
    returns (open: Report<uint8>, openOnOne: Report<uint8>, secured: Report<uint8>, securedOnOne: Report<uint8>)
    requires AttemptBudget(wifi.retryCount) <= |driver.answers|
    ensures open == openOnOne && secured == securedOnOne
  {
    var s, t := wifi.BeginAP(ssid, driver);
    open := Report(s, t);
    s, t := wifi.BeginAPOnChannel(ssid, 1, driver);
    openOnOne := Report(s, t);
    s, t := wifi.BeginSecuredAP(ssid, passphrase, driver);
    secured := Report(s, t);
    s, t := wifi.BeginSecuredAPOnChannel(ssid, passphrase, 1, driver);
    securedOnOne := Report(s, t);
  }

  /**
   * `SetScanStatusCallback` fills the access point slot: the callback then
   * fires on every poll of an access point start and never during a scan.
   */
  method ScanCallbackFiresOnlyForAccessPoint(id: nat, driver: Driver)
    returns (scanTrace: seq<Event>, apTrace: seq<Event>)
    requires WL_MAX_ATTEMPT_CONNECTION as int <= |driver.answers|
    ensures Notifications(scanTrace) == []
    ensures Notifications(apTrace) == seq(|Polled(apTrace)|, _ => id)
    ensures driver.reply != WL_FAILURE ==> |Notifications(apTrace)| >= 1
  {
    var wifi := new WiFiClass();
    wifi.SetScanStatusCallback(Fn(id));
    var networks, status;
    networks, scanTrace := wifi.ScanNetworks(driver);
    status, apTrace := wifi.BeginAP("hotspot", driver);
    CallbackFiresOncePerPoll(AccessPoint, SetApNetwork("hotspot", 1), WL_AP_FAILED, Fn(id),
                             wifi.retryDelay, wifi.retryCount, driver);
    if driver.reply != WL_FAILURE {
      AcceptedInitiationPollsWithinBudget(AccessPoint, SetApNetwork("hotspot", 1), WL_AP_FAILED, Fn(id),
                                          wifi.retryDelay, wifi.retryCount, driver);
    }
  }
}
