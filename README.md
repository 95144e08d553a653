# WiFiNINA connection controller in Dafny

This project models the connection controller of `WiFiClass` in the WiFiNINA
Arduino library (`src/WiFi.cpp`). The class sends a request to the radio
co-processor to do one of three things:

- join a network (open, WEP key, or WPA passphrase);
- start an access point (open or WPA, on a given channel or on channel 1);
- scan for networks.

It then runs a do-while loop. Each pass fires the scenario's user callback if its slot is set, waits, and polls the co-processor. The pass also decrements a `uint8_t` attempt counter. The loop stops when the answer leaves the scenario's "still pending" set or when the counter reaches zero. The class also keeps a retry count, a retry delay and three callback slots. Plain setters and getters change and read them.

Modules:

- `Types` (`types.dfy`): `uint8`, `uint32` and `int8`, the wrapping `uint8_t` decrement, the `int8_t` return conversion, and the status and error codes.
- `Trace` (`trace.dfy`): what an operation does to the outside world, recorded as a trace of events. The events are the initiation command, each callback invocation, each delay and each poll with its answer. The module also has `Rounds`, the events of the loop's passes, with lemmas on how many polls and callbacks they hold and in what order.
- `Connection` (`connection.dfy`): the scenario's pending sets (`Pending`) and the poll budget of the `uint8_t` counter (`AttemptBudget`). `PollsMade` gives the number of polls the loop makes. `PollUntilSettled` is the do-while loop itself. The specification functions are `Attempt` (one join or access-point start) and `Scan`. The module ends with the lemmas about them.
- `WiFi` (`wifi.dfy`): the class `WiFiClass` with the source's fields, its constructor and setters, and the seven attempt operations and `ScanNetworks`. Each operation is proved equal to `Attempt` or `Scan`.
- `Scenarios` (`scenarios.dfy`): client programs that use only the contracts, on concrete runs. The runs are a join that succeeds on the third poll, a secured access point that never comes up, a rejected passphrase join, a zero retry count, the default access point channel, and the scan callback setter.

The co-processor driver is an oracle `Driver(reply, answers)`:

- `reply` is the driver's answer to the initiation request. The source treats only `WL_FAILURE` (-1) as a rejection.
- `answers` holds the values that successive status polls return. In a scan they are the result counts.

Every operation requires `answers` to be at least as long as the poll budget, so that the oracle can answer every poll the loop may make. Callbacks are `Null` or `Fn(id)`. Invoking one records `Notify(id)`. A delay records `Delay(ms)`.

The status codes, `WL_FAILURE`, `WL_MAX_ATTEMPT_CONNECTION` (10) and `WL_DELAY_START_CONNECTION` (5000 ms) come from headers (`utility/wl_definitions.h`, `WiFi.h`) that are not part of this model. The values used are those of the upstream WiFiNINA library. Only the constructor's defaults and the concrete scenarios depend on them.

A retry count of 0 gives a single poll only when the first answer is not pending. The first `--attempts` wraps the `uint8_t` counter to 255, so a co-processor that stays pending is polled 256 times (`AttemptBudget`, `ZeroRetryCountWrapsTo256Polls`).

The getters `GetRetryCount` and `GetRetryDelay` are functions that return their field. What they return is stated in the setters' contracts.

## Model

| member | source | states |
|---|---|---|
| `WiFi.WiFiClass.constructor` | src/WiFi.cpp:33-40 | retry count is `WL_MAX_ATTEMPT_CONNECTION`, retry delay is `WL_DELAY_START_CONNECTION`, all three callback slots are null |
| `WiFi.WiFiClass.SetRetryCount` | src/WiFi.cpp:42-50 | afterwards `GetRetryCount()` returns exactly `c`, with no validation; the frame lets only `retryCount` change |
| `WiFi.WiFiClass.SetRetryDelay` | src/WiFi.cpp:52-60 | afterwards `GetRetryDelay()` returns exactly `c`; only `retryDelay` changes |
| `WiFi.WiFiClass.SetConnectionStatusCallback` | src/WiFi.cpp:62-65 | the connection slot holds `cb`; nothing else changes |
| `WiFi.WiFiClass.SetAccessPointStatusCallback` | src/WiFi.cpp:67-70 | the access point slot holds `cb`; nothing else changes |
| `WiFi.WiFiClass.SetScanStatusCallback` | src/WiFi.cpp:72-75 | writes the access point slot, not the scan slot; the scan slot keeps its value, so after construction it stays null |
| `WiFi.WiFiClass.Begin` | src/WiFi.cpp:104-126 | result and trace are `Attempt` in station mode with request `SetNetwork(ssid)`, failure code `WL_CONNECT_FAILED`, the connection slot, the retry delay and the retry count |
| `WiFi.WiFiClass.BeginWithKey` | src/WiFi.cpp:128-149 | the same, with request `SetKey(ssid, keyIndex, key)` |
| `WiFi.WiFiClass.BeginWithPassphrase` | src/WiFi.cpp:151-173 | the same, with request `SetPassphrase(ssid, passphrase)` |
| `WiFi.WiFiClass.BeginAPOnChannel` | src/WiFi.cpp:180-202 | result and trace are `Attempt` in access point mode with request `SetApNetwork(ssid, channel)`, failure code `WL_AP_FAILED` and the access point slot |
| `WiFi.WiFiClass.BeginAP` | src/WiFi.cpp:175-178 | exactly the contract of `BeginAPOnChannel` at channel 1 |
| `WiFi.WiFiClass.BeginSecuredAPOnChannel` | src/WiFi.cpp:209-231 | `Attempt` in access point mode with request `SetApPassphrase(ssid, passphrase, channel)`, failure code `WL_AP_FAILED` and the access point slot |
| `WiFi.WiFiClass.BeginSecuredAP` | src/WiFi.cpp:204-207 | exactly the contract of `BeginSecuredAPOnChannel` at channel 1 |
| `WiFi.WiFiClass.ScanNetworks` | src/WiFi.cpp:332-350 | result and trace are `Scan` over the scan slot and the retry count; when the scan slot is null (always, after construction) the trace holds no callback invocation |
| `Connection.AttemptBudget` | src/WiFi.cpp:107-120 | the most polls one attempt can make is between 1 and 256 and congruent to the retry count modulo 256: the count itself for 1..255, 256 for 0 (the counter wraps) |
| `Connection.PollsMade` | src/WiFi.cpp:111-120 | the loop makes between 1 and budget polls; every poll but the last was pending; if fewer than budget polls were made, the last one was not pending |
| `Connection.PollsMadeIsFirstSettled` | src/WiFi.cpp:118-120 | those conditions fix the number of polls uniquely |
| `Connection.PollUntilSettled` | src/WiFi.cpp:111-120 | the do-while loop returns the answer of poll number `PollsMade`, and its trace is exactly that many passes of callback, delay and poll |
| `Connection.RunAttempt` | src/WiFi.cpp:104-126 | initiation followed by the loop, or the failure code, equals `Attempt` |
| `Connection.RejectedInitiationShortCircuits` | src/WiFi.cpp:109-124 | a rejected request returns the failure code; the trace starts with the request and holds no poll and no callback |
| `Connection.AcceptedInitiationPollsWithinBudget` | src/WiFi.cpp:107-125 | after an accepted request there are at least 1 and at most budget polls, and at most the retry count when it is not 0; the polls read the driver's answers in order; the result is the last answer; every earlier answer was pending; if the budget was not used up, the result is not pending |
| `Connection.SettledAnswerEndsAttempt` | src/WiFi.cpp:118-120 | if answer `i` is the first non-pending answer within the budget, the attempt returns it after exactly `i + 1` polls |
| `Connection.ExhaustedAttemptReturnsPendingStatus` | src/WiFi.cpp:118-125 | if every answer within the budget is pending, the attempt makes exactly budget polls and returns the last pending answer; no timeout code is made up |
| `Connection.ZeroRetryCountWrapsTo256Polls` | src/WiFi.cpp:107-120 | with retry count 0 and a co-processor that stays pending, 256 polls are made |
| `Connection.CallbackFiresOncePerPoll` | src/WiFi.cpp:111-119 | each poll comes right after the delay, and the delay right after the slot's callback when the slot is set; a set slot fires exactly once per poll, a null slot never; the attempt ends with a poll |
| `Connection.NullCallbackOnlyDropsNotifications` | src/WiFi.cpp:113-118 | with a null slot, the result is the same and the trace is the set-slot trace without its callback invocations |
| `Connection.AccessPointStopsOnNoSsid` | src/WiFi.cpp:194-196 | `WL_NO_SSID_AVAIL` as first answer ends an access point start after one poll and is returned; a station join with a budget above 1 polls again |
| `Connection.RejectedScanReturnsFailure` | src/WiFi.cpp:337-338 | a rejected scan request returns `WL_FAILURE` with no poll and no callback |
| `Connection.ScanReturnsLastCount` | src/WiFi.cpp:339-349 | an accepted scan polls between 1 and budget times; earlier counts were all zero; it returns the last count converted to `int8_t`, which is unchanged below 128; it returns 0 only after using the whole budget |
| `Connection.EmptyScanSlotNeverNotifies` | src/WiFi.cpp:341-344 | a scan with a null scan slot invokes no callback |
| `Types.AsInt8` | src/WiFi.cpp:332-349 | the `uint8_t` count returned as `int8_t` keeps its bit pattern, and is non-negative exactly when below 128 |
| `Trace.Rounds` | src/WiFi.cpp:111-119 | the passes over `n` answers record 3 events each with a callback set, 2 without |
| `Trace.RoundObservations` | src/WiFi.cpp:113-118 | one pass records exactly one poll, of its answer; it invokes the slot's callback once if the slot is set and never otherwise; removing that invocation gives the pass of a null slot |
| `Trace.PolledRounds` | src/WiFi.cpp:117-118 | the polls recorded by the passes are exactly the answers, in order |
| `Trace.NotificationsRounds` | src/WiFi.cpp:113-116 | a set slot's callback is invoked once per pass; a null slot's never |
| `Trace.SilencedRounds` | src/WiFi.cpp:113-118 | passes with a null slot are the passes with a set slot, minus the invocations |
| `Trace.RoundsNotifyBeforePoll` | src/WiFi.cpp:113-118 | within each pass the callback precedes the delay, which precedes the poll; the last event is the last poll |
| `Scenarios.JoinSucceedsOnThirdPoll` | src/WiFi.cpp:104-126 | retry count 3 with answers Idle, NoSsidAvailable, Connected returns `WL_CONNECTED` after those three polls |
| `Scenarios.SecuredApExhaustsRetries` | src/WiFi.cpp:209-231 | retry count 2 with answers Idle, Idle returns `WL_IDLE_STATUS` after two polls |
| `Scenarios.RejectedPassphraseJoin` | src/WiFi.cpp:151-173 | a rejected passphrase request returns `WL_CONNECT_FAILED` with no poll and no callback |
| `Scenarios.ZeroRetryCountPollsFullByte` | src/WiFi.cpp:104-126 | retry count 0 with a co-processor that stays idle polls 256 times and returns `WL_IDLE_STATUS` |
| `Scenarios.DefaultApChannelIsOne` | src/WiFi.cpp:175-207 | `beginAP(ssid)` and `beginAP(ssid, pass)` give the same result and trace as the channel-1 forms |
| `Scenarios.ScanCallbackFiresOnlyForAccessPoint` | src/WiFi.cpp:72-75 | after `setScanStatusCallback`, a scan invokes no callback, and an access point start invokes it once per poll |

## Left out

- Pin and LED setup, driver `init`/`end` and `firmwareVersion` (src/WiFi.cpp:77-102, 276-279) only configure hardware through the driver.
- `config`, `setDNS`, `setHostname`, `disconnect`, `lowPowerMode` and `noLowPowerMode` are single calls passed straight to the co-processor.
- The address, SSID, RSSI, BSSID and encryption getters, the per-index scan result accessors and `status` only forward driver results. The `memcpy` into caller buffers is foreign I/O.
- `hostByName`, `getTime` and `ping` are network operations of the driver. The only branch in them depends on the driver's answer.
- The driver (`WiFiDrv`) is not part of this model. Its requests and polls are the `Driver` oracle. Credentials are opaque strings carried in the request event; `strlen` and C-string handling are not modelled.
- Real time is not modelled. `delay(retryDelay)` and `delay(2000)` are `Delay` events only; they never affect a result.
- The `Driver` oracle must hold at least as many answers as the poll budget. A real driver always answers a poll.
- `begin` returns its `uint8_t` status widened to `int`. The model returns the `uint8` itself; the values are identical.
- A callback is identified by an `id`. What it does when invoked, including any failure it raises, is outside the model. Callbacks are assumed not to re-enter the `WiFiClass` object. The source reads the callback slot and `retryDelay` again on every pass, but the model reads them once per attempt. A callback that called a setter would change the later passes in the source and not in the model.
