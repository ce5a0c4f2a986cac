# Station connection manager and credential store of the ESP32 weather station

This project models, in Dafny, the part of the ESP32 weather-station firmware that joins an
external Wi-Fi network as a station, and the code that keeps the station credentials in
non-volatile storage (NVS).

- `wrappers.dfy`: the Option type.
- `app_nvs.dfy`, module `AppNvs`: `main/app_nvs.c`. The NVS namespace `"stacreds"` is a map
  from key to byte blob. The result code of each NVS library call is a parameter: open,
  the two get_blob calls, the two set_blob calls, erase_all and commit. A get_blob fails on a
  non-OK result code. It also fails when the key is absent or the stored blob is longer than
  the buffer. `Save`, `SaveIntended`, `Load` and `Clear` are the reference
  functions. Class `CredStore` holds the namespace and the `wifi_config_t` buffer. Its methods
  follow the C code's early returns and are proved equal to those functions.
- `wifi_app.dfy`, module `WifiApp`: `main/wifi_app.c`. The driver-event callback and the task
  loop act on one state, `AppState`. It holds:
  - the retry counter `g_retry_number`;
  - the three event-group bits (saved-creds, from-http, user-disconnect);
  - the three-slot message queue;
  - the configuration buffer and the credential namespace;
  - a log of the commands sent to the driver, the HTTP server and its monitor.

  One function models each message handler. `Run` interleaves, in any order:
  - driver events;
  - messages other tasks post through the public `wifi_app_send_message`;
  - task receives.

  A step that would block is skipped: a send into a full queue, or a receive from an empty
  one. Class `WifiApp` keeps the C globals as fields. Its methods are
  proved against the step functions.

Constants: `MAX_SSID_LENGTH` 32, `MAX_PASSWORD_LENGTH` 64, `MAX_CONNECTION_RETRIES` 5, and a
queue capacity of 3.

Three behaviours of the code shape the model:
- The reason for a connection is kept in three independent event-group bits, and several
  can be set at once. STA_DISCONNECTED acts on the first set bit in the order saved-creds,
  from-http, user-disconnect. A user disconnect during an HTTP-started attempt is therefore
  reported as a failed connection, and the user bit stays set
  (`UserDisconnectDuringHttpAttempt`).
- On getting an address, the code saves the credentials whenever the saved-creds bit is
  clear. This includes the case where no bit is set. It does not check the from-http bit,
  although the comment at `main/wifi_app.c:258` says credentials are saved only for
  connections from the HTTP server. So an HTTP connection made while a saved-credentials
  attempt is still in flight is not saved (`HttpConnectionDuringSavedCredsAttemptNotSaved`).
  When such overlapping attempts are given up, the stored credentials are cleared and no
  CONNECT_FAILED is sent (`GiveUpDuringOverlappingAttempts`). A user disconnect during a
  saved-credentials attempt clears the credentials twice and sends no user-disconnect notice
  (`UserDisconnectDuringSavedCredsAttempt`).
- The retry counter is reset only by `CONNECTING_FROM_HTTP_SERVER`. Loading saved
  credentials does not reset it, and neither does a successful connection. Once the budget
  is spent, no reconnect happens until such a message is handled
  (`NoReconnectsOnceBudgetSpent`).

## Model

| member | source | states |
|---|---|---|
| AppNvs.FirstError | main/app_nvs.c:36-57 | the code a chain of calls returns when it stops at the first failure: ESP_OK iff every call succeeded, otherwise the first failing call's code |
| AppNvs.Pad | main/app_nvs.c:107 | a field that was zeroed and then filled by memcpy holds the blob's bytes first and zeros after them, at the field's full length |
| AppNvs.Save | main/app_nvs.c:26-71 | save writes only the "ssid" and "password" keys. A NULL configuration writes nothing and returns ESP_OK. Otherwise the result is the first failing open or blob write, and the commit result is never reported. Nothing is written unless open and the ssid write succeed |
| AppNvs.SaveIntended | main/app_nvs.c:59-65 | corrected save: same writes as Save, and the result is the first failure among open, both writes and commit |
| AppNvs.Load | main/app_nvs.c:77-131 | load never allocates or drops the global configuration. A failed open changes nothing and returns false. Load returns true iff open and both get_blob calls succeed, both blobs are present and fit, and the first stored ssid byte is non-zero. On success the configuration holds the zero-padded blobs. Every loaded byte is a stored byte or zero |
| AppNvs.Clear | main/app_nvs.c:137-168 | clear returns the first failure among open, erase and commit. The namespace is emptied once open and erase succeed, even if the commit fails, and is untouched otherwise |
| AppNvs.SaveWritesFullBlobs | main/app_nvs.c:43-57 | a save whose open and writes succeed stores exactly the configuration's 32 ssid bytes and 64 password bytes and returns ESP_OK |
| AppNvs.SaveSsidFailureWritesNothing | main/app_nvs.c:43-49 | when the ssid write fails, the password is not written and that error is returned |
| AppNvs.SaveIgnoresCommit | main/app_nvs.c:59-70 | the outcome of save, both store and result code, does not depend on what the commit returns |
| AppNvs.SaveReportsOkWhenCommitFails | main/app_nvs.c:59-70 | with a commit that fails with ESP_FAIL, save as written returns ESP_OK, while the corrected save returns ESP_FAIL |
| AppNvs.LoadAfterSave | main/app_nvs.c:44-118 | a load whose open and reads succeed, after a save whose open and writes succeed, restores exactly the saved ssid and password, and reports success iff the first ssid byte is non-zero |
| AppNvs.LoadAfterClear | main/app_nvs.c:100-106 | after a clear whose open and erase succeed, load returns false |
| AppNvs.CredStore.SetBlob | main/app_nvs.c:44 | a blob write stores the value under its key only when the library reports ESP_OK, and returns that code |
| AppNvs.CredStore.EraseAll | main/app_nvs.c:151 | erase empties the namespace only when the library reports ESP_OK |
| AppNvs.CredStore.SaveStaCreds | main/app_nvs.c:26-71 | the early-return code leaves the store and the result that Save describes, and leaves the configuration alone |
| AppNvs.CredStore.LoadStaCreds | main/app_nvs.c:77-131 | the code that zeroes and copies in place leaves the configuration and result that Load describes, and never changes the store |
| AppNvs.CredStore.ClearStaCreds | main/app_nvs.c:137-168 | the early-return code leaves the store and the result that Clear describes |
| WifiApp.OnDriverEvent | main/wifi_app.c:50-104 | while retry < 5 a station disconnect issues one reconnect and adds exactly 1 to the counter. Otherwise it posts STA_DISCONNECTED and leaves the counter as it is. Getting an address posts STA_CONNECTED_GOT_IP. Other events change nothing. The bits, configuration and store are never touched, and the counter stays in [0, 5] |
| WifiApp.OnLoadSavedCredentials | main/wifi_app.c:218-232 | a connect with the loaded configuration is issued, and the saved-creds bit set, iff the load succeeds. START_HTTP_SERVER is posted exactly once either way. The counter and the store are unchanged |
| WifiApp.OnConnectingFromHttpServer | main/wifi_app.c:238-251 | sets the from-http bit, issues exactly one connect then CONNECT_INIT, and resets the counter to 0. The other bits are unchanged |
| WifiApp.OnStaConnectedGotIp | main/wifi_app.c:252-274 | always notifies CONNECT_SUCCESS. It saves the credentials iff the saved-creds bit was clear, and then both the saved-creds and from-http bits are clear. The user bit and the counter are untouched |
| WifiApp.OnUserRequestedStaDisconnect | main/wifi_app.c:275-283 | sets the user bit and forces the counter to 5, then issues a disconnect and a clear. The namespace ends as Clear leaves it. The other bits, the queue and the configuration are unchanged |
| WifiApp.OnStaDisconnected | main/wifi_app.c:284-311 | clears only the first set bit in the order saved-creds, from-http, user-disconnect. Only the saved-creds case erases credentials. Only the from-http case sends CONNECT_FAILED, and only the user case sends the user-disconnect notice. At most one command is issued. With no bit set nothing changes, and the counter never changes |
| WifiApp.TaskStep | main/wifi_app.c:211-315 | one receive keeps the counter in [0, 5] and the queue within 3 messages. An unknown id only consumes the message. START_HTTP_SERVER only starts the server |
| WifiApp.Apply | main/wifi_app.c:320-325 | every step of the interleaving, completed or blocked, including a message posted by another task, keeps the counter in [0, 5], the queue within 3 messages and the configuration allocated. The command log only grows |
| WifiApp.RunPreservesInv | main/wifi_app.c:79-87 | in every interleaving of driver events, posted messages and task receives, the counter stays within [0, 5] and the queue within its 3 slots |
| WifiApp.BlockedReceivesChangeNothing | main/wifi_app.c:214 | with an empty queue, the task's receives block and change nothing |
| WifiApp.ReconnectsWhileBudgetLeft | main/wifi_app.c:79-83 | k disconnects with k retries left issue exactly k reconnects and add k to the counter, nothing else |
| WifiApp.DisconnectBurstGivesUp | main/wifi_app.c:79-87 | from any counter value r in [0, 5], with a free queue slot, 5 - r + 1 disconnects give exactly 5 - r reconnects and then post one STA_DISCONNECTED |
| WifiApp.CredentialsErasedOncePerGiveUp | main/wifi_app.c:284-293 | however driver disconnects and STA_DISCONNECTED handling interleave, stored credentials are erased exactly once when the saved-creds attempt is given up, and never otherwise |
| WifiApp.DispatchKeepsBudgetSpent | main/wifi_app.c:218-314 | no handler except CONNECTING_FROM_HTTP_SERVER lowers a spent retry counter or issues a reconnect. Only LOAD_SAVED_CREDENTIALS posts a message, and that message is START_HTTP_SERVER |
| WifiApp.NoReconnectsOnceBudgetSpent | main/wifi_app.c:79-87 | once the counter is at 5, any interleaving of driver events, posted messages and receives keeps it at 5 and issues no reconnect, as long as no CONNECTING_FROM_HTTP_SERVER message is queued or posted |
| WifiApp.UserDisconnectSkipsRetries | main/wifi_app.c:275-305 | with neither the saved-creds nor the from-http bit set, a user disconnect makes the driver's disconnect go straight to STA_DISCONNECTED with no reconnect, which then reports the user disconnect and clears the user bit |
| WifiApp.UserDisconnectDuringSavedCredsAttempt | main/wifi_app.c:275-293 | with the saved-creds bit set, a user disconnect ends in a second clear when the driver gives up. No user-disconnect notice is sent, only the saved-creds bit is cleared, and the user bit stays set |
| WifiApp.UserDisconnectDuringHttpAttempt | main/wifi_app.c:294-299 | with the saved-creds bit clear, a user disconnect during an HTTP-started attempt ends in CONNECT_FAILED, with the user bit still set |
| WifiApp.HttpConnectionDuringSavedCredsAttemptNotSaved | main/wifi_app.c:238-272 | with the saved-creds bit set, an HTTP-started connection that gets an address notifies CONNECT_INIT and CONNECT_SUCCESS but issues no save and leaves the store unchanged. Both bits end clear |
| WifiApp.GiveUpDuringOverlappingAttempts | main/wifi_app.c:284-299 | with both the saved-creds and from-http bits set, giving up clears the credentials and sends no CONNECT_FAILED. Only the saved-creds bit is cleared |
| WifiApp.HttpConnectionPersistsCredentials | main/wifi_app.c:238-267 | when no saved-creds attempt is in flight (saved-creds bit clear), and the save's and the next load's NVS calls succeed, an HTTP-started connection that gets an address notifies CONNECT_INIT and then CONNECT_SUCCESS, and saves exactly the configuration it used, so that the next load restores it |
| WifiApp.StartupSequence | main/wifi_app.c:209-236 | at start-up the task connects with the stored credentials iff they load, then starts the HTTP server once |
| WifiApp.WifiApp.constructor | main/wifi_app.c:346-354 | start-up allocates a zeroed configuration. The counter is 0, no bit is set, and the queue holds only LOAD_SAVED_CREDENTIALS |
| WifiApp.WifiApp.Send | main/wifi_app.c:320-325 | a send appends the message at the tail of the queue (FIFO) and needs a free slot |
| WifiApp.WifiApp.ConnectStation | main/wifi_app.c:181-185 | a connect applies the current configuration |
| WifiApp.WifiApp.HandleEvent | main/wifi_app.c:50-104 | the callback's in-place updates give the state OnDriverEvent describes, and keep the invariant |
| WifiApp.WifiApp.ReceiveAndHandle | main/wifi_app.c:214-315 | one loop iteration's in-place updates and NVS calls give the state TaskStep describes, and keep the invariant |
| WifiApp.WifiApp.TaskLoop | main/wifi_app.c:211-317 | the receive loop gives the state of Run over its receives, and stops only where the source would block on an empty queue |

## Left out

- The firmware-update (OTA) pipeline, the status-monitor task and its snapshot, the connect-request handler with its validation, and the delayed restart: none of them is part of the modelled code.
- `main/http_server.c`: static asset serving and starting or stopping the HTTP server. Starting the server is the `StartHttp` command.
- Radio, IP and network setup (`main/wifi_app.c:109-176`): event-loop registration, netif, DHCP and SoftAP configuration, `esp_wifi_start`, task creation. These are calls into the ESP-IDF. `wifi_app_connect_sta`, `esp_wifi_connect` and `esp_wifi_disconnect` are log entries, and are assumed to succeed. In `wifi_app_connect_sta` and the user-disconnect handler these calls are wrapped in `ESP_ERROR_CHECK`, so a failure there would abort the firmware. The callback's `esp_wifi_connect` (`main/wifi_app.c:81`) is not checked: its result is ignored, and the model ignores it too.
- Concurrency: the callback and the task run in separate contexts. Here each step is atomic and steps interleave in any order. A blocking send or receive is a step that cannot happen yet.
- The disconnect reason code, which the source only logs.
- The rest of `wifi_config_t`: only the station ssid and password arrays are modelled.
- LED calls, logging, and the leaked copy of the disconnect event. NVS flash initialisation in `main/main.c`, and the DHT22 sensor.
- NVS handles are not modelled, so handle leaks are not visible. Load and clear leave the handle open on their error returns. Save leaves it open on its error returns and also on every successful commit, because `main/app_nvs.c:61-64` returns before the `nvs_close` at line 66.
- The memset of the load buffer at `main/app_nvs.c:96` clears only the size of a `size_t`. This has no effect, because memcpy copies only the bytes that were read.
- AppNvs.Load: when the global configuration is NULL, the source loads into a buffer it allocates and then leaks. The model keeps the result and drops the buffer. This never happens after start-up.
- WifiApp.WifiApp.TaskLoop: it models a bounded prefix of the source's endless loop, one iteration per supplied NVS result.
- AppNvs.Save: a blob write takes effect when set_blob succeeds. Commit only affects the result code, so commit durability is not modelled.

## Findings

| source | as written | input that shows it | evidently intended | confidence | as-written member | corrected member |
|---|---|---|---|---|---|---|
| main/app_nvs.c:61 | the check of the commit result is inverted: a successful commit returns early, and a failed commit falls through to the final ESP_OK | open and both blob writes succeed, and the commit returns ESP_FAIL: save returns ESP_OK | report the commit's error, as the error message printed in that branch says | high; not executed | AppNvs.SaveReportsOkWhenCommitFails | AppNvs.SaveIntended |
