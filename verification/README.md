# ESP8266 Spotify NFC player: a verified model of the firmware core

The firmware runs on an ESP8266. It reads a Spotify context URI from an NFC
tag and asks the Spotify Web API to play that context on a chosen device. An
LED ring shows what the player is doing. This project models in Dafny the
logic that decides what the firmware does, and proves properties of that
model. The model has six parts.

- **Tag payload translator** (`nfc_reader.dfy`, module `NfcReader`).
  - `readSpotifyUri` copies six 16-byte block reads, starting at page 6, into
    a 176-byte buffer. It stops at the first failed read.
  - `parseTagData` scans that buffer from byte 26 up to the first NULL (0x00)
    or Terminator (0xFE) TLV byte of the NFC Forum Type 2 Tag format. It turns
    `/` into `:` behind the prefix `spotify:`.
  - The card is a function from page address to the outcome of a block read.
- **Spotify Web API client** (`http_result.dfy` and `spotify_client.dfy`,
  modules `SpotifyTypes` and `SpotifyClient`).
  - The `HttpResult` classification and the `RetryConfig` defaults.
  - The bounded retry loop and the exponential backoff with jitter.
  - The refresh-token request of section 6 of RFC 6749.
  - Device discovery and selection.
  - The one-shot 404/401 recovery of `playUri`.
  - The network is an oracle: the answer to the n-th request. `random()` is a
    fixed source of draws. ArduinoJson's decoding is a `Payload` value that is
    either "not JSON" or the already decoded device list and access token.
- **LED animation engine** (`led_controller.dfy`, module `LedController`).
  - The mode, the 8-bit step counter, the pulse brightness and direction, the
    rainbow offset and the time gate of every animation.
  - The pixel array and the audio level buffer, both rewritten in place.
- **Application state machine** (`app.dfy`, module `App`).
  - `changeState`, the rate-limited `updateStateMachine`, and the thirteen
    state handlers with their function-static flags. `checkWifiStatus`.
  - What WiFi, the NFC reader and the Spotify client answer is an input. What
    the handlers ask of them is a list of requests.
  - `millis()` is an unsigned 32-bit parameter. Elapsed times use wrap-around
    subtraction, as the firmware's `unsigned long` arithmetic does.
- **Configuration manager** (`config_manager.dfy`, module `ConfigManagement`).
  - `urlEncode` (form encoding as in section 2.1 of RFC 3986) and its decoding.
  - The hand-written `parseJsonValue` and the JSON text `saveConfig` writes.
  - `loadConfig`, `clearConfig`, `isConfigured`, the form handling of
    `handleSave`, and the authorization URL of section 4.1.1 of RFC 6749.
  - The flash file is one optional string. Whether a file opens is an input.
- **Legacy client** (`legacy_client.dfy`, module `LegacyClient`). This is the
  top-level `SpotifyClient.cpp`, an older client.
  - The index-walking parsers `ParseJson` and `GetDeviceId`.
  - The `Play` body and the `CallAPI` method dispatch.
  - The retry-once policy of `PlaySpotifyUri`.

`arduino.dfy` (module `Arduino`) holds the parts of the Arduino `String` class
the parsers rely on: `indexOf`, `charAt` and bytes.

Each imperative part is a class whose methods are proved equal to a pure
specification function of the old state. The properties are proved about those
functions. Examples:

- A parsed tag URI is never empty, so the "no valid URI" branch of
  `readSpotifyUri` cannot be taken.
- `callApiWithRetry` makes at most `maxRetries + 1` calls and returns the first
  final answer.
- `playUri` never refreshes the token and rediscovers the device in one call.
- Every tick of the state machine makes at most one move along the firmware's
  transition graph.
- The transient LED animations return to IDLE.
- A configuration written by `saveConfig` reads back unchanged when no value
  contains `"` and no value equals the name of a later key.
- The legacy `ParseJson` keeps a closing `}` in the value it returns.

## Model

| member | source | states |
|---|---|---|
| `SpotifyTypes.HttpResult.IsSuccess` | include/SpotifyClient.h:28-31 | true exactly for 200 ≤ code < 300; a success is never 401, 404, 429 or a 5xx |
| `SpotifyTypes.HttpResult.ShouldRetry` | include/SpotifyClient.h:43-56 | true exactly for 429, 500–599 and the transport failure −1; never together with success; 401, 404, 0 and codes below −1 are not retried |
| `SpotifyTypes.DefaultRetryConfig` | include/SpotifyClient.h:84-90 | 3 retries, 1000 ms initial delay, 10000 ms maximum delay, multiplier 2; the initial delay is at most the maximum |
| `NfcReader.TranslateByte` | src/NfcReader.cpp:196-201 | the output is never `/`; every byte other than `/` is copied unchanged |
| `NfcReader.ScanEnd` | src/NfcReader.cpp:188-194 | the position of the first NULL or Terminator byte at or after the start, or the end of the buffer |
| `NfcReader.CopyFrom` | src/NfcReader.cpp:188-202 | the translated bytes from the start up to the end marker, in order, one character per byte |
| `NfcReader.ParseTagData` | src/NfcReader.cpp:185-205 | starts with `spotify:` and so is never empty; length is 8 plus the bytes consumed before the terminator, at most 8 + 150; holds no `/`; character 8+k is the translation of byte 26+k |
| `NfcReader.Blocks` | src/NfcReader.cpp:137-158 | byte 16·i+j of the copied data is byte j of the block read at page 6 + 4·i |
| `NfcReader.FirstFailure` | src/NfcReader.cpp:137-152 | the index of the first failing block read, or 6 when all six succeed |
| `NfcReader.FirstFailureFrom` | src/NfcReader.cpp:137-152 | a failing read after i good ones makes i the first failure |
| `NfcReader.Reader.constructor` | src/NfcReader.cpp:14-22 | a new reader is IDLE with the interrupt flag clear |
| `NfcReader.Reader.HaltCard` | src/NfcReader.cpp:178-183 | the reader returns to IDLE with the interrupt flag cleared |
| `NfcReader.Reader.ReadSpotifyUri` | src/NfcReader.cpp:125-176 | success iff all six reads succeed; otherwise the error is "Read failed: " + the status of the first failed read, the blocks before it are copied and the rest of the buffer is unchanged; on success bytes 0..95 hold the six blocks, the rest is unchanged and the URI is `ParseTagData` of the buffer; the reader always ends IDLE with the flag clear |
| `NfcReader.CopyBlock` | src/NfcReader.cpp:154-157 | writes the 16 bytes of a block at its offset and changes nothing else in the buffer |
| `NfcReader.PathToId` | src/NfcReader.cpp:196-201 | same length as the path, no `/`, and every other character unchanged |
| `NfcReader.EncodeTag` | src/NfcReader.cpp:185-194 | a 176-byte tag image holding the path as bytes at offset 26 (the inverse partner of the translator) |
| `NfcReader.EncodeTagEnd` | src/NfcReader.cpp:188-194 | the scan of an encoded tag stops right after the path |
| `NfcReader.EncodeTagRoundTrip` | src/NfcReader.cpp:185-205 | parsing an encoded path yields `spotify:` followed by the path with `/` turned into `:` |
| `NfcReader.PathToIdOfPair` | src/NfcReader.cpp:196-201 | `kind/name` becomes `kind:name` |
| `NfcReader.ExampleTagParses` | src/NfcReader.cpp:185-205 | a tag holding `playlist/37i9dQZF1DXcBWIGoYBM5M` parses to `spotify:playlist:37i9dQZF1DXcBWIGoYBM5M` |
| `SpotifyClient.GrantParams` | src/SpotifyClient.cpp:83 | the grant body reads back as exactly the parameters `grant_type=refresh_token` and `refresh_token=<token>` iff the token holds no `&` (the token is sent unescaped) |
| `SpotifyClient.TokenRequestShape` | src/SpotifyClient.cpp:80-90 | the token request is a POST to the token URL with `Basic` credentials `clientId:clientSecret` and a form body whose parameters are the refresh-token grant for the stored token |
| `SpotifyClient.RetryLoop` | src/SpotifyClient.cpp:385-413 | the loop from attempt k makes between 1 and maxRetries − k + 1 calls |
| `SpotifyClient.RetryLoopShape` | src/SpotifyClient.cpp:381-420 | the result is the answer to the last call; every earlier answer was not final; a final answer resets the retry count to 0; otherwise all attempts were used and the count is maxRetries (unchanged when no retry was made) |
| `SpotifyClient.Retry` | src/SpotifyClient.cpp:381-420 | `callApiWithRetry` makes between 1 and maxRetries + 1 calls |
| `SpotifyClient.RetryStopsAtFinal` | src/SpotifyClient.cpp:385-392 | a first answer that is a success or not retryable is returned after one call with the count reset |
| `SpotifyClient.RetryExhausts` | src/SpotifyClient.cpp:385-419 | when every answer is retryable, maxRetries + 1 calls are made and the last answer is returned; with maxRetries = 0 the retry count is left as it was |
| `SpotifyClient.BackoffFrom` | src/SpotifyClient.cpp:424-432 | with no steps left the delay is unchanged; otherwise it is clamped to the maximum or equals delay · multiplier^steps |
| `SpotifyClient.Scaled` | src/SpotifyClient.cpp:427 | multiplying by a multiplier ≥ 1 never decreases the delay; by 0 gives 0 |
| `SpotifyClient.BackoffFromStep` | src/SpotifyClient.cpp:426-432 | a step past the maximum clamps and stops the loop; otherwise the loop continues from the scaled delay |
| `SpotifyClient.BackoffFromClosedForm` | src/SpotifyClient.cpp:424-432 | after k ≥ 1 steps the delay is min(delay · multiplier^k, maxDelay) |
| `SpotifyClient.BackoffClosedForm` | src/SpotifyClient.cpp:422-433 | the delay before jitter for retry k is initial for k = 0, else min(initial · multiplier^k, maxDelay) |
| `SpotifyClient.BackoffMonotone` | src/SpotifyClient.cpp:422-433 | the delay before jitter never decreases from one retry to the next and never exceeds the maximum |
| `SpotifyClient.BackoffBaseBound` | src/SpotifyClient.cpp:424-432 | the delay before jitter fits in 32 bits and is at most the maximum once a step was taken |
| `SpotifyClient.BackoffFromBelow` | src/SpotifyClient.cpp:426-432 | starting at or below the maximum, the loop never goes above it |
| `SpotifyClient.RandomValue` | src/SpotifyClient.cpp:435-436 | Arduino `random(n)`: below n, and 0 when n is 0 |
| `SpotifyClient.Jittered` | src/SpotifyClient.cpp:436-440 | the jitter is subtracted on one coin value and added on the other, exactly when the sum fits in 32 bits |
| `SpotifyClient.JitterBand` | src/SpotifyClient.cpp:434-442 | a jitter below delay/4 keeps the result within delay ± delay/4 |
| `SpotifyClient.BackoffDelay` | src/SpotifyClient.cpp:422-443 | when the initial and maximum delays plus a quarter fit in 32 bits, the returned delay lies within 25% of the delay before jitter |
| `SpotifyClient.WithIds` | src/SpotifyClient.cpp:255-267 | no longer than the list, and no entry kept has an empty id |
| `SpotifyClient.ParsedDevices` | src/SpotifyClient.cpp:242-270 | at most maxDevices records (none when maxDevices ≤ 0) |
| `SpotifyClient.ParsedDevicesKept` | src/SpotifyClient.cpp:242-270 | no counted record has an empty id; the records are a prefix of the list with empty ids dropped, and all of it when it fits |
| `SpotifyClient.FirstNamed` | src/SpotifyClient.cpp:453-462 | an index of the device list or −1 |
| `SpotifyClient.FirstNamedFinds` | src/SpotifyClient.cpp:453-464 | the first device whose name equals the name exactly, or −1 when no device has that name |
| `SpotifyClient.FirstWithId` | src/SpotifyClient.cpp:306-314 | an index of the device list or −1 |
| `SpotifyClient.FirstWithIdFinds` | src/SpotifyClient.cpp:306-317 | the first device with the id, or −1 when none has it |
| `SpotifyClient.ExtractDeviceId` | src/SpotifyClient.cpp:445-450 | an unparsable body yields "" |
| `SpotifyClient.ExtractDeviceIdFinds` | src/SpotifyClient.cpp:445-465 | a non-empty result is the id of the first device whose name equals the configured name exactly; "" from a JSON body means no device has that name or the first one has an empty id |
| `SpotifyClient.FetchTokenFacts` | src/SpotifyClient.cpp:80-124 | one token request is sent; success iff 200 with a JSON body carrying a non-empty token, which then becomes the access token; a non-200 answer changes nothing; nothing but the token changes |
| `SpotifyClient.DiscoverFacts` | src/SpotifyClient.cpp:126-147 | only device-list requests are sent; success iff the list answer is 2xx and yields a non-empty id for the device name; a 2xx answer replaces the id, any other keeps it; nothing else changes but the retry count |
| `SpotifyClient.BeginFacts` | src/SpotifyClient.cpp:62-78 | the token request comes first; a failed token fetch stops `begin` after that request; success leaves a token and a device id |
| `SpotifyClient.SimpleCallSent` | src/SpotifyClient.cpp:192-208 | next-track and shuffle send 1 to maxRetries + 1 copies of their one request |
| `SpotifyClient.ShuffleCallTally` | src/SpotifyClient.cpp:201-208 | enabling shuffle sends only shuffle requests |
| `SpotifyClient.AvailableDevices` | src/SpotifyClient.cpp:230-240 | at most maxDevices devices, none with an empty id, and none at all when the list request failed |
| `SpotifyClient.SetDeviceByIdFacts` | src/SpotifyClient.cpp:296-318 | "" returns false and sends nothing; otherwise success iff the id is in the fetched list, and then the id and that device's name are set; on failure id and name are unchanged; only device-list requests are sent |
| `SpotifyClient.SetDeviceByNameFacts` | src/SpotifyClient.cpp:320-339 | success iff a fetched device has the name; then the first such device's id and name are set; on failure id and name are unchanged |
| `SpotifyClient.RecoverTally` | src/SpotifyClient.cpp:167-179 | the recovery step sends at most one token request, never both a token request and device requests, and at most one round of play requests |
| `SpotifyClient.RecoverTallyCases` | src/SpotifyClient.cpp:167-179 | a 404 triggers no token request; a 401 triggers one token request and no device request; any other answer triggers nothing |
| `SpotifyClient.FinishTally` | src/SpotifyClient.cpp:181-189 | the call succeeds iff the final play answer is 2xx, and shuffle requests are sent exactly then |
| `SpotifyClient.PlayAndRecoverTally` | src/SpotifyClient.cpp:165-179 | first play round plus recovery: between 1 and 2(maxRetries + 1) play requests, at most one token request, never both a token request and device requests, no next-track or shuffle request |
| `SpotifyClient.PlayUriRequests` | src/SpotifyClient.cpp:149-190 | all of `playUri`: between 1 and 2(maxRetries + 1) play requests, at most one token request, never both a token request and device requests, no next-track request, and shuffle requests iff it returns true |
| `SpotifyClient.PlayUriAnswer` | src/SpotifyClient.cpp:181-189 | `playUri` returns true iff its final play answer is 2xx; the shuffle outcome does not matter |
| `SpotifyClient.PlayUriSession` | src/SpotifyClient.cpp:149-190 | the first request is the play request on the current device with the current token; credentials and device name never change; the device id changes only after a 404, the token only after a 401 |
| `SpotifyClient.ExpiredTokenScenario` | src/SpotifyClient.cpp:165-185 | 401, then a fresh token, then 204: play with the old token, token request, play and shuffle with the new token are sent, and the call succeeds holding the new token |
| `SpotifyClient.RecoverUsesFreshToken` | src/SpotifyClient.cpp:174-179 | after a 401 the token request carries the client credentials; when the refresh succeeds every replayed play request carries `Bearer` with the new token, on the same device; when it fails nothing else is sent |
| `SpotifyClient.Transport.Exchange` | src/SpotifyClient.cpp:341-379 | one HTTP exchange: the request is logged and the answer is the server's answer to the n-th request |
| `SpotifyClient.Rng.Random` | src/SpotifyClient.cpp:435-436 | a draw of `random(n)` from the source, advancing it |
| `SpotifyClient.Client.constructor` | src/SpotifyClient.cpp:15-21 | all credentials, token and device fields empty, retry count 0, default retry configuration |
| `SpotifyClient.Client.SetCredentials` | src/SpotifyClient.cpp:36-60 | the four credentials are stored and the token and device id cleared; `hasCredentials` iff all four are non-empty; afterwards neither authenticated nor device available |
| `SpotifyClient.Client.SetRetryConfig` | src/SpotifyClient.cpp:51-53 | replaces the retry configuration and nothing else |
| `SpotifyClient.Client.CalculateBackoffDelay` | src/SpotifyClient.cpp:422-443 | the returned delay and the random source afterwards are those of `BackoffDelay`, so the delay lies within 25% of the capped exponential delay |
| `SpotifyClient.Client.CallApiWithRetry` | src/SpotifyClient.cpp:381-420 | sends `Retry`'s number of copies of the request and nothing else, returns its answer and stores its retry count |
| `SpotifyClient.Client.FetchAccessToken` | src/SpotifyClient.cpp:80-124 | the fields, the result and the requests sent are those of `FetchTokenSpec` (see `FetchTokenFacts`) |
| `SpotifyClient.Client.DiscoverDevice` | src/SpotifyClient.cpp:126-147 | the fields, the result and the requests sent are those of `DiscoverSpec` (see `DiscoverFacts`) |
| `SpotifyClient.Client.Begin` | src/SpotifyClient.cpp:62-78 | the fields, the result and the requests sent are those of `BeginSpec` (see `BeginFacts`) |
| `SpotifyClient.Client.EnableShuffle` | src/SpotifyClient.cpp:201-208 | the retried shuffle request for the current device, and nothing else (see `SimpleCallSent`, `ShuffleCallTally`) |
| `SpotifyClient.Client.NextTrack` | src/SpotifyClient.cpp:192-199 | the retried next-track POST for the current device, and nothing else (see `SimpleCallSent`) |
| `SpotifyClient.Client.RecoverPlay` | src/SpotifyClient.cpp:167-179 | the fields, the answer and the requests sent are those of `RecoverSpec`: rediscover and replay after 404, refresh and replay after 401 (see `RecoverTallyCases`) |
| `SpotifyClient.Client.PlayUri` | src/SpotifyClient.cpp:149-190 | the fields, the result and the requests sent are those of `PlayUriSpec` (see `PlayUriRequests`, `PlayUriSession`) |
| `SpotifyClient.Client.ParseDevicesJson` | src/SpotifyClient.cpp:242-270 | returns the number of devices with an id, up to maxDevices, writes them in order at the front of the array, and leaves the slots after the count untouched, except the one after the last counted device, which may hold a skipped record with an empty id |
| `SpotifyClient.Client.GetAvailableDevices` | src/SpotifyClient.cpp:230-240 | the retried device-list request is sent; the array starts with `AvailableDevices` of the answer and the count is its length; only the retry count changes |
| `SpotifyClient.Client.SetDeviceById` | src/SpotifyClient.cpp:296-318 | the fields, the result and the requests sent are those of `SetDeviceByIdSpec` (see `SetDeviceByIdFacts`) |
| `SpotifyClient.Client.SetDeviceByName` | src/SpotifyClient.cpp:320-339 | the fields, the result and the requests sent are those of `SetDeviceByNameSpec` (see `SetDeviceByNameFacts`) |
| `LedController.Wrap8` | include/LedController.h:332-334 | `uint8_t` storage: values below 256 are kept, others are reduced modulo 256 |
| `LedController.CDiv` | src/LedController.cpp:738 | C integer division, truncating toward zero for negative levels |
| `LedController.Clamp` | src/LedController.cpp:755 | `constrain`: within bounds, and unchanged when already inside |
| `LedController.ScaleChannel` | src/LedController.cpp:245-247 | `x * level / 255` never exceeds x, is x at 255 and 0 at 0 |
| `LedController.Scale` | src/LedController.cpp:245-247 | each channel scaled down; full brightness keeps the colour |
| `LedController.DimChannel` | src/LedController.cpp:431 | the byte of `channel * 0.7` in `double` arithmetic: seven tenths, or one less where the product rounds below the integer; a lit channel always gets darker |
| `LedController.Filled` | src/LedController.cpp:43-58 | every one of the n pixels holds the colour |
| `LedController.PulseStepInRange` | src/LedController.cpp:229-242 | pulse brightness stays in [20, 255], moves by 5 and reverses exactly at a bound |
| `LedController.BreathStepInRange` | src/LedController.cpp:370-383 | breathing brightness stays in [10, 150], moves by 2 and reverses exactly at a bound |
| `LedController.ColorWheel` | src/LedController.cpp:337-349 | the three components sum to 255 and one of them is 0 |
| `LedController.SpinFrame` | src/LedController.cpp:277-283 | one colour per LED; which ones are lit is `SpinLights` |
| `LedController.SpinLights` | src/LedController.cpp:271-286 | only pos, pos+1 and pos−1 (mod n) are lit, and all three are when the colour survives quartering |
| `LedController.DualSpinFrame` | src/LedController.cpp:294-308 | one colour per LED; which ones are lit is `DualSpinLights` |
| `LedController.DualSpinLights` | src/LedController.cpp:288-311 | the two heads mirror each other, the second head shows its colour, and only the two comets are lit |
| `LedController.FlashFrame` | src/LedController.cpp:321-328 | even steps light every pixel, odd steps clear every pixel |
| `LedController.WaveFrame` | src/LedController.cpp:357-360 | one colour per LED; the colours are stated by `RainbowTurns` |
| `LedController.SweepFrame` | src/LedController.cpp:404-410 | exactly the LEDs up to the position are lit |
| `LedController.ExpandIntensity` | src/LedController.cpp:456-457 | 255 − 30·i while that is at least 50, and never below 50 |
| `LedController.ContractIntensity` | src/LedController.cpp:492-493 | 50 + 30·i while it fits in a byte |
| `LedController.ContractIntensityWraps` | src/LedController.cpp:492-493 | the `> 255` test on a `uint8_t` cannot fire: ring step 6 gives 230 and step 7 wraps to 4 instead of being capped at 255 |
| `LedController.ExpandPos` | src/LedController.cpp:459-460 | a valid LED index |
| `LedController.ContractPos` | src/LedController.cpp:495-496 | a valid LED index |
| `LedController.ExpandFrame` | src/LedController.cpp:450-472 | one colour per LED; which ones are lit is `ExpandLights` |
| `LedController.ContractFrame` | src/LedController.cpp:486-508 | one colour per LED; which ones are lit is `ContractLights` |
| `LedController.ExpandLights` | src/LedController.cpp:453-472 | every lit LED is one of the ring positions drawn so far |
| `LedController.ContractLights` | src/LedController.cpp:489-508 | every lit LED of the contracting ring is one of the ring positions drawn so far |
| `LedController.ContractRingsReverseExpand` | src/LedController.cpp:495-496 | ring `i` of the contracting ring is ring `n/2 − i` of the expanding ring on each side: it closes in on the centre |
| `LedController.ChaseIntensity` | src/LedController.cpp:541-542 | never below 30 |
| `LedController.ChaseHead` | src/LedController.cpp:525-530 | a valid LED index |
| `LedController.ChaseTail` | src/LedController.cpp:533-539 | a valid LED index |
| `LedController.ChaseFrame` | src/LedController.cpp:522-549 | one colour per LED; which ones are lit is `ChaseLights` |
| `LedController.ChaseLights` | src/LedController.cpp:525-549 | every lit LED is one of the first `k` tail positions, and tail position 0 is the head: `step mod n` going right, `n − 1 − step mod n` going left |
| `LedController.ChaseTailShows` | src/LedController.cpp:533-548 | when the strip holds the whole tail, tail pixel `t` shows the colour at intensity `ChaseIntensity(t)` (the tail pixels are distinct LEDs) |
| `LedController.ChaseLength` | src/LedController.cpp:533 | the tail has between 1 and 4 cells and never more than step + 1 |
| `LedController.ShiftLevels` | src/LedController.cpp:741-751 | the level buffer keeps its length |
| `LedController.ShiftKeepsMirror` | src/LedController.cpp:741-751 | a buffer symmetric about the centre stays symmetric after a shift |
| `LedController.LevelFrame` | src/LedController.cpp:753-757 | every pixel is pure green with intensity clamped to [20, 255], equal to the level when it is in range |
| `LedController.SetStateSpec` | src/LedController.cpp:60-66 | sets the mode, step 0, brightness 50, direction 1; pixels, levels and rainbow offset unchanged |
| `LedController.ShowKeepsWellformed` | src/LedController.cpp:77-193 | every `show*` keeps the controller invariant, sets its mode, sets step `numLeds` for volume-down and brightness 10 for standby |
| `LedController.UpdateWaits` | src/LedController.cpp:760-768 | in IDLE, or before the mode's interval has passed, `update` changes nothing |
| `LedController.UpdateStamps` | src/LedController.cpp:557-719 | once the interval has passed outside IDLE, the frame time becomes now and the audio levels are untouched |
| `LedController.ToIdleKeeps` | src/LedController.cpp:330-334 | a finished animation leaves the controller well-formed in IDLE |
| `LedController.PulseKeeps` | src/LedController.cpp:223-252 | the pulse keeps the controller invariant |
| `LedController.BreathingKeeps` | src/LedController.cpp:364-392 | the breathing animation keeps the controller invariant |
| `LedController.FlashKeeps` | src/LedController.cpp:313-335 | the flash keeps the controller invariant |
| `LedController.SweepKeeps` | src/LedController.cpp:394-417 | the rainbow sweep keeps the controller invariant |
| `LedController.ExpandKeeps` | src/LedController.cpp:444-478 | the expanding ring keeps the controller invariant |
| `LedController.ContractKeeps` | src/LedController.cpp:480-514 | the contracting ring keeps the controller invariant |
| `LedController.ChaseKeeps` | src/LedController.cpp:516-555 | the chase keeps the controller invariant |
| `LedController.UpdateKeepsWellformed` | src/LedController.cpp:557-768 | `update` keeps the controller invariant: brightness in range, rainbow offset below 256, step within its mode's bound |
| `LedController.TransientProgress` | src/LedController.cpp:313-555 | each due frame of a flash, sweep, ring or chase either ends in IDLE with every pixel (0,100,0) or brings the end one frame closer |
| `LedController.RemainingBound` | src/LedController.cpp:313-555 | a transient mode has at most 3·numLeds + 1 frames left (a flash at most 2·count + 1 ≤ 11) and at least one |
| `LedController.FlashFrames` | src/LedController.cpp:313-335 | flash step k < 2·count lights every pixel when k is even and clears them when k is odd, then counts on |
| `LedController.RainbowTurns` | src/LedController.cpp:351-362 | each rainbow frame colours LED i by the colour wheel at its index and advances the offset by 3 modulo 256 |
| `LedController.SoundKeepsWellformed` | src/LedController.cpp:721-758 | the sound display keeps the invariant, acts only in IDLE after the sample interval, and never changes the mode or the frame time |
| `LedController.Strip.constructor` | src/LedController.cpp:8-21 | the invariant holds and the fields are the power-on values: IDLE, step 0, brightness 50, direction 1, offset 0, dark pixels and zero levels, in fresh arrays |
| `LedController.Strip.SetColor` | src/LedController.cpp:43-58 | every pixel holds the colour |
| `LedController.Strip.SetState` | src/LedController.cpp:60-66 | the fields become `SetStateSpec` of the old ones |
| `LedController.Strip.Show` | src/LedController.cpp:77-193 | the fields become `ShowSpec` of the old ones; see `ShowKeepsWellformed` |
| `LedController.Strip.FinishAnimation` | src/LedController.cpp:330-334 | the fields become `ToIdle` of the old ones: IDLE with the idle colour on every pixel; see `ToIdleKeeps` |
| `LedController.Strip.AnimatePulse` | src/LedController.cpp:223-252 | the fields become `PulseSpec` of the old ones (time-gated brightness step, all pixels in the scaled colour); see `PulseStepInRange`, `PulseKeeps` |
| `LedController.Strip.AnimateBlink` | src/LedController.cpp:254-269 | the fields become `BlinkSpec` of the old ones (the step toggles between 0 and 1, lit or cleared) |
| `LedController.Strip.DrawSpin` | src/LedController.cpp:277-283 | writes `SpinFrame` into the pixel array |
| `LedController.Strip.AnimateSpin` | src/LedController.cpp:271-286 | the fields become `SpinSpec` of the old ones; see `SpinLights` |
| `LedController.Strip.DrawDualSpin` | src/LedController.cpp:294-308 | writes `DualSpinFrame` |
| `LedController.Strip.AnimateDualSpin` | src/LedController.cpp:288-311 | the fields become `DualSpinSpec` of the old ones; see `DualSpinLights` |
| `LedController.Strip.AnimateFlash` | src/LedController.cpp:313-335 | the fields become `FlashSpec` of the old ones; see `FlashFrames`, `FlashKeeps` |
| `LedController.Strip.DrawWave` | src/LedController.cpp:357-360 | writes `WaveFrame` |
| `LedController.Strip.AnimateRainbowWave` | src/LedController.cpp:351-362 | the fields become `RainbowWaveSpec` of the old ones; see `RainbowTurns` |
| `LedController.Strip.AnimateBreathing` | src/LedController.cpp:364-392 | the fields become `BreathingSpec` of the old ones; see `BreathStepInRange`, `BreathingKeeps` |
| `LedController.Strip.DrawSweep` | src/LedController.cpp:404-410 | writes `SweepFrame` |
| `LedController.Strip.AnimateRainbowSweep` | src/LedController.cpp:394-417 | the fields become `RainbowSweepSpec` of the old ones; see `SweepKeeps` |
| `LedController.Strip.DimAll` | src/LedController.cpp:426-432 | every pixel becomes `Dim` of its old colour (each channel times 0.7, truncated) |
| `LedController.Strip.AnimateSparkle` | src/LedController.cpp:419-442 | the fields become `SparkleSpec` of the old ones |
| `LedController.Strip.DrawExpand` | src/LedController.cpp:451-472 | writes `ExpandFrame` |
| `LedController.Strip.AnimateExpandRing` | src/LedController.cpp:444-478 | the fields become `ExpandRingSpec` of the old ones; see `ExpandKeeps` |
| `LedController.Strip.DrawContract` | src/LedController.cpp:487-508 | writes `ContractFrame` |
| `LedController.Strip.AnimateContractRing` | src/LedController.cpp:480-514 | the fields become `ContractRingSpec` of the old ones; see `ContractKeeps` |
| `LedController.Strip.DrawChase` | src/LedController.cpp:523-549 | writes `ChaseFrame` |
| `LedController.Strip.AnimateChase` | src/LedController.cpp:516-555 | the fields become `ChaseSpec` of the old ones; see `ChaseKeeps` |
| `LedController.Strip.UpdateAnimation` | src/LedController.cpp:557-719 | keeps the invariant, and the fields become `AnimateSpec` of the old ones: the animation of the current mode with its colour, interval and flash count |
| `LedController.Strip.Update` | src/LedController.cpp:760-768 | keeps the invariant, and the fields become `UpdateSpec` of the old ones; see `UpdateWaits`, `UpdateStamps`, `TransientProgress` |
| `LedController.Strip.ShiftIn` | src/LedController.cpp:741-751 | the audio buffer becomes `ShiftLevels` of the old one |
| `LedController.Strip.ShowLevels` | src/LedController.cpp:753-757 | the pixels become `LevelFrame` of the levels |
| `LedController.Strip.UpdateSoundReactive` | src/LedController.cpp:721-758 | the fields become `SoundSpec` of the old ones |
| `App.Elapsed` | src/main.cpp:209 | `now - since` in unsigned 32-bit arithmetic, wrapping when the clock has wrapped |
| `App.ChangeStateSpec` | src/main.cpp:192-203 | the target state is current; the same state changes nothing; otherwise the old state becomes previous and the entry time is now |
| `App.BootSpec` | src/main.cpp:273-281 | the handler as a step on the globals and the requests it makes; its own contract is that it leaves the rate-limit stamp alone, and `BootWaits` state its behaviour |
| `App.WifiConnectingSpec` | src/main.cpp:283-302 | the handler as a step on the globals and the requests it makes; its own contract is that it leaves the rate-limit stamp alone, and `WifiSetupRetried` state its behaviour |
| `App.WifiConnectedSpec` | src/main.cpp:304-328 | the handler as a step on the globals and the requests it makes; its own contract is that it leaves the rate-limit stamp alone, and `SetupStepsMoveOnce` state its behaviour |
| `App.Started` | src/main.cpp:334-337 | a handler's start flag is set, with the start time recorded only on the first run |
| `App.SpotifyInitSpec` | src/main.cpp:330-369 | the handler as a step on the globals and the requests it makes; its own contract is that it leaves the rate-limit stamp alone, and `SpotifyInitOutcome` state its behaviour |
| `App.SpotifyAttemptSpec` | src/main.cpp:351-368 | the handler as a step on the globals and the requests it makes; its own contract is that it leaves the rate-limit stamp alone, and `SpotifyInitOutcome` state its behaviour |
| `App.IdleSpec` | src/main.cpp:371-393 | the handler as a step on the globals and the requests it makes; its own contract is that it leaves the rate-limit stamp alone, and `IdleDebounce`, `IdleShowsOnce` state its behaviour |
| `App.NfcDetectedSpec` | src/main.cpp:395-400 | the handler as a step on the globals and the requests it makes; its own contract is that it leaves the rate-limit stamp alone, and `SetupStepsMoveOnce` state its behaviour |
| `App.NfcReadingSpec` | src/main.cpp:402-417 | the handler as a step on the globals and the requests it makes; its own contract is that it leaves the rate-limit stamp alone, and `TagMovesOnce` state its behaviour |
| `App.NfcProcessingSpec` | src/main.cpp:419-452 | the handler as a step on the globals and the requests it makes; its own contract is that it leaves the rate-limit stamp alone, and `ProcessingOutcome` state its behaviour |
| `App.FeedbackSpec` | src/main.cpp:454-484 | the handler as a step on the globals and the requests it makes; its own contract is that it leaves the rate-limit stamp alone, and `FeedbackReturns` state its behaviour |
| `App.ErrorRecoverySpec` | src/main.cpp:486-492 | the handler as a step on the globals and the requests it makes; its own contract is that it leaves the rate-limit stamp alone, and `SetupStepsMoveOnce` state its behaviour |
| `App.WifiReconnectingSpec` | src/main.cpp:494-524 | the handler as a step on the globals and the requests it makes; its own contract is that it leaves the rate-limit stamp alone, and `ReconnectOutcome` state its behaviour |
| `App.ChangeStateIdempotent` | src/main.cpp:192-197 | changing to the current state is a no-op, so changing twice to one state is changing once |
| `App.HandlerKeepsStamp` | src/main.cpp:214-266 | no handler touches `lastStateUpdate` |
| `App.UpdateRateLimited` | src/main.cpp:205-212 | within the interval of the last run nothing happens; otherwise the stamp becomes now |
| `App.HandlerMovesOnce` | src/main.cpp:214-266 | whichever handler runs, the machine stays or makes one move along the transition graph, recorded by `changeState` |
| `App.SetupStepsMoveOnce` | src/main.cpp:273-328 | boot, WiFi set-up, NFC detection and error recovery make at most one move |
| `App.SetupMovesOnce` | src/main.cpp:330-369 | Spotify initialisation makes at most one move |
| `App.TagMovesOnce` | src/main.cpp:371-452 | the idle, reading and processing handlers make at most one move |
| `App.FeedbackMovesOnce` | src/main.cpp:454-484 | the feedback handlers make at most one move |
| `App.ReconnectMovesOnce` | src/main.cpp:494-524 | the reconnection handler makes at most one move |
| `App.UpdateMovesOnce` | src/main.cpp:205-267 | one run of `updateStateMachine` makes at most one move |
| `App.ReconnectingNotEntered` | src/main.cpp:214-266 | no handler enters WIFI_RECONNECTING; only `checkWifiStatus` does |
| `App.BootWaits` | src/main.cpp:273-281 | BOOT moves to WIFI_CONNECTING iff 1500 ms have passed since entry, and otherwise changes nothing |
| `App.IdleDebounce` | src/main.cpp:384-392 | IDLE moves to NFC_DETECTED iff the debounce time has passed and a card is present; `lastNfcCheck` changes only then; the reader is polled iff the debounce time has passed |
| `App.IdleShowsOnce` | src/main.cpp:371-382 | once IDLE was entered, the idle LEDs are not requested again |
| `App.ProcessingOutcome` | src/main.cpp:419-452 | SUCCESS iff a device is set, authentication holds or the refresh works, and `playUri` succeeds; `playUri` of the current URI is called iff the first two hold; a refresh is requested iff a device is set and the client is not authenticated |
| `App.FeedbackReturns` | src/main.cpp:454-484 | the feedback states return to IDLE iff the feedback duration has passed, and then clear the URI and the shown flag; otherwise the URI is kept |
| `App.SpotifyInitOutcome` | src/main.cpp:330-369 | IDLE iff timed out, `begin` succeeded or credentials are missing; connected iff `begin` succeeded before the timeout; the start flag is cleared on leaving; `begin` is tried iff not timed out |
| `App.ReconnectOutcome` | src/main.cpp:494-524 | IDLE iff WiFi is back, and then connected; ERROR_RECOVERY iff still down more than 30000 ms after the first attempt |
| `App.CheckWifiEnters` | src/main.cpp:530-535 | WIFI_RECONNECTING is entered iff WiFi is down and was connected; otherwise nothing changes |
| `App.WifiSetupRetried` | src/main.cpp:283-302 | WiFi set-up is requested; CONNECTED iff it succeeds, ERROR_RECOVERY iff it fails; the started flag is cleared either way |
| `App.Application.constructor` | src/main.cpp:74-90 | the globals equal their power-on values (`Initial`): BOOT, times 0, flags clear, no URI; no request made |
| `App.Application.ChangeState` | src/main.cpp:192-203 | the state record becomes `ChangeStateSpec` of the old one |
| `App.Application.HandleBoot` | src/main.cpp:273-281 | the globals become `BootSpec` of the old ones, and its requests are appended to the log |
| `App.Application.HandleWifiConnecting` | src/main.cpp:283-302 | the globals become `WifiConnectingSpec` of the old ones, and its requests are appended to the log |
| `App.Application.HandleWifiConnected` | src/main.cpp:304-328 | the globals become `WifiConnectedSpec` of the old ones, and its requests are appended to the log |
| `App.Application.HandleSpotifyInitializing` | src/main.cpp:330-369 | the globals become `SpotifyInitSpec` of the old ones, and its requests are appended to the log |
| `App.Application.SpotifyAttempt` | src/main.cpp:351-368 | the globals become `SpotifyAttemptSpec` of the old ones, and its requests are appended to the log |
| `App.Application.HandleIdle` | src/main.cpp:371-393 | the globals become `IdleSpec` of the old ones, and its requests are appended to the log |
| `App.Application.HandleNfcDetected` | src/main.cpp:395-400 | the globals become `NfcDetectedSpec` of the old ones, and its requests are appended to the log |
| `App.Application.HandleNfcReading` | src/main.cpp:402-417 | the globals become `NfcReadingSpec` of the old ones, and its requests are appended to the log |
| `App.Application.HandleNfcProcessing` | src/main.cpp:419-452 | the globals become `NfcProcessingSpec` of the old ones, and its requests are appended to the log |
| `App.Application.HandlePlaybackSuccess` | src/main.cpp:454-468 | the globals become `FeedbackSpec` of the old ones with success, and its requests are appended to the log |
| `App.Application.HandlePlaybackFailed` | src/main.cpp:470-484 | the globals become `FeedbackSpec` of the old ones with failure, and its requests are appended to the log |
| `App.Application.HandleErrorRecovery` | src/main.cpp:486-492 | the globals become `ErrorRecoverySpec` of the old ones, and its requests are appended to the log |
| `App.Application.HandleWifiReconnecting` | src/main.cpp:494-524 | the globals become `WifiReconnectingSpec` of the old ones, and its requests are appended to the log |
| `App.Application.UpdateStateMachine` | src/main.cpp:205-267 | the globals become `UpdateSpec` of the old ones (the rate limit, then the handler of the current state) and its requests are appended to the log; see `UpdateRateLimited`, `UpdateMovesOnce` |
| `App.Application.CheckWifiStatus` | src/main.cpp:530-535 | the globals become `CheckWifiSpec` of the old ones (see `CheckWifiEnters`) |
| `ConfigManagement.HexDigit` | src/ConfigManager.cpp:654-662 | an upper-case hexadecimal digit, a letter or digit |
| `ConfigManagement.HexDigitValue` | src/ConfigManager.cpp:654-662 | every hexadecimal digit decodes back to its value |
| `ConfigManagement.EncodeChar` | src/ConfigManager.cpp:649-666 | one character for space and alphanumerics, three for the rest, all from letters, digits, `+` and `%` |
| `ConfigManagement.UrlEncode` | src/ConfigManager.cpp:641-670 | the loop returns `UrlEncoded` of the string, which `UrlRoundTrip` decodes back |
| `ConfigManagement.UrlEncodedAppend` | src/ConfigManager.cpp:647-667 | encoding works character by character: the encoding of a concatenation is the concatenation of the encodings |
| `ConfigManagement.UrlEncodedShape` | src/ConfigManager.cpp:647-667 | output length is the input length plus two per escaped character, and only letters, digits, `+` and `%` occur |
| `ConfigManagement.DecodeChar` | src/ConfigManager.cpp:649-666 | decoding undoes the encoding of one byte |
| `ConfigManagement.UrlRoundTrip` | src/ConfigManager.cpp:641-670 | decoding the encoding of any byte string gives it back |
| `ConfigManagement.Quoted` | src/ConfigManager.cpp:674 | the search key is the key between two quotes |
| `ConfigManagement.ParseJsonValue` | src/ConfigManager.cpp:672-701 | the value never contains a quote; what it reads is `ParseAt` and `ParseMissingKey` |
| `ConfigManagement.ParseMissingKey` | src/ConfigManager.cpp:675-679 | an absent quoted key yields "" |
| `ConfigManagement.Entry` | src/ConfigManager.cpp:107-110 | the quoted key, a colon and the quoted value: its length is the key's and the value's plus five; where each part sits is `EntryShape` |
| `ConfigManagement.EntryShape` | src/ConfigManager.cpp:107-110 | the colon and quotes sit where the reader looks for them, and the value lies between the quotes |
| `ConfigManagement.ParseAt` | src/ConfigManager.cpp:672-701 | when the key's first occurrence starts an entry with a quote-free value, that value is read back |
| `ConfigManagement.ParseConfig` | src/ConfigManager.cpp:137-140 | no field read from a file contains a quote |
| `ConfigManagement.LoadAfterSave` | src/ConfigManager.cpp:106-140 | a configuration written by `saveConfig` and read back field by field is unchanged, when no value contains a quote or equals a later key |
| `ConfigManagement.QuotedValueLost` | src/ConfigManager.cpp:106-140 | a value holding a quote does not survive the round trip |
| `ConfigManagement.KeyNameValueMisread` | src/ConfigManager.cpp:139 | with the client id `refreshToken` (and quote-free values), the refresh token reads back as the client secret, so the round trip fails whenever the two differ |
| `ConfigManagement.AuthorizationUrlParameters` | src/ConfigManager.cpp:159-168 | the client id, redirect URI and scope parameters hold only letters, digits, `+` and `%`, and the first two decode back to what was encoded |
| `ConfigManagement.Arg` | src/ConfigManager.cpp:180-186 | the submitted value, or "" when the form lacks it |
| `ConfigManagement.Submitted` | src/ConfigManager.cpp:179-189 | id, secret and device name come from the form; a non-empty submitted refresh token replaces the stored one, which is kept otherwise |
| `ConfigManagement.IsValidMeansComplete` | include/ConfigManager.h:29-34 | a configuration is valid iff `handleSave` would accept it and it has a refresh token |
| `ConfigManagement.ConfigManager.constructor` | src/ConfigManager.cpp:18-22 | empty configuration, server not running |
| `ConfigManagement.ConfigManager.StartWebServer` | src/ConfigManager.cpp:48-73 | a running server is left alone; otherwise the redirect URI is built from the local IP; the server is running afterwards |
| `ConfigManagement.ConfigManager.StopWebServer` | src/ConfigManager.cpp:75-82 | the server is not running |
| `ConfigManagement.ConfigManager.SaveConfig` | src/ConfigManager.cpp:98-120 | succeeds iff the file opens; then the file holds the serialised configuration and it becomes current; otherwise nothing changes |
| `ConfigManagement.ConfigManager.LoadConfig` | src/ConfigManager.cpp:122-147 | with no file or a failed open nothing changes and the result is false; otherwise the fields are read with `parseJsonValue` and the result is `isConfigured` |
| `ConfigManagement.ConfigManager.ClearConfig` | src/ConfigManager.cpp:149-157 | returns true, removes the file, empties the configuration; `isConfigured` is false afterwards |
| `ConfigManagement.ConfigManager.GetAuthorizationUrl` | src/ConfigManager.cpp:159-168 | the authorize endpoint with the encoded client id, `response_type=code`, the encoded redirect URI and scope, and `show_dialog=true`, built from the stored client id and redirect URI; see `AuthorizationUrlParameters` |
| `ConfigManagement.ConfigManager.HandleSave` | src/ConfigManager.cpp:178-208 | a form missing id, secret or device name is rejected and nothing changes; otherwise the merged configuration becomes current, is written when the file opens, and the reply redirects to authorization when it has no refresh token |
| `LegacyClient.Until` | SpotifyClient.cpp:251-260 | the longest prefix free of `"` and `,`; the copy stops at one of them or at the end |
| `LegacyClient.ValueStart` | SpotifyClient.cpp:262-268 | the copy starts within the string: after the colon, with one quote skipped |
| `LegacyClient.ScanCopying` | SpotifyClient.cpp:247-260 | once copying, the loop returns `Until` of the rest |
| `LegacyClient.ScanSeeking` | SpotifyClient.cpp:247-270 | before copying, the loop finds the first colon and copies `Until` from after it, or returns "" with no colon |
| `LegacyClient.ParseJsonMeaning` | SpotifyClient.cpp:239-273 | "" when the key is absent or at index 0; otherwise the text after the first colon following the key (one quote skipped) up to `"`, `,` or the end; never contains `"` or `,` |
| `LegacyClient.ParseJsonKeepsBrace` | SpotifyClient.cpp:253-260 | the closing `}` of an unquoted last value is part of the result: `{"a":5}` yields `5}` |
| `LegacyClient.BackToBrace` | SpotifyClient.cpp:72-79 | the nearest `{` at or before the name, or 0 |
| `LegacyClient.ToId` | SpotifyClient.cpp:81-94 | the scan crosses no `}`, stops just after the first `"id"` marker, at a `}`, or at the end |
| `LegacyClient.PastQuote` | SpotifyClient.cpp:96-104 | just past the next quote, or the end when there is none |
| `LegacyClient.CopyIdRun` | SpotifyClient.cpp:106-117 | the copied id is the quote-free run starting there |
| `LegacyClient.GetDeviceIdMeaning` | SpotifyClient.cpp:63-125 | "" when the name is absent or at index 0; never contains `"`; otherwise a quote-free run of the text |
| `LegacyClient.WalkBackToBrace` | SpotifyClient.cpp:72-79 | the loop computes `BackToBrace` |
| `LegacyClient.WalkToId` | SpotifyClient.cpp:82-94 | the loop computes `ToId` |
| `LegacyClient.WalkPastQuote` | SpotifyClient.cpp:97-104 | the loop computes `PastQuote` |
| `LegacyClient.CopyUntilQuote` | SpotifyClient.cpp:107-117 | the loop computes `CopyId` |
| `LegacyClient.VerbOf` | SpotifyClient.cpp:208-219 | a verb exactly for "PUT", "POST" and "GET" |
| `LegacyClient.CallApiSpec` | SpotifyClient.cpp:185-237 | an unknown method sends nothing and yields code 0 with an empty payload; a known one sends one call to the target with a Bearer header and returns the server's code |
| `LegacyClient.FetchTokenSpec` | SpotifyClient.cpp:16-52 | exactly the token request is sent; the device id is kept |
| `LegacyClient.GetDevicesSpec` | SpotifyClient.cpp:54-61 | one device-list call; the token is kept |
| `LegacyClient.PlaySpec` | SpotifyClient.cpp:127-138 | one PUT to the play URL of the current device with the play body |
| `LegacyClient.ShuffleSpec` | SpotifyClient.cpp:149-154 | one PUT to the shuffle URL with an empty body |
| `LegacyClient.NextSpec` | SpotifyClient.cpp:140-147 | one POST to the next URL with an empty body |
| `LegacyClient.PlayShuffle` | SpotifyClient.cpp:158-159 | a play then a shuffle call; the code is the play code |
| `LegacyClient.PlayBodyCarriesUri` | SpotifyClient.cpp:130 | the play body is `{"context_uri":"<uri>",...}` and `ParseJson("context_uri")` of it gives the uri back when it has no `"` or `,` |
| `LegacyClient.PlaySpotifyUriRequests` | SpotifyClient.cpp:156-183 | always play then shuffle; on 404 also device list, play, shuffle (with the new device); on 401 also token, play, shuffle; otherwise nothing more |
| `LegacyClient.RetryUsesFreshToken` | SpotifyClient.cpp:170-177 | after a 401 the second play carries the new token when the token answer is 200, the old one otherwise |
| `LegacyClient.UnknownMethodSendsNothing` | SpotifyClient.cpp:188-219 | a method other than PUT, POST or GET sends no request and returns code 0 with an empty payload |
| `LegacyClient.SpotifyClient.constructor` | SpotifyClient.cpp:6-14 | the four settings are stored; no token, no device, nothing sent |
| `LegacyClient.SpotifyClient.ParseJson` | SpotifyClient.cpp:239-273 | the cursor loop returns `ParseJsonSpec`, whose meaning is `ParseJsonMeaning` |
| `LegacyClient.SpotifyClient.GetDeviceId` | SpotifyClient.cpp:63-125 | the four loops return `GetDeviceIdSpec`, whose meaning is `GetDeviceIdMeaning` |
| `LegacyClient.SpotifyClient.CallAPI` | SpotifyClient.cpp:185-237 | returns the answer of `CallApiSpec` and logs its calls; see `UnknownMethodSendsNothing` |
| `LegacyClient.SpotifyClient.FetchToken` | SpotifyClient.cpp:16-52 | the token and the log become those of `FetchTokenSpec`: exactly the token call is sent and the device id is kept; the token a 200 answer gives is stated by `RetryUsesFreshToken` |
| `LegacyClient.SpotifyClient.GetDevices` | SpotifyClient.cpp:54-61 | the device id and the log become those of `GetDevicesSpec`: one device-list call, the token kept |
| `LegacyClient.SpotifyClient.Play` | SpotifyClient.cpp:127-138 | returns the code of `PlaySpec` and logs its one PUT; the fields are untouched |
| `LegacyClient.SpotifyClient.Next` | SpotifyClient.cpp:140-147 | returns the code of `NextSpec` and logs its one POST |
| `LegacyClient.SpotifyClient.Shuffle` | SpotifyClient.cpp:149-154 | returns the code of `ShuffleSpec` and logs its one PUT |
| `LegacyClient.SpotifyClient.PlaySpotifyUri` | SpotifyClient.cpp:156-183 | the token, device id and log become those of `PlaySpotifyUriSpec`; see `PlaySpotifyUriRequests`, `RetryUsesFreshToken` |

## Left out

- Hardware: the MFRC522 chip, SPI, the interrupt handler and its `volatile` flag, `isNewCardPresent`, and the NeoPixel `begin`/`show`/`clear`/`setBrightness`. A card is a function from page address to the outcome of a read. LED output is the pixel array.
- `setColor` with `animate = true` and every other `delay()`/`yield()` busy wait, including the wait between retries: waiting is a no-op.
- Network I/O: `HTTPClient`, TLS, `callApi`'s request building and the token request's transport. The server is an oracle that answers the n-th request.
- Request headers other than `Authorization` (`Content-Type`, `Content-Length`) and the Base64 encoding of the `Basic` credentials. In both clients every request carries its `Authorization` value, and the credentials are the `id:secret` text.
- ArduinoJson: `deserializeJson`, `serializeJson`, `getDevicesJson`, `handleSetDevice` and `handleStatus`. A decoded body is a `Payload`. The play body of `playUri` is a `PlayContext` value, not its text.
- `refreshToken()` is `fetchAccessToken()` under another name; `FetchAccessToken` models both. The getters `getDeviceId` and `getDeviceName` only return fields.
- Web pages and routes: `generate*Page`, `handleRoot`, `handleCallback`, `handleStatus`, `handleClear`, `handleNotFound`, `handleClient`, `exchangeCodeForToken` and src/WebServer.cpp. The web server's `notify*` calls from the state machine are not recorded.
- ConfigManager `begin` (mounting LittleFS). The flash file is one optional string.
- WiFi and WiFiManager (src/WiFiSetup.cpp, `WiFi.reconnect`, `WiFi.status`) are inputs or requests. `ESP.restart` is a `Restart` request; what follows it is a new power-on, which is not modelled.
- `setup()`, `loop()`, the tickers and main.cpp's `updateSoundReactive` wrapper: the order in which the main loop calls the components is not modelled. `stateToString` and all logging are left out.
- LedController.Strip.AnimateSparkle: the random positions and the coin of `random(100)` are inputs. The `double` product `channel * 0.7` is written out in `DimChannel` as seven tenths truncated, one less for the three channel values where the rounded product falls below the integer. Floating-point arithmetic itself is not modelled.
- LedController.Strip.constructor: requires `2 <= numLeds` and `3 * numLeds < 256`. The firmware does not check this, but with fewer LEDs the spin frames wrap onto themselves, and with more the 8-bit sweep and chase counters never reach their end. The device has 8 LEDs.
- The legacy LED aliases `showConnecting`, `showSuccess`, `showReading` and `showError` (src/LedController.cpp 199-217) only call `show*` with a fixed mode; `Show` covers them.
- The four-argument `SpotifyClient` constructor (src/SpotifyClient.cpp 23-34) only stores the four credentials, as `SetCredentials` does on a new client.
- The LED clock is an unbounded `now` that never decreases. `millis()` wrap-around is modelled only in the state machine.
- SpotifyClient.Client.CalculateBackoffDelay: the multiplier is a natural number and the product is exact. The firmware multiplies by a `float` and casts to `uint32_t`, and the model does not capture the overflow of that cast before the cap test.
- SpotifyClient.BackoffDelay: the ±25% band is proved when `delay + delay/4` fits in 32 bits. Larger configured delays wrap in the firmware and are outside that band.
- ConfigManagement.LoadAfterSave: requires that no value contains `"` and that no value equals the name of a later key. `QuotedValueLost` shows the first restriction is needed. `KeyNameValueMisread` shows the second: if `clientId` is the text `refreshToken`, the refresh token reads back as the client secret.
- ConfigManagement.AuthorizationUrlParameters: the scope value is proved to hold only letters, digits, `+` and `%`. That it decodes back to the scope list is not proved.
- The model works on NUL-free strings, where Arduino `String` searches behave as plain sequence searches.
