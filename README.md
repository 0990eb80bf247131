# Serial-to-HTTP sensor bridge, modelled in Dafny

The Arduino sensor reader (`arduino-reader/serial_reader.py`) reads text lines
such as `pH:7.02,temp:24.5` from a USB serial port and POSTs each one to a
readings API. This project models the decision logic of that bridge:

- the admission filter, which keeps a line only when it decodes, is not blank
  after Python's `str.strip()`, and contains both `pH:` and `temp:`;
- port discovery: the existing `/dev/ttyUSB0`–`/dev/ttyUSB3` in index order,
  then the ACM ports, then the first port that opens and shows a sensor line
  within three test reads;
- the API check: for the configured URL and then the two alternatives, probe
  the base URL (`rsplit('/', 1)[0]`) and keep the first that answers 200;
- a send succeeds on status 201 only;
- the main loop: the reconnect counter and port re-detection, the retry
  cache of unsent readings, the drain of that cache after a successful send
  (oldest first, stopping at the first failure), and the URL re-check after a
  failed send or when the cache length reaches a multiple of five.

Every I/O outcome is given to the model as data rather than performed:
- a `PortScan` says which paths exist, what the ACM glob lists, whether each
  port opens, and what each test read returns;
- an `Event` says, for one loop iteration, whether the open succeeds, what the
  serial read returns, how each GET and POST is answered, and what the
  re-detection sees.

Modules:

- `Wrappers`: the `Option` type.
- `Text`: `str.strip()`, with Python's whitespace set, and substring search.
- `Search`: a generic first-match search.
- `Http`: replies, and the 200 and 201 tests.
- `Admission`: the line filter shared by the test read and the main loop.
- `ApiCheck`: `check_api_connection`, proved as a loop against a first-match
  specification.
- `PortDiscovery`: `find_arduino_port` and `test_read_from_port`, written as
  the same loops.
- `OutboundCache`: the drain loop and the rebuild of `local_readings`.
- `Bridge`: one iteration of `while running` as the function `Step` on a
  `State`, returning the next state, its I/O actions in order (`Redetect`,
  `OpenSerial`, `ProbeApi`, `Post`) and the reading it admitted. `Valid` is
  the loop invariant.
- `BridgeProperties`: properties of `Step` and of runs of it.
- `SerialReader`: `main` as imperative code. The loop variables are the fields
  of class `Reader`, and `Iterate` is proved to perform exactly `Step`.

## Model

| member | source | states |
|---|---|---|
| Text.Strip | arduino-reader/serial_reader.py:278 | Python's `str.strip()` over its whitespace set; what it keeps is stated by `Text.StripSpec` and `Text.StripIdempotent` |
| Text.Contains | arduino-reader/serial_reader.py:293 | Python's `p in s` on strings; it is tied to an occurrence position by `Text.ContainsIffOccurs` |
| Text.SpacesFromSpec | arduino-reader/serial_reader.py:278 | the forward scan skips only whitespace and stops at a non-whitespace character or the end |
| Text.SpacesBeforeSpec | arduino-reader/serial_reader.py:278 | the backward scan skips only whitespace and stops after a non-whitespace character or at its lower bound |
| Text.StripSpec | arduino-reader/serial_reader.py:278 | the stripped text is an infix of the line; on each side only whitespace is removed, and the ends left are not whitespace; it is empty exactly when the line is all whitespace |
| Text.StripIdempotent | arduino-reader/serial_reader.py:278 | stripping a second time changes nothing |
| Text.TrimmedIffStripFixed | arduino-reader/serial_reader.py:278 | a string survives stripping unchanged exactly when it is empty or has non-whitespace ends, and every stripped string has that form |
| Text.ContainsIffOccurs | arduino-reader/serial_reader.py:293 | Python's `p in s` holds exactly when `p` occurs at some position of `s` |
| Text.ContainsNeedsRoom | arduino-reader/serial_reader.py:293 | a string containing `p` is at least as long as `p` |
| Search.IndexOfFirstSpec | arduino-reader/serial_reader.py:88-98 | no element before the position found passes the test; the element at that position passes unless the position is the length |
| Search.FirstWhereSpec | arduino-reader/serial_reader.py:163-170 | the search returns nothing exactly when no element passes; otherwise it returns an element of the list that passes |
| Search.FirstWhereAt | arduino-reader/serial_reader.py:163-170 | the result is the element at the first passing index |
| Search.FirstWhereCons | arduino-reader/serial_reader.py:152-170 | the head wins when it passes; otherwise the search continues in the tail |
| Admission.Admit | arduino-reader/serial_reader.py:271-297 | the line filter: an empty, undecodable or failed read and a line without both markers give nothing; otherwise the stripped text; characterised by `Admission.AdmitIffMarkersOccur` |
| Admission.SensorDataIsNotBlank | arduino-reader/serial_reader.py:286-297 | text with both markers is never empty, so the blank check rejects nothing the marker check passes |
| Admission.LooksLikeSensorDataIffOccurs | arduino-reader/serial_reader.py:293 | the format check holds exactly when `pH:` and `temp:` both occur in the text |
| Admission.AdmitIffMarkersOccur | arduino-reader/serial_reader.py:271-297 | a line is admitted exactly when it decoded and its stripped text contains both markers; the admitted value is the stripped text, which is trimmed |
| ApiCheck.BaseUrl | arduino-reader/serial_reader.py:153 | `url.rsplit('/', 1)[0]`; characterised by `ApiCheck.BaseUrlSpec` |
| ApiCheck.BaseUrlSpec | arduino-reader/serial_reader.py:153 | the base URL is the URL itself when it has no `/`; otherwise it is the prefix before the last `/` |
| ApiCheck.LastSlashSpec | arduino-reader/serial_reader.py:153 | the position found is a `/` with no `/` after it, and it is -1 exactly when there is no `/` |
| ApiCheck.DefaultBaseUrl | arduino-reader/serial_reader.py:35 | the default API URL is probed at `http://api:3001/api` |
| ApiCheck.WorkingApiUrl | arduino-reader/serial_reader.py:147-175 | the first of the configured URL and the two alternatives whose base answers 200; characterised by `ApiCheck.WorkingApiUrlSpec` |
| ApiCheck.WorkingApiUrlSpec | arduino-reader/serial_reader.py:147-175 | the configured URL wins when its base answers 200, then the first alternative, then the second; the result is always a candidate that answered 200; it is none exactly when every probe fails |
| ApiCheck.CheckApiConnection | arduino-reader/serial_reader.py:147-175 | the loop with early returns computes the first-match URL |
| PortDiscovery.UsbPortNames | arduino-reader/serial_reader.py:70-71 | the fixed USB paths are `/dev/ttyUSB{i}` for i = 0..3 |
| PortDiscovery.PresentSpec | arduino-reader/serial_reader.py:69-73 | the existence filter keeps exactly the existing paths, in their original order |
| PortDiscovery.PresentSnoc | arduino-reader/serial_reader.py:69-73 | filtering a list extended by one path extends the result by that path exactly when it exists |
| PortDiscovery.PresentLength | arduino-reader/serial_reader.py:69-73 | filtering never lengthens the list |
| PortDiscovery.PortCandidates | arduino-reader/serial_reader.py:68-85 | the existing USB ports followed by the ACM glob; characterised by `PortDiscovery.PortCandidatesSpec` |
| PortDiscovery.SeesSensorData | arduino-reader/serial_reader.py:108-145 | the test read: the port opens and one of the first reads is admitted; `PortDiscovery.TestReadFromPort` is the loop that decides it |
| PortDiscovery.PortCandidatesSpec | arduino-reader/serial_reader.py:68-85 | the candidates are the existing USB ports in index order followed by the ACM ports; there are none exactly when no USB path exists and the glob is empty |
| PortDiscovery.FindSensorPort | arduino-reader/serial_reader.py:58-106 | the first candidate that opens and passes the test read; characterised by `PortDiscovery.FindSensorPortSpec` |
| PortDiscovery.FindSensorPortSpec | arduino-reader/serial_reader.py:58-106 | discovery returns the first candidate that opens and passes the test read; every earlier candidate fails; it returns none exactly when all fail, which includes the case of no candidates |
| PortDiscovery.ListUsbPorts | arduino-reader/serial_reader.py:69-74 | the append loop builds the filtered USB list |
| PortDiscovery.TestReadFromPort | arduino-reader/serial_reader.py:108-145 | the test succeeds exactly when the port opens and one of the first `attempts` reads is a decodable line containing both markers |
| PortDiscovery.FindArduinoPort | arduino-reader/serial_reader.py:58-106 | the candidate loop with early return computes the first-match port |
| PortDiscovery.TryPort | arduino-reader/serial_reader.py:89-102 | a candidate is accepted exactly when its quick open succeeds and its test read sees sensor data |
| OutboundCache.SentCount | arduino-reader/serial_reader.py:309-314 | the length of the leading run of cached readings answered 201; never more than the cache length; characterised by `OutboundCache.SentCountSpec` |
| OutboundCache.Unsent | arduino-reader/serial_reader.py:317 | the cached readings whose positions are not among the sent ones, in order; characterised by `OutboundCache.UnsentAfterSentPrefix` |
| OutboundCache.SentCountSpec | arduino-reader/serial_reader.py:309-314 | every cached reading counted as sent was answered 201, and the next one, if tried, was not |
| OutboundCache.SentCountAt | arduino-reader/serial_reader.py:309-314 | the count is fixed by the position of the first failed send |
| OutboundCache.UnsentAfterSentPrefix | arduino-reader/serial_reader.py:317 | removing the positions of a sent prefix leaves exactly the rest of the cache, in order |
| OutboundCache.SendCached | arduino-reader/serial_reader.py:308-314 | the drain sends oldest first and records positions 0..k-1, all answered 201; it stops after the first failure, which is counted as tried |
| OutboundCache.RemoveSent | arduino-reader/serial_reader.py:317 | the rebuilt list holds the cached readings whose positions were not sent, in order |
| OutboundCache.DrainLeavesSuffix | arduino-reader/serial_reader.py:306-317 | draining then rebuilding leaves the old cache without its longest prefix that was sent successfully |
| Bridge.Step | arduino-reader/serial_reader.py:241-347 | one iteration of `while running`: the connection block, then the read and the line handling when the block does not end the iteration; its properties are the `BridgeProperties.Step*` lemmas |
| Bridge.Reconnect | arduino-reader/serial_reader.py:243-266 | the connection block; characterised by `BridgeProperties.ReconnectSpec` and `BridgeProperties.ReconnectIsQuiet` |
| Bridge.Handle | arduino-reader/serial_reader.py:268-297 | the read and the admission of one line; characterised by `BridgeProperties.HandleOutcome` and `BridgeProperties.HandleKeepsConnection` |
| Bridge.Forward | arduino-reader/serial_reader.py:298-335 | sending, draining and caching an admitted reading; characterised by `BridgeProperties.ForwardOutcome` |
| Bridge.Run | arduino-reader/serial_reader.py:240-347 | successive iterations; `BridgeProperties.RunPreservesValid` and `BridgeProperties.RunCacheGrowth` are about it |
| Bridge.Valid | arduino-reader/serial_reader.py:236-347 | the loop invariant: an open port has a name and a zeroed counter, the URL is a candidate, every cached entry is an admitted reading; kept by `BridgeProperties.StepPreservesValid` |
| Bridge.Startup | arduino-reader/serial_reader.py:218-239 | the state the loop starts in, or none when `main` exits; characterised by `BridgeProperties.StartupSpec` |
| Bridge.PostedAppend | arduino-reader/serial_reader.py:241-339 | the readings posted and the URL checks made by two action sequences in a row add up |
| BridgeProperties.SerialActionsQuiet | arduino-reader/serial_reader.py:243-266 | serial-port actions post nothing and check no URL |
| Bridge.PostedPosts | arduino-reader/serial_reader.py:309-314 | the drain posts exactly the readings it is given, in order, and checks no URL |
| BridgeProperties.ReconnectIsQuiet | arduino-reader/serial_reader.py:243-266 | the connection block leaves the cache and the API URL alone and makes no HTTP request; the iteration reaches the serial read exactly when the port was open or an open of a named port succeeds |
| BridgeProperties.StepViaHandle | arduino-reader/serial_reader.py:241-339 | an iteration's HTTP traffic, reading and final state are those of its line handling; an iteration that ends in the connection block changes neither the cache nor the URL |
| BridgeProperties.ForwardDelivered | arduino-reader/serial_reader.py:298-320 | after a 201 for the fresh reading: the fresh reading is posted first, then the cache up to and including the first failed re-send; the cache loses its sent prefix; the URL is checked only when none was known |
| BridgeProperties.ForwardUndelivered | arduino-reader/serial_reader.py:321-326 | after a failed send, only the fresh reading was posted; it is appended to the cache; the iteration ends with a URL check whose answer becomes the URL |
| BridgeProperties.ForwardUnsent | arduino-reader/serial_reader.py:298-335 | with no URL even after the check, nothing is posted and the reading is appended to the cache; the URL is checked a second time exactly when the new cache length is a multiple of five |
| BridgeProperties.ForwardOutcome | arduino-reader/serial_reader.py:298-335 | the three send outcomes combined, told apart by what was posted and by the 201 test |
| BridgeProperties.HandleOutcome | arduino-reader/serial_reader.py:268-339 | line handling admits exactly the filtered line; a rejected line, an empty read or a serial error leaves the cache, the URL and the HTTP traffic untouched |
| BridgeProperties.StepAdmission | arduino-reader/serial_reader.py:241-297 | an iteration admits exactly the filtered line when it reaches the read; otherwise it admits nothing; without an admitted reading it touches neither the cache, the URL nor the API |
| BridgeProperties.StepSendOrder | arduino-reader/serial_reader.py:302-326 | the fresh reading is posted first; cached readings follow oldest first; the drain stops right after the first failed re-send; after a failed fresh send nothing else is posted |
| BridgeProperties.StepSendRule | arduino-reader/serial_reader.py:193-203 | only a 201 answer to the fresh POST delivers: after any other answer, 200 included, the reading is cached, no cached reading is posted, and the iteration ends with a URL check that sets the URL; after a 201 the reading is not cached |
| BridgeProperties.StepCacheUpdate | arduino-reader/serial_reader.py:302-331 | a reading is appended to the cache exactly when it was not delivered; a delivery leaves the cache without its sent prefix; one iteration adds at most one entry |
| BridgeProperties.StepReprobe | arduino-reader/serial_reader.py:299-335 | when nothing is posted, the URL is re-checked exactly when the cache length is a multiple of five; a failed send is always followed by a URL check that sets the URL; a delivery re-checks the URL only when none was known |
| BridgeProperties.ReconnectSpec | arduino-reader/serial_reader.py:243-266 | re-detection happens exactly when disconnected with the counter at 10 or more, and its result becomes the port even when it is none or empty; then the counter is zeroed and the iteration ends; otherwise the port is opened, and success, possible only for a named port, zeroes the counter while failure adds one |
| BridgeProperties.HandleKeepsConnection | arduino-reader/serial_reader.py:268-347 | line handling keeps the counter and the port; it closes the port only on a serial error |
| BridgeProperties.StepConnectionParts | arduino-reader/serial_reader.py:241-347 | an iteration adds only HTTP actions to those of the connection block, and it keeps that block's counter and port |
| BridgeProperties.StepConnection | arduino-reader/serial_reader.py:241-347 | the counter is untouched while the port is open; otherwise it is zeroed by a successful open or by a re-detection that finds nothing, whose empty result replaces the port, and grows by one on each failed open; re-detection happens only once the counter has reached the limit; an iteration that does not connect admits nothing |
| BridgeProperties.RunWithoutPort | arduino-reader/serial_reader.py:243-266 | after a re-detection that finds no port, no iteration reads the old port: while the counter climbs back to the limit, each iteration is one failed open and changes nothing else |
| BridgeProperties.ForwardNoConnectionActions | arduino-reader/serial_reader.py:298-335 | sending and caching make only HTTP actions |
| BridgeProperties.HandleNoConnectionActions | arduino-reader/serial_reader.py:268-339 | line handling makes only HTTP actions |
| BridgeProperties.PostsArePosts | arduino-reader/serial_reader.py:309-314 | the drain's actions are all POSTs |
| BridgeProperties.ForwardKeepsUrlAndCache | arduino-reader/serial_reader.py:298-335 | sending keeps the URL one of the candidates and the cache made of admitted readings |
| BridgeProperties.ForwardKeepsConnection | arduino-reader/serial_reader.py:298-335 | sending leaves the connection, the counter and the port alone |
| BridgeProperties.ForwardPreservesValid | arduino-reader/serial_reader.py:298-335 | sending an admitted reading keeps the loop invariant |
| BridgeProperties.HandlePreservesValid | arduino-reader/serial_reader.py:268-347 | line handling keeps the loop invariant |
| BridgeProperties.StepPreservesValid | arduino-reader/serial_reader.py:241-347 | every iteration keeps the loop invariant: an open port has a name and a zeroed counter, the URL is a candidate, and every cached entry is a trimmed line with both markers |
| BridgeProperties.RunPreservesValid | arduino-reader/serial_reader.py:241-347 | the loop invariant holds after any number of iterations |
| BridgeProperties.RunCacheGrowth | arduino-reader/serial_reader.py:241-347 | the cache grows by at most one entry per iteration |
| BridgeProperties.StartupSpec | arduino-reader/serial_reader.py:218-239 | `main` keeps the configured port when it exists and detects one otherwise; it exits exactly when no usable port results; the loop starts disconnected with a zeroed counter, an empty cache and the URL from the first check, which satisfies the invariant |
| SerialReader.Reader.constructor | arduino-reader/serial_reader.py:229-239 | the loop variables start disconnected, with a zeroed counter and an empty cache |
| SerialReader.Reader.Connect | arduino-reader/serial_reader.py:243-266 | the connection block, written as statements with `serial_port` reassigned by the re-detection, performs `Reconnect` |
| SerialReader.Reader.Drain | arduino-reader/serial_reader.py:306-317 | after the drain the cache is the old cache without its sent prefix, and the POSTs made are of the readings tried, oldest first; no other loop variable changes |
| SerialReader.Reader.Deliver | arduino-reader/serial_reader.py:298-335 | sending, draining and caching, written as statements, perform `Forward` |
| SerialReader.Reader.Iterate | arduino-reader/serial_reader.py:241-347 | one iteration of `while running` produces exactly the new state, actions and reading of `Step` |
| SerialReader.Reader.Serve | arduino-reader/serial_reader.py:241-347 | iterating over events produces the state of `Run` and keeps the loop invariant |
| SerialReader.Start | arduino-reader/serial_reader.py:218-239 | the start of `main` gives no loop exactly when `Startup` does; otherwise it gives a fresh reader in the `Startup` state |

## Left out

- Real I/O is not performed. Serial opens and reads, the filesystem test, the
  ACM glob, GET and POST requests are all answered by the `PortScan` and
  `Event` values.
- `time.sleep`, logging, and the per-attempt log text are left out.
- Reading `ARDUINO_SERIAL_PORT`, `ARDUINO_BAUD_RATE`, `API_URL`,
  `READ_INTERVAL` and `RETRY_INTERVAL` from the environment is left out. The
  API URL and the configured port are parameters; baud rate and timings do not
  affect the decisions.
- Signal handling, the `running` flag and `KeyboardInterrupt` are left out.
  The loop runs for a given sequence of events.
- Exceptions are modelled only as the outcomes the code tells apart:
  - a failed open;
  - a serial error on the read, which closes the port;
  - a failed HTTP request, which counts as a failed probe or send.

  An unexpected exception elsewhere in the loop body, including from
  `flushInput()` or `ser.close()`, is not modelled.
- UTF-8 decoding is not modelled byte by byte: a read is empty, undecodable,
  or decodes to a given text.
- The JSON dump of unsent readings at shutdown and the final port close are
  left out.
- The Windows `COM*` branch of port discovery is left out. The model follows
  the Linux branch.
- The order the ACM glob returns its paths in is taken as given.
- GET replies are a function of the URL. Within one check, two GETs of the
  same base URL therefore get the same answer.
- The Raspberry Pi client `rpi_client.py` and the server-side API are not
  part of this model.
- Bridge.Open: opening a port with no name (a re-detection found none, or an
  empty one) counts as one failed open. With pyserial, `serial.Serial(None)`
  does not raise; it builds a closed port, `flushInput()` then raises, and the
  closed port is left in `ser` for the next iteration, whose `readline()`
  raises a serial error. The model folds those two loop passes into one failed
  open. So `BridgeProperties.RunWithoutPort` counts failed opens, not loop
  passes. pyserial's own behaviour is not part of this model.
- The POST body (`{"data": ...}`) and the headers are not modelled. Only the
  reading and the URL of each POST are recorded.
