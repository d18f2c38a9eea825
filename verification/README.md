# pro-sdk client wrappers and demo transformations, in Dafny

This project models the client side of the Proception pro-sdk:

- **ProHand wrappers.** The C++ class `prohand_sdk::ProHandClient` and the
  Python class `prohand_sdk.ProHandClient` wrap the ProHand C library.
  - Each owns one library handle.
  - Before every call they check the handle (C++ only) and the array sizes.
  - They translate the library's result codes into exceptions.
  - They convert the status struct into a value.
  - They run the streaming-readiness handshake: a ping, a settle delay, then polling the running state and re-requesting streaming mode at most once per retry interval until a timeout.
- **ProGlove wrappers.** The C++ class `proglove_sdk::ProGloveClient` and the
  Python class `proglove_sdk.ProGloveClient` do the same for the glove. Their
  status struct carries 100 taxel bytes. The wrappers split these into 18
  named segments.
- **Demo transformations:**
  - the UDCAP glove-to-hand mapper (`GloveDataMapper` in `udcap_ctrl.py`);
  - the YAML pose loading and flattening of the Kapandji demos, in both Python and C++;
  - the C++ `formatArray` helper.

## How the model is built

- **The C library as an oracle.** The C library itself is outside the model.
  - Every wrapper method takes the code the library would answer as a parameter.
  - It returns `sent`: `None` when the wrapper refused before calling, otherwise the library call it made.
  - It also returns its `Result`. An `Err` is the exception the source raises.
- **Classes.** The wrapper classes hold the handle as a field. Their life-cycle
  methods (constructor, move, close/destructor) change it in place.
- **Readiness handshake.** `Readiness.Run` gives the handshake as a reference
  definition: a trace of events over a virtual millisecond clock. Both wrappers'
  `WaitForStreamingReady` loops are proved to produce exactly that trace.
  Lemmas about `Run` state the promises of the handshake:
  - a failed ping ends it;
  - it is ready iff the last poll saw the running state;
  - its time bounds;
  - how streaming-mode requests are spaced.
- **Parsed documents.** JSON and YAML text is turned into a `Documents.Value`
  tree by oracles: `loads`, YAML loading, and `float()`/`as<double>()` on
  strings. The demos' own logic runs over that tree.
- **UDP mapper.** Three methods carry the loops and recursion:
  - `ParseUdpMessage`, the brace scan;
  - `ExtractParameters`, the recursive visit;
  - `MapToHandCommand`, the joint mapping.

  Each is proved equal to a function. Lemmas about those functions give the meaning:
  - the cut is the shortest balanced object starting at the first `{"`;
  - the later parameter wins;
  - the side filter;
  - every angle lies within the robot range and maps the input range's ends onto the output range's ends.
- **Kapandji demos.** The Python and C++ versions are modelled separately, and
  lemmas compare them:
  - `JointListsAgree`: on all-numeric lists the two agree;
  - `DemosDiverge`: they differ on inputs where a Python error is a C++ success.
- **`formatArray`.** It is proved against `Render`. `ParseRender` shows
  that the rendering is a faithful, invertible text form.

Where the two wrappers of the same library differ, each is modelled as
written:

- The C++ `checkResult` of ProHand has no case for `ERROR_UNSUPPORTED` (−5)
  and reports it as an unknown error. Python names it.
  `ProHandPy.WrappersAgree` proves that this is the only difference.
- The C++ `poseFromYaml` checks `wrist.size() < 2` after `parseJointList`
  has already sized the list to 2, so that branch never runs. The model
  keeps it and proves the result is the same.

## Model

| member | source | states |
|---|---|---|
| ProHandCpp.Describe | sdk/prohand_sdk/cpp/include/prohand_sdk/ProHandClient.hpp:597-624 | the reason reports the failing code back; it is Unknown exactly for codes other than the four named errors (−1..−4) |
| ProHandCpp.CheckResult | sdk/prohand_sdk/cpp/include/prohand_sdk/ProHandClient.hpp:597-624 | success iff the code is 0; a failure names the operation and carries a reason whose code is the failing code |
| ProHandCpp.CheckResultDistinguishes | sdk/prohand_sdk/cpp/include/prohand_sdk/ProHandClient.hpp:597-624 | distinct failing codes give distinct exceptions; ERROR_UNSUPPORTED falls to the unknown-error message |
| ProHandCpp.Guarded | sdk/prohand_sdk/cpp/include/prohand_sdk/ProHandClient.hpp:589-595 | a call reaches the library only with a handle and correct sizes; no handle → null-handle error, bad sizes → the size message, otherwise checkResult of the answer |
| ProHandCpp.ProHandClient.Create | sdk/prohand_sdk/cpp/include/prohand_sdk/ProHandClient.hpp:67-83 | construction fails iff the library returns a null handle; otherwise the new client owns that live handle |
| ProHandCpp.ProHandClient.Move | sdk/prohand_sdk/cpp/include/prohand_sdk/ProHandClient.hpp:111-115 | the new client takes the handle and the source is left null |
| ProHandCpp.ProHandClient.MoveAssign | sdk/prohand_sdk/cpp/include/prohand_sdk/ProHandClient.hpp:117-131 | self-assignment changes nothing; otherwise the old handle is destroyed, the other's handle taken and the other left null |
| ProHandCpp.ProHandClient.Destroy | sdk/prohand_sdk/cpp/include/prohand_sdk/ProHandClient.hpp:136-143 | an owned handle is destroyed and the client holds none |
| ProHandCpp.ProHandClient.IsConnected | sdk/prohand_sdk/cpp/include/prohand_sdk/ProHandClient.hpp:148-153 | asks the library only with a handle; connected iff there is a handle and the answer is non-zero |
| ProHandCpp.ProHandClient.SendPing | sdk/prohand_sdk/cpp/include/prohand_sdk/ProHandClient.hpp:158-163 | a handle-guarded ping whose result is checkResult of the answer |
| ProHandCpp.ProHandClient.SetStreamingMode | sdk/prohand_sdk/cpp/include/prohand_sdk/ProHandClient.hpp:168-173 | a handle-guarded request passing the flag as 1/0 |
| ProHandCpp.ProHandClient.IsRunningState | sdk/prohand_sdk/cpp/include/prohand_sdk/ProHandClient.hpp:183-187 | without a handle a null-handle error; otherwise true exactly for the answer 1 (error codes read as false) |
| ProHandCpp.ProHandClient.SetWristLimits | sdk/prohand_sdk/cpp/include/prohand_sdk/ProHandClient.hpp:93-104 | sent only with three 2-element arrays; what is sent fits the C signature |
| ProHandCpp.ProHandClient.SendRotaryCommands | sdk/prohand_sdk/cpp/include/prohand_sdk/ProHandClient.hpp:282-297 | sent only with 16 positions and 16 torques; the request fits the C signature |
| ProHandCpp.ProHandClient.SendLinearCommands | sdk/prohand_sdk/cpp/include/prohand_sdk/ProHandClient.hpp:305-320 | sent only with 2 positions and 2 speeds; the request fits the C signature |
| ProHandCpp.ProHandClient.SendRotaryStreams | sdk/prohand_sdk/cpp/include/prohand_sdk/ProHandClient.hpp:332-347 | as SendRotaryCommands, on the streaming channel |
| ProHandCpp.ProHandClient.SendLinearStreams | sdk/prohand_sdk/cpp/include/prohand_sdk/ProHandClient.hpp:359-374 | as SendLinearCommands, on the streaming channel |
| ProHandCpp.ProHandClient.SendWristCommands | sdk/prohand_sdk/cpp/include/prohand_sdk/ProHandClient.hpp:386-399 | sent only with 2 wrist positions, with the profiler flag as given |
| ProHandCpp.ProHandClient.SendWristStreams | sdk/prohand_sdk/cpp/include/prohand_sdk/ProHandClient.hpp:411-424 | as SendWristCommands, on the streaming channel |
| ProHandCpp.ProHandClient.SendHandCommands | sdk/prohand_sdk/cpp/include/prohand_sdk/ProHandClient.hpp:440-454 | sent only with 20 joint positions, with one torque for all |
| ProHandCpp.ProHandClient.SendHandStreams | sdk/prohand_sdk/cpp/include/prohand_sdk/ProHandClient.hpp:470-484 | as SendHandCommands, on the streaming channel |
| ProHandCpp.ProHandClient.SendZeroCalibration | sdk/prohand_sdk/cpp/include/prohand_sdk/ProHandClient.hpp:491-508 | sent only with a 16-entry mask; the int array handed over decodes back to exactly the mask |
| ProHandCpp.ProHandClient.TryRecvStatus | sdk/prohand_sdk/cpp/include/prohand_sdk/ProHandClient.hpp:515-544 | positive answer → the converted status, 0 → no status, negative → the checkResult exception, no handle → null-handle error |
| ProHandCpp.ProHandClient.WaitForStreamingReady | sdk/prohand_sdk/cpp/include/prohand_sdk/ProHandClient.hpp:206-274 | without a handle fails at once; otherwise its answer, event trace and elapsed time are those of the reference handshake Readiness.Run |
| ProHandPy.CheckResult | sdk/prohand_sdk/python/prohand_sdk/prohand_sdk.py:320-335 | success iff 0; ConnectionError exactly for the connection and not-connected codes, InvalidArgumentError exactly for the invalid-argument code; Unknown exactly for codes outside the five named ones |
| ProHandPy.WrappersAgree | sdk/prohand_sdk/python/prohand_sdk/prohand_sdk.py:320-335 | the Python and C++ checks fail on the same codes with corresponding reasons; they differ only in naming ERROR_UNSUPPORTED |
| ProHandPy.Guarded | sdk/prohand_sdk/python/prohand_sdk/prohand_sdk.py:496-516 | a call reaches the library iff the sizes are right; otherwise InvalidArgumentError with the size message |
| ProHandPy.ProHandClient.Create | sdk/prohand_sdk/python/prohand_sdk/prohand_sdk.py:349-380 | a null handle raises ConnectionError; otherwise an open client owning the handle |
| ProHandPy.ProHandClient.Close | sdk/prohand_sdk/python/prohand_sdk/prohand_sdk.py:394-399 | destroys the handle once and marks the client closed; closing again changes nothing |
| ProHandPy.ProHandClient.IsConnected | sdk/prohand_sdk/python/prohand_sdk/prohand_sdk.py:401-405 | false without asking once closed; otherwise whether the answer is non-zero |
| ProHandPy.ProHandClient.SendPing | sdk/prohand_sdk/python/prohand_sdk/prohand_sdk.py:411-414 | always calls the library; result is _check_result of the answer |
| ProHandPy.ProHandClient.SetStreamingMode | sdk/prohand_sdk/python/prohand_sdk/prohand_sdk.py:416-419 | passes the flag as 1/0; result is _check_result of the answer |
| ProHandPy.ProHandClient.IsRunningState | sdk/prohand_sdk/python/prohand_sdk/prohand_sdk.py:421-432 | true exactly for the answer 1 |
| ProHandPy.ProHandClient.SendRotaryCommands | sdk/prohand_sdk/python/prohand_sdk/prohand_sdk.py:496-516 | sent only with 16 positions and 16 torques; the request fits the C signature |
| ProHandPy.ProHandClient.SendRotaryStreams | sdk/prohand_sdk/python/prohand_sdk/prohand_sdk.py:518-539 | as SendRotaryCommands, on the streaming channel |
| ProHandPy.ProHandClient.SendLinearCommands | sdk/prohand_sdk/python/prohand_sdk/prohand_sdk.py:541-559 | sent only with 2 positions and 2 speeds |
| ProHandPy.ProHandClient.SendLinearStreams | sdk/prohand_sdk/python/prohand_sdk/prohand_sdk.py:561-582 | as SendLinearCommands, on the streaming channel |
| ProHandPy.ProHandClient.SendWristCommand | sdk/prohand_sdk/python/prohand_sdk/prohand_sdk.py:584-602 | sent only with 2 wrist positions, with the profiler flag as given |
| ProHandPy.ProHandClient.SendWristStreams | sdk/prohand_sdk/python/prohand_sdk/prohand_sdk.py:604-622 | as SendWristCommand, on the streaming channel |
| ProHandPy.ProHandClient.SetWristLimits | sdk/prohand_sdk/python/prohand_sdk/prohand_sdk.py:624-634 | sent only with three 2-element limit arrays |
| ProHandPy.ProHandClient.SendHandCommand | sdk/prohand_sdk/python/prohand_sdk/prohand_sdk.py:636-666 | sent only with 20 joint positions and the given torque |
| ProHandPy.ProHandClient.SendHandStreams | sdk/prohand_sdk/python/prohand_sdk/prohand_sdk.py:668-702 | as SendHandCommand, on the streaming channel |
| ProHandPy.ProHandClient.SendZeroCalibration | sdk/prohand_sdk/python/prohand_sdk/prohand_sdk.py:704-716 | sent only with a 16-entry mask; the 0/1 array decodes back to the mask |
| ProHandPy.ProHandClient.TryRecvStatus | sdk/prohand_sdk/python/prohand_sdk/prohand_sdk.py:722-744 | positive answer → the converted status, 0 → None, negative → the _check_result exception |
| ProHandPy.ProHandClient.WaitForStreamingReady | sdk/prohand_sdk/python/prohand_sdk/prohand_sdk.py:434-494 | answer, event trace and elapsed time are those of the reference handshake Readiness.Run |
| ProHandLib.MaskRoundTrip | sdk/prohand_sdk/python/prohand_sdk/prohand_sdk.py:704-716 | turning the boolean mask into 0/1 integers loses nothing |
| ProHandLib.ToHandStatus | sdk/prohand_sdk/cpp/include/prohand_sdk/ProHandClient.hpp:522-533 | validity is the struct's flag being non-zero; status type, 16 rotary and 2 linear positions copied unchanged |
| Readiness.PingGate | sdk/prohand_sdk/cpp/include/prohand_sdk/ProHandClient.hpp:210-225 | a failed ping ends the handshake not ready with nothing else done; a good one is followed by the 200 ms settle sleep |
| Readiness.LoopEndsOnAnswer | sdk/prohand_sdk/cpp/include/prohand_sdk/ProHandClient.hpp:228-273 | the polling loop ends with a query whose answer is its result, and no earlier query saw the running state |
| Readiness.ReadyIffLastPollRunning | sdk/prohand_sdk/cpp/include/prohand_sdk/ProHandClient.hpp:206-274 | the handshake is ready iff its last query saw the running state, and it stops at the first such query |
| Readiness.LoopTime | sdk/prohand_sdk/cpp/include/prohand_sdk/ProHandClient.hpp:228-273 | the loop's time is the sum of its sleeps, never passes the timeout, and equals it when the loop gives up |
| Readiness.Timing | sdk/prohand_sdk/python/prohand_sdk/prohand_sdk.py:434-494 | the handshake never runs longer than the later of the timeout and the settle delay, and exactly that long when it gives up after a good ping |
| Readiness.LoopSleeps | sdk/prohand_sdk/cpp/include/prohand_sdk/ProHandClient.hpp:259-265 | every sleep of the loop is positive, at most 50 ms, and ends by the timeout |
| Readiness.RetryDiscipline | sdk/prohand_sdk/cpp/include/prohand_sdk/ProHandClient.hpp:244-257 | streaming mode is re-requested only once the retry interval has passed since the last successful request, and always then; failures do not reset the interval |
| Readiness.DefaultWait | sdk/prohand_sdk/python/prohand_sdk/prohand_sdk.py:434-494 | with the default timeout 1.0 s and retry interval 0.3 s, the handshake ends within one second, exactly then when it gives up after a good ping, and re-requests streaming at most every 300 ms |
| ProGloveCpp.Describe | sdk/proglove_sdk/cpp/include/proglove_sdk/ProGloveClient.hpp:280-310 | the reason reports the failing code back; Unknown exactly for codes outside the named errors |
| ProGloveCpp.CheckResult | sdk/proglove_sdk/cpp/include/proglove_sdk/ProGloveClient.hpp:280-310 | success iff 0; a failure names the operation and carries the failing code |
| ProGloveCpp.ProGloveClient.Create | sdk/proglove_sdk/cpp/include/proglove_sdk/ProGloveClient.hpp:93-101 | a null handle throws with the endpoint; otherwise the client owns the live handle |
| ProGloveCpp.ProGloveClient.Move | sdk/proglove_sdk/cpp/include/proglove_sdk/ProGloveClient.hpp:108-112 | the new client takes the handle and the source is left null |
| ProGloveCpp.ProGloveClient.MoveAssign | sdk/proglove_sdk/cpp/include/proglove_sdk/ProGloveClient.hpp:114-127 | self-assignment changes nothing; otherwise the old handle is destroyed and the other's taken |
| ProGloveCpp.ProGloveClient.Destroy | sdk/proglove_sdk/cpp/include/proglove_sdk/ProGloveClient.hpp:132-139 | an owned handle is destroyed and the client holds none |
| ProGloveCpp.ProGloveClient.IsConnected | sdk/proglove_sdk/cpp/include/proglove_sdk/ProGloveClient.hpp:144-149 | connected iff there is a handle and the answer is non-zero |
| ProGloveCpp.ProGloveClient.SendPing | sdk/proglove_sdk/cpp/include/proglove_sdk/ProGloveClient.hpp:157-165 | no handle → null-handle error; otherwise success iff the answer is non-negative, negative answers through checkResult |
| ProGloveCpp.ProGloveClient.TryRecvStatus | sdk/proglove_sdk/cpp/include/proglove_sdk/ProGloveClient.hpp:172-227 | positive answer → a status whose segments, laid end to end, are exactly the 100 taxel bytes received; 0 → none; negative → checkResult |
| ProGloveLib.OffsetStep | sdk/proglove_sdk/cpp/include/proglove_sdk/proglove_sdk.h:59-83 | the segment offsets step by the segment sizes from 0 to the 100-taxel total |
| ProGloveLib.UnpackField | sdk/proglove_sdk/python/proglove_sdk/proglove_sdk.py:410-454 | each named segment of an unpacked status is the matching slice of the taxel block |
| ProGloveLib.FlattenUnpack | sdk/proglove_sdk/python/proglove_sdk/proglove_sdk.py:410-454 | splitting the taxel block into segments loses and reorders nothing |
| ProGloveLib.UnpackFlatten | sdk/proglove_sdk/python/proglove_sdk/proglove_sdk.py:131-153 | every status with correctly sized segments is the unpacking of exactly one taxel block |
| ProGlovePy.CheckResult | sdk/proglove_sdk/python/proglove_sdk/proglove_sdk.py:304-319 | success iff 0; ConnectionError exactly for the connection codes, InvalidArgumentError exactly for the invalid-argument code |
| ProGlovePy.WrappersAgree | sdk/proglove_sdk/python/proglove_sdk/proglove_sdk.py:304-319 | the Python and C++ glove checks fail on the same codes with the same reason |
| ProGlovePy.ProGloveClient.Create | sdk/proglove_sdk/python/proglove_sdk/proglove_sdk.py:342-358 | a null handle raises ConnectionError naming the endpoint; otherwise an open client |
| ProGlovePy.ProGloveClient.Close | sdk/proglove_sdk/python/proglove_sdk/proglove_sdk.py:372-377 | destroys the handle once; closing again changes nothing |
| ProGlovePy.ProGloveClient.IsConnected | sdk/proglove_sdk/python/proglove_sdk/proglove_sdk.py:379-383 | false without asking once closed; otherwise whether the answer is non-zero |
| ProGlovePy.ProGloveClient.SendPing | sdk/proglove_sdk/python/proglove_sdk/proglove_sdk.py:389-404 | closed → ConnectionError without a call; otherwise success iff the answer is non-negative |
| ProGlovePy.ProGloveClient.TryRecvStatus | sdk/proglove_sdk/python/proglove_sdk/proglove_sdk.py:410-454 | positive answer → a status whose segments are exactly the taxel bytes; 0 → None; negative → the _check_result exception |
| Documents.Lookup | sdk/demo/python/src/prohand_demo/udcap_ctrl.py:87 | a key is found iff the dictionary has it, and the value found is stored under it |
| UdcapMapper.NewMapper | sdk/demo/python/src/prohand_demo/udcap_ctrl.py:49-54 | accepted iff the lower-cased hand is "left" or "right"; the side is left exactly for "left" |
| UdcapMapper.NewMapperIgnoresCase | sdk/demo/python/src/prohand_demo/udcap_ctrl.py:49-54 | for every hand argument, it and its lower-case form give the same mapper or the same refusal: letter case never matters |
| UdcapMapper.FindOpen | sdk/demo/python/src/prohand_demo/udcap_ctrl.py:58-61 | −1 iff no `{"` occurs; otherwise the first position where one does |
| UdcapMapper.ParseUdpMessage | sdk/demo/python/src/prohand_demo/udcap_ctrl.py:56-76 | the brace-counting loop returns what the reference ParseSpec says |
| UdcapMapper.ParseUdpShape | sdk/demo/python/src/prohand_demo/udcap_ctrl.py:56-76 | no `{"` → None; otherwise the text handed to the JSON parser is the shortest brace-balanced stretch from the first `{"`, and with no such stretch the result is None |
| UdcapMapper.Keep | sdk/demo/python/src/prohand_demo/udcap_ctrl.py:88-93 | a name is kept iff it does not start with the other side's letter |
| UdcapMapper.AbsorbFails | sdk/demo/python/src/prohand_demo/udcap_ctrl.py:78-102 | extraction raises iff some parameter has a non-text name or a kept value that is not a number |
| UdcapMapper.AbsorbLastWins | sdk/demo/python/src/prohand_demo/udcap_ctrl.py:78-102 | the result holds exactly the kept names that occur, each with its last value as a float |
| UdcapMapper.ExtractParameters | sdk/demo/python/src/prohand_demo/udcap_ctrl.py:78-102 | the recursive visit over dicts and lists collects exactly the reference collection of "Parameter" entries |
| UdcapMapper.JointNames | sdk/demo/python/src/prohand_demo/udcap_ctrl.py:20-33 | four glove joint names per finger |
| UdcapMapper.InputRanges | sdk/demo/python/src/prohand_demo/udcap_ctrl.py:34-40 | four ordered input ranges per finger |
| UdcapMapper.OutputRanges | sdk/demo/python/src/prohand_demo/udcap_ctrl.py:41-47 | four ordered robot ranges per finger |
| UdcapMapper.Clamp | sdk/demo/python/src/prohand_demo/udcap_ctrl.py:118 | the clamped value lies in the range, equals the input inside it and the nearer end outside it |
| UdcapMapper.Unit | sdk/demo/python/src/prohand_demo/udcap_ctrl.py:120 | a degenerate range gives 0; otherwise a clamped value maps into [0, 1] |
| UdcapMapper.JointDegrees | sdk/demo/python/src/prohand_demo/udcap_ctrl.py:116-123 | the mapped angle always lies within the robot range |
| UdcapMapper.JointDegreesEnds | sdk/demo/python/src/prohand_demo/udcap_ctrl.py:116-123 | the input range's ends map onto the robot range's ends, swapped for every joint except the first thumb joint |
| UdcapMapper.JointDegreesSaturate | sdk/demo/python/src/prohand_demo/udcap_ctrl.py:118 | readings beyond the input range give the same angle as its nearer end |
| UdcapMapper.JointAngleRange | sdk/demo/python/src/prohand_demo/udcap_ctrl.py:113-126 | a missing joint gives 0; a present one an angle in radians within the robot range |
| UdcapMapper.CommandShape | sdk/demo/python/src/prohand_demo/udcap_ctrl.py:108-129 | the command has the five fingers and the wrist, the wrist at [0, 0], four angles per finger, each the mapped joint angle |
| UdcapMapper.MapToHandCommand | sdk/demo/python/src/prohand_demo/udcap_ctrl.py:108-129 | the nested loops build exactly the reference command |
| UdcapMapper.MapFinger | sdk/demo/python/src/prohand_demo/udcap_ctrl.py:111-126 | the inner loop gives, per joint, 0 when its reading is missing, otherwise the reading clamped to the glove range and scaled onto the robot range, inverted except for the thumb's first joint, in radians |
| UdcapMapper.ProcessUdpData | sdk/demo/python/src/prohand_demo/udcap_ctrl.py:131-138 | parse, extract and map composed as the reference Processed says |
| UdcapMapper.ProcessedCommand | sdk/demo/python/src/prohand_demo/udcap_ctrl.py:131-138 | a command comes out iff the datagram parses, no parameter fails and some kept name occurs; it then has the full command shape |
| KapandjiPy.Floats | sdk/demo/python/src/prohand_demo/kapandji.py:36 | the conversion succeeds iff every item converts, and keeps them in order |
| KapandjiPy.JointListShape | sdk/demo/python/src/prohand_demo/kapandji.py:32-39 | None → n fills; not iterable → error; otherwise success iff every item converts, and then the first n values padded with the fill |
| KapandjiPy.ParseJointList | sdk/demo/python/src/prohand_demo/kapandji.py:32-39 | the convert-slice-pad code gives exactly JointList |
| KapandjiPy.RadianList | sdk/demo/python/src/prohand_demo/kapandji.py:52-54 | n values, each the radians of the parsed degree value; fails exactly when parsing fails |
| KapandjiPy.PoseFromYaml | sdk/demo/python/src/prohand_demo/kapandji.py:42-62 | a pose has the five fingers and the wrist, four values per finger and two for the wrist; when the config, its `hands` section and the gesture's entry are dicts, the pose is the one read from that entry |
| KapandjiPy.GesturePose | sdk/demo/python/src/prohand_demo/kapandji.py:56-62 | succeeds iff every finger list, and the wrist list when present, converts; then each finger is the radians of the gesture's list of that name, the wrist likewise, or [0, 0] when the entry is absent |
| KapandjiPy.PoseFromYamlRefusals | sdk/demo/python/src/prohand_demo/kapandji.py:44-50 | an empty or missing hands section and an unknown gesture are refused with their own errors |
| KapandjiPy.PoseWristDefault | sdk/demo/python/src/prohand_demo/kapandji.py:61 | a loaded pose whose gesture has no wrist has the wrist [0, 0] |
| KapandjiPy.PoseToHandPositions | sdk/demo/python/src/prohand_demo/kapandji.py:65-74 | the extend loop gives exactly HandPositions |
| KapandjiPy.HandPositionsMissing | sdk/demo/python/src/prohand_demo/kapandji.py:65-74 | the first missing finger raises a missing-key error naming it |
| KapandjiPy.HandPositionsIndexing | sdk/demo/python/src/prohand_demo/kapandji.py:65-74 | with four values per finger, 20 positions, position 4f+j being joint j of finger f |
| KapandjiPy.PoseFlattens | sdk/demo/python/src/prohand_demo/kapandji.py:42-74 | every loaded pose flattens to 20 positions |
| KapandjiPy.TorqueLevelFallback | sdk/demo/python/src/prohand_demo/kapandji.py:125-132 | the torque is the mapped level's float when the level is a text key of the map and converts, and 0.45 otherwise |
| KapandjiCpp.Sub | sdk/demo/cpp/src/kapandji.cpp:45-57 | a subscript is defined only on a map that has the key |
| KapandjiCpp.JointListShape | sdk/demo/cpp/src/kapandji.cpp:29-37 | not a sequence → n fills; otherwise success iff the first min(n, size) items convert, and then their radians padded with the fill |
| KapandjiCpp.ParseJointList | sdk/demo/cpp/src/kapandji.cpp:29-37 | the fill-then-overwrite loop gives exactly JointList, n values long |
| KapandjiCpp.PoseFromYaml | sdk/demo/cpp/src/kapandji.cpp:40-68 | the straight-line code, dead size check included, gives exactly PoseSpec |
| KapandjiCpp.PoseRefusals | sdk/demo/cpp/src/kapandji.cpp:45-54 | an undefined hands section throws the missing-hands error, an undefined gesture the not-found error, otherwise the gesture's pose |
| KapandjiCpp.GesturePoseShape | sdk/demo/cpp/src/kapandji.cpp:56-67 | the pose succeeds iff each list converts; then five 4-value fingers and a 2-value wrist |
| KapandjiCpp.PoseToHandPositions | sdk/demo/cpp/src/kapandji.cpp:71-89 | the nested loops give exactly Positions |
| KapandjiCpp.HandPositionsLayout | sdk/demo/cpp/src/kapandji.cpp:71-89 | with 4-value fingers, 20 positions, position k being joint k mod 4 of finger k/4, zero for a missing finger |
| KapandjiCpp.WristPositions | sdk/demo/cpp/src/kapandji.cpp:101-107 | two wrist values: the pose's first two when present, zero otherwise |
| KapandjiCpp.JointListsAgree | sdk/demo/cpp/src/kapandji.cpp:29-37 | on numeric lists the Python and C++ joint-list parsers give the same radians |
| KapandjiCpp.DemosDiverge | sdk/demo/cpp/src/kapandji.cpp:29-54 | Python rejects a bad item beyond n and an empty hands section; C++ ignores the first and reports only a missing gesture for the second |
| ArrayFormat.Dec | sdk/demo/cpp/include/proglove_demo/Utils.hpp:54 | decimal text of a number: digits only, one digit iff below 10, no leading zero |
| ArrayFormat.DecRoundTrip | sdk/demo/cpp/include/proglove_demo/Utils.hpp:54 | reading the decimal text back gives the number |
| ArrayFormat.DecWidth | sdk/demo/cpp/include/proglove_demo/Utils.hpp:54 | a byte prints in one to three digits |
| ArrayFormat.FormatArray | sdk/demo/cpp/include/proglove_demo/Utils.hpp:48-58 | the loop over the first size bytes gives exactly Render of them |
| ArrayFormat.RenderBrackets | sdk/demo/cpp/include/proglove_demo/Utils.hpp:48-58 | the text is bracketed, and "[]" for no bytes |
| ArrayFormat.RenderSeparators | sdk/demo/cpp/include/proglove_demo/Utils.hpp:53 | one comma between each two bytes and none otherwise |
| ArrayFormat.ParseRender | sdk/demo/cpp/include/proglove_demo/Utils.hpp:48-58 | the rendered text parses back to exactly the bytes |

## Left out

- Loading the C libraries, USB device discovery and freeing library strings are not part of this model. The library's behaviour enters only as the result codes and structs passed in.
- Real time and threads: the handshake runs on a virtual millisecond clock that only sleeps advance. Library calls take no time, and nothing runs concurrently.
- ProHandCpp.ProHandClient.WaitForStreamingReady: the timeout and retry interval are whole milliseconds rather than seconds as doubles.
- ProHandPy.ProHandClient.WaitForStreamingReady: the timeout and retry interval are whole milliseconds rather than seconds as floats.
- Default arguments are not default parameters here; every caller passes them explicitly. They are `timeout=1.0` and `retry_interval=0.3` of the streaming-ready wait (Readiness.DefaultTimeoutMs and Readiness.DefaultRetryMs, used by Readiness.DefaultWait), `torque=0.45` of `send_hand_command`/`send_hand_streams`, `use_profiler=False` of the wrist commands, `fill=0.0` of the demos' joint-list parsers (`_parse_joint_list`, `parseJointList`), and `hand="left"` of the glove mapper's constructor.
- Floating point: angles are exact reals and π is the decimal constant 3.141592653589793. float/double rounding, the cast to `float` and `math.radians` rounding are not modelled.
- The JSON parser, the YAML loaders, UTF-8 decoding and the text-to-number conversions (`float()` on strings, `as<double>()`) are oracle parameters, not modelled code.
- UdcapMapper.NewMapper: `str.lower` is modelled on ASCII letters only.
- The `verbose` flag of the mapper only prints, and is left out.
- UdcapMapper.MapToHandCommand: the `.get` defaults and the `i < len(...)` fallbacks are not modelled, because the tables always hold all five fingers and four ranges.
- Dictionaries are sequences of fields with distinct keys; a lookup takes the first match.
- KapandjiCpp.Sub: yaml-cpp throws when a scalar node is subscripted; the model treats that subscript as undefined.
- KapandjiCpp.AsDouble: `as<double>()` of a boolean node is a failed conversion.
- The demos' command-line mains, the UDP socket loop of the UDCAP demo, the streaming loop of `streamPose`, and the C++ Kapandji torque lookup inside `main` are I/O and orchestration, not part of this model.
- Printing helpers of the demo utilities other than `formatArray` are not part of this model.
