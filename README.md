# Online exam proctoring: violation monitors, in Dafny

A browser-based proctoring system watches a candidate through the webcam. On every
analysed frame, a face detector reports the faces it sees, with their landmarks and
identity descriptors. An object detector reports phone-like objects. Five monitors turn
these reports, together with the clock, into status tags and rate-limited violations:

- **Presence** (`PersonDetection`) records when a face was last seen. A one-second
  timer raises NO_PERSON on every firing once nobody has been seen for more than 3 s.
- **Identity** (`IdentityVerification`) compares the single face of a frame with a
  reference captured once.
  - It counts consecutive mismatches. A similarity below 0.6 is a mismatch.
  - It raises WRONG_PERSON on every mismatch once the count is at least 5.
- **Face count** (`MultipleFaceDetection`) counts consecutive frames with two or more
  faces. It raises MULTIPLE_FACES when the streak reaches 3 frames, at most once per
  5 s.
- **Attention** (`AttentionTracking`) uses a landmark heuristic to judge whether the
  head is turned away, and in which direction.
  - It raises LOOKING_AWAY on every frame once a look-away has lasted more than 5 s.
  - It reports ATTENTION_RESTORED when the candidate looks back.
- **Device** (`MobileDetection`) filters the object detector's output for phone-like
  classes.
  - A hit raises a counter by one; a miss lowers it by one, never below zero.
  - It raises MOBILE_DETECTED when the counter is at least 5, at most once per 3 s.

The controller (`ProctoringSystem`) starts and stops the monitors. When each detection
completes before the next command, it runs a detection at most every 100 ms. It fans each frame out to all five monitors and colours the on-screen
status overlay. The logger (`Logger`) keeps the newest 1000 entries in memory. It queues
every entry for upload, sends the queue as a batch once it holds 10 entries while online,
and computes statistics.

## Layout

- `common.dfy`: `Option` and `Event`. An `Event` is a start, a stop or a frame tick. The histories of the identity, face-count, attention and device monitors are sequences of `Event`. The presence monitor's history is a sequence of `Happening`, which adds `Poll`, a firing of its one-second timer.
- `perception.dfy`: the face detector's output for one frame, taken as input.
- `notices.dfy`: the events, violations and errors the core hands to the logger.
- `person.dfy`, `identity.dfy`, `faces.dfy`, `attention.dfy`, `mobile.dfy`: one module per monitor.
- `controller.dfy`: the controller.
- `logger.dfy`: the logger.

Every monitor is modelled twice:

- a pure `State` datatype with a step function (`Detect`, `Verify`, `Track`, …) that
  states the monitor's behaviour;
- a class with the source's own fields, whose imperative methods are proved to move
  its `Snapshot()` exactly as the step function says.

Properties that span many frames are lemmas about `Run`, which folds the step function
over a history. The time `Date.now()` is an explicit `now` argument.

Three behaviours of the code are worth knowing because they are easy to assume otherwise:

- **Device counter.** Alternating hit/miss from a count of 0 only oscillates between 0
  and 1 and never reaches the threshold of 5 (`MobileMonitor.AlternationNeverReachesThreshold`).
- **Identity violation.** WRONG_PERSON is raised again on every mismatch once the count
  is at least 5; there is no one-shot flag.
- **Stopping.** `stopMonitoring` clears only the monitors' active flags and resets no
  counter, timestamp or reference (`Controller.StopSession`).

## Model

| member | source | states |
|---|---|---|
| Perception.FaceCount | multipleFaceDetection.js:28 | A missing detection list counts as zero faces; the count is zero exactly when the list is missing or empty |
| PersonMonitor.Detect | personDetection.js:30-44 | Inactive: no report and no change. With at least one face: person_present with the face count, and lastDetectionTime becomes now. Otherwise: no_person and nothing changes |
| PersonMonitor.Timeout | personDetection.js:46-61 | NO_PERSON is raised iff the monitor is active and strictly more than 3000 ms have passed since the last sighting; it carries the whole seconds elapsed |
| PersonMonitor.EveryLatePollRaises | personDetection.js:46-61 | No cooldown: while no face is seen, the state never moves, and every timer firing past last sighting + 3000 raises NO_PERSON again |
| PersonMonitor.LastSightingNeverEarlier | personDetection.js:37 | With a clock that does not run backwards, the recorded sighting time never drops below a bound it has reached |
| PersonMonitor.QuietAfterStart | personDetection.js:15-21 | After start at t, no timer firing up to t + 3000 raises anything, whatever happens in between |
| PersonMonitor.QuietAfterSighting | personDetection.js:36-39 | After a frame with a face at t, no timer firing up to t + 3000 raises anything |
| PersonMonitor.InactiveTimeIrrelevant | personDetection.js:23-28 | While stopped, the stored sighting time has no effect: a later start overwrites it, and until then nothing is active |
| PersonMonitor.PersonDetection.constructor | personDetection.js:3-8 | Inactive, with sighting time 0 |
| PersonMonitor.PersonDetection.Start | personDetection.js:15-21 | Active, with the sighting time set to now |
| PersonMonitor.PersonDetection.Stop | personDetection.js:23-28 | Only the active flag is cleared |
| PersonMonitor.PersonDetection.DetectPerson | personDetection.js:30-44 | Fields and result move exactly as `Detect` says |
| PersonMonitor.PersonDetection.CheckNoPersonTimeout | personDetection.js:46-61 | Changes no field; raises NO_PERSON iff active and more than 3000 ms have passed since the last sighting |
| IdentityMonitor.CaptureReference | identityVerification.js:24-50 | Succeeds iff exactly one face was captured; then it stores that face's descriptor and logs REFERENCE_SET. Otherwise, including a thrown error, the state is unchanged |
| IdentityMonitor.Verify | identityVerification.js:52-89 | no_reference iff inactive or no reference; no_face and multiple_faces for 0 and more than 1 face, with the counter untouched. For one face, similarity is 1 − distance: correct_person iff ≥ 0.6, which resets the counter, and wrong_person otherwise, which adds 1. WRONG_PERSON iff a mismatch brings the counter to at least 5 |
| IdentityMonitor.CountIsMismatchStreak | identityVerification.js:58-77 | Over frames while active, the counter equals the trailing run of mismatches, skipping no-face and multi-face frames; the old count survives only if no match occurred |
| IdentityMonitor.ViolationIffStreakAtLeastFive | identityVerification.js:76-88 | After a start, a frame raises WRONG_PERSON iff it is a mismatch and the mismatch streak including it is at least 5. The violation repeats on every later mismatch |
| IdentityMonitor.IdentityVerification.constructor | identityVerification.js:3-9 | Inactive, with no reference and count 0 |
| IdentityMonitor.IdentityVerification.Start | identityVerification.js:15-18 | Active and count 0; the reference is kept |
| IdentityMonitor.IdentityVerification.Stop | identityVerification.js:20-22 | Only the active flag is cleared |
| IdentityMonitor.IdentityVerification.SetReference | identityVerification.js:24-50 | Fields, result and logged event are as `CaptureReference` says |
| IdentityMonitor.IdentityVerification.VerifyIdentity | identityVerification.js:52-89 | Fields, result and violation are as `Verify` says |
| FaceCountMonitor.Detect | multipleFaceDetection.js:24-56 | Inactive: no change. With 0 or 1 face: no_faces or single_face, and the counter resets. With 2 or more faces: multiple_faces with the count, and the counter adds 1. MULTIPLE_FACES iff the new counter is ≥ 3 and now − lastViolationTime > 5000; lastViolationTime becomes now exactly then |
| FaceCountMonitor.ViolationsSpaced | multipleFaceDetection.js:43-52 | Over any history of starts, stops and frames, two successive violations are more than 5000 ms apart, and the first is more than 5000 ms after the stored time |
| FaceCountMonitor.CountIsStreak | multipleFaceDetection.js:30-39 | While active, the counter is the number of trailing multi-face frames, plus the old count if all frames were multi-face |
| FaceCountMonitor.ViolationNeedsThreeCrowdedFrames | multipleFaceDetection.js:39-52 | After a start, no violation fires before the 3rd consecutive multi-face frame |
| FaceCountMonitor.MultipleFaceDetection.constructor | multipleFaceDetection.js:3-9 | Inactive, with count 0 and last violation at 0 |
| FaceCountMonitor.MultipleFaceDetection.Start | multipleFaceDetection.js:15-18 | Active and count 0; the last violation time is kept |
| FaceCountMonitor.MultipleFaceDetection.Stop | multipleFaceDetection.js:20-22 | Only the active flag is cleared |
| FaceCountMonitor.MultipleFaceDetection.DetectMultipleFaces | multipleFaceDetection.js:24-56 | Fields, result and violation are as `Detect` says |
| AttentionMonitor.Centroid | attentionTracking.js:130-146 | `getEyeCenter` and `getMouthCenter`: the mean of a non-empty point list, so n times each coordinate is that coordinate's sum |
| AttentionMonitor.SumWithin | attentionTracking.js:131-132 | For either coordinate, the `reduce` sum over points whose coordinate lies in [lo, hi] lies in [n·lo, n·hi] |
| AttentionMonitor.CentroidWithin | attentionTracking.js:130-146 | The eye and mouth centres, taken as means of a non-empty point list, lie inside the bounding box of the points |
| AttentionMonitor.ExceedsIsCrossMultiplied | attentionTracking.js:103-110 | A JavaScript quotient, including x/0 = Infinity and 0/0 = NaN, exceeds a threshold t iff the numerator exceeds t times the denominator |
| AttentionMonitor.AnalyzeAttention | attentionTracking.js:89-128 | Looking away iff the horizontal or vertical deviation ratio exceeds 0.15. Direction is center iff not looking away. A horizontal excess gives right or left by the nose's side, whatever the vertical ratio. Otherwise up or down by the nose's height |
| AttentionMonitor.LookingAwayGeometry | attentionTracking.js:97-110 | Looking away iff \|nose.x − eyeCenter.x\| > 0.15·\|rightEye.x − leftEye.x\| or \|nose.y − eyeCenter.y\| > 0.15·\|mouth.y − eyeCenter.y\| |
| AttentionMonitor.Started | attentionTracking.js:17-22 | Start establishes the invariant: looking away iff a start time is recorded |
| AttentionMonitor.Track | attentionTracking.js:28-87 | No faces or inactive gives no_face, and no landmarks gives no_landmarks; neither touches the state. An away frame records the start time only when entering away, adds 1 to the count and reports now − start with the direction; LOOKING_AWAY iff that duration is > 5000. An attentive frame clears the away state and emits ATTENTION_RESTORED with the total seconds iff it was away. The invariant is preserved |
| AttentionMonitor.InvAlways | attentionTracking.js:47-82 | Every history of starts, stops and frames keeps the invariant "looking away iff a start time is recorded" |
| AttentionMonitor.EpisodeKeepsStart | attentionTracking.js:46-53 | Through an away episode, the start time stays that of the first away frame, and the count is the number of away frames |
| AttentionMonitor.RestoreEndsEpisode | attentionTracking.js:70-85 | The attentive frame that ends an episode reports ATTENTION_RESTORED with the seconds since the episode began, and clears everything |
| AttentionMonitor.AttentionTracking.constructor | attentionTracking.js:3-11 | Inactive, not looking away, count 0 and no start time; the invariant holds |
| AttentionMonitor.AttentionTracking.Start | attentionTracking.js:17-22 | Active, with the away state cleared |
| AttentionMonitor.AttentionTracking.Stop | attentionTracking.js:24-26 | Only the active flag is cleared |
| AttentionMonitor.AttentionTracking.TrackAttention | attentionTracking.js:28-87 | Given the invariant, fields, result and notice are as `Track` says, and the invariant is kept. A reported look-away duration is measured from the recorded start time, never from a null one |
| MobileMonitor.IsPhoneLikeObject | mobileDetection.js:121-125 | True exactly for the classes 63, 77 and 78 |
| MobileMonitor.KeptIndicesExact | mobileDetection.js:93-111 | The kept indices are strictly increasing. Index i is kept iff its score is > 0.5 and its class is 63, 77 or 78 |
| MobileMonitor.ProcessPredictions | mobileDetection.js:84-119 | The loop returns exactly the kept detections, in index order, with boxes from boxesData[4i..4i+3]. Each has score > 0.5 and a phone-like class |
| MobileMonitor.Detect | mobileDetection.js:34-82 | Inactive: no report and no change. A detector error gives error and no change. A hit adds 1 to the counter and returns the detections. A miss lowers the counter by 1, floored at 0, and returns no_mobile. MOBILE_DETECTED iff a hit brings the counter to ≥ 5 and now − lastViolationTime > 3000; lastViolationTime becomes now exactly then |
| MobileMonitor.ViolationsSpaced | mobileDetection.js:60-69 | Two successive violations are more than 3000 ms apart |
| MobileMonitor.CountBoundedByHits | mobileDetection.js:55-73 | Over frames, the counter grows by at most the number of hits |
| MobileMonitor.ViolationNeedsFiveHits | mobileDetection.js:56-61 | After a start, no violation fires before the 5th hit |
| MobileMonitor.AlternationNeverReachesThreshold | mobileDetection.js:56-73 | From count 0, alternating hit, miss, hit, … leaves the counter at 0 or 1 and raises no violation |
| MobileMonitor.MobileDetection.constructor | mobileDetection.js:3-11 | Inactive, with count 0 and last violation at 0 |
| MobileMonitor.MobileDetection.Start | mobileDetection.js:25-28 | Active and count 0; the last violation time is kept |
| MobileMonitor.MobileDetection.Stop | mobileDetection.js:30-32 | Only the active flag is cleared |
| MobileMonitor.MobileDetection.DetectMobile | mobileDetection.js:34-82 | Runs the prediction filter on model output. Fields, result and violation are as `Detect` says |
| Controller.StatusLights | main.js:297-317 | A missing person, face-count or device result is never shown green |
| Controller.StartSession | main.js:143-169 | A no-op when already monitoring. Otherwise it sets the flag, starts all five monitors and logs MONITORING; validity is established |
| Controller.StopSession | main.js:171-201 | A no-op when not monitoring. Otherwise it clears the flag and each monitor's active flag only, and logs MONITORING and SESSION_END; no counter, timer or reference is reset |
| Controller.Perform | main.js:238-261 | A face-detector error yields no results, leaves every monitor unchanged and logs one DETECTION error. Otherwise every monitor steps on the same frame and the same `now`, independently of the others. The results are the five monitors' own reports, and the notices are the identity, face-count, attention and device notices in that call order |
| Controller.LoopStep | main.js:223-236 | Detection runs iff monitoring and now − lastDetectionTime ≥ 100; lastDetectionTime becomes now exactly then. When valid, the frame's results are consistent: a matching identity implies a single face, which implies a person present, and person, face-count and device results are present |
| Controller.AllGreenFrame | main.js:282-319 | A frame whose overlay is all green saw exactly one face and raised no violation |
| Controller.DetectionsSpaced | main.js:229-232 | Across any starts, stops and loop calls, each completing before the next command, two detections start at least 100 ms apart, and lastDetectionTime is the latest one |
| Controller.ValidAlways | main.js:143-201 | Every reachable state has the session flag equal to every monitor's active flag |
| Controller.ProctoringSystem.constructor | main.js:3-22 | Five fresh monitors, not monitoring, with last detection at 0 |
| Controller.ProctoringSystem.StartMonitoring | main.js:143-169 | The state and logged events are as `StartSession` says |
| Controller.ProctoringSystem.StopMonitoring | main.js:171-201 | The state and logged events are as `StopSession` says |
| Controller.ProctoringSystem.PerformDetection | main.js:238-261 | All five monitors see the same frame. A face-detector error skips them and logs DETECTION |
| Controller.ProctoringSystem.RunDetectionLoop | main.js:223-236 | From a valid state, the state, results and notices are as `LoopStep` says, and the state stays valid |
| Logging.Newest | logger.js:102-104 | The newest min(n, length) entries, in order |
| Logging.NewestOfAppend | logger.js:97-104 | Trimming after every append is the same as trimming the whole history once |
| Logging.Send | logger.js:112-152 | The payload is the given list, or else the whole queue. The queue becomes empty only when the queue was sent, was non-empty and was delivered; otherwise it is unchanged. `logs` is never touched |
| Logging.Add | logger.js:97-110 | `logs` becomes the newest 1000 of old logs plus the entry, and ends with it. A batch of the queue plus the entry is sent iff that reaches 10 while online. The queue is emptied only by a delivered batch; otherwise it grows by the entry |
| Logging.Violate | logger.js:44-62 | A violation is added like any entry, then sent alone iff online. That send never clears the queue, so the entry stays queued unless a delivered batch carried it |
| Logging.RetainsNewest | logger.js:97-104 | After any sequence of additions, `logs` is the newest 1000 of everything added |
| Logging.QueueConserved | logger.js:97-152 | When each send completes before the next entry is added, delivered batches followed by the queue equal the old queue followed by all added entries: nothing is lost, duplicated or reordered |
| Logging.QueueStaysShort | logger.js:106-109 | When each send completes before the next entry is added, and online with every batch delivered, the queue stays under 10 entries |
| Logging.TypesPartition | logger.js:238-245 | violations + warnings + errors + events = total |
| Logging.CategoryCountsExact | logger.js:247-250 | The category map lists exactly the categories present, each with its number of entries |
| Logging.CategoriesSumToTotal | logger.js:247-253 | The category counts sum to the total |
| Logging.Logger.constructor | logger.js:3-10 | Both lists are empty, and online is as given |
| Logging.Logger.SendLogsToServer | logger.js:112-152 | Fields and payload are as `Send` says |
| Logging.Logger.AddLog | logger.js:97-110 | Fields and batch are as `Add` says, so at most 1000 entries are kept |
| Logging.Logger.LogEvent | logger.js:29-42 | Adds an EVENT entry with severity INFO |
| Logging.Logger.LogViolation | logger.js:44-62 | Adds a VIOLATION entry with severity HIGH, then sends it on its own, as `Violate` says |
| Logging.Logger.LogWarning | logger.js:64-77 | Adds a WARNING entry with severity MEDIUM |
| Logging.Logger.LogError | logger.js:79-95 | Adds an ERROR entry with severity HIGH. Its data is the error's text and stack, or both null |
| Logging.Logger.GetLogStats | logger.js:238-254 | Reads only. The loop builds the category map. The type counts partition the total, each present category is counted exactly, and the category counts sum to the total |
| Logging.Logger.ClearLogs | logger.js:257-264 | Both lists are empty; online is unchanged |

## Left out

- Camera, the face-api and TensorFlow models, and `euclideanDistance` are inputs or foreign code: the detector outputs, a `Metric` function and an inference outcome are parameters.
- The device fallback heuristic (`simplePhoneDetection`, `findRectangularObjects`, `calculateEdgeDensity`) reads canvas pixels with floating-point image numerics. Its detections are an input.
- The UI is left out: `updateStatus`, all drawing, `displayLog` with its 50-node trim, `alert`, keyboard shortcuts and `exportLogs`. Only the overlay's green/red choice is kept.
- `setReferencePerson` in the controller only wraps the identity monitor's capture with log messages and alerts. The capture itself is modelled.
- Module initialisation, model loading and camera setup (`initialize`, `loadFaceApiModels`, `setupCamera`) are left out. So are the error paths of `startMonitoring` that only a failing DOM lookup can reach.
- Scheduling is left out: `setInterval`, `requestAnimationFrame`, the `Promise.all` fan-out and async interleaving. Each call is sequential and takes one `now`. The loop's own first call from `startMonitoring` is the environment's first `RunDetectionLoop` call. The presence timer's firings are `Poll` happenings.
- The logger's transport and identity are left out: the server payload, `simulateServerCall` with its random delay and failure, `getSessionId`, `generateLogId`, the online/offline listeners and the 30-second flush timer. The send result is the `SendOutcome` input. Ids and timestamps are inputs.
- Controller.ProctoringSystem: does not hold the logger. It returns the notices it would log, and the `SESSION_END` statistics payload is not built.
- The monitors' `window.logger` calls are returned as `Notice` values; message texts are not modelled.
- Floating point is modelled as exact reals: scores, similarities and landmark coordinates. Division by zero follows JavaScript (Infinity, or NaN for 0/0).
- The attention monitor's unused `lookingAwayThreshold` (30 frames) and the logger's `getSeverityIcon` are left out.
- Controller.DetectionsSpaced: holds only when each `runDetectionLoop` call completes before the next start or stop. In the program `lastDetectionTime` is written only after the awaited `performDetection`. A stop and start during that wait cancel no frame, because the suspended chain has not requested one yet, so `startMonitoring` launches a second loop chain. That chain passes the 100 ms gate against the stale time, so two detections can start less than 100 ms apart. From then on both chains run: a frame can reach the monitors twice, and `lastDetectionTime` can move backwards when the older chain finishes last.
- Logging.CategoryCountsExact, Logging.Logger.GetLogStats: assume no category is the name of an `Object.prototype` property. The program counts categories on a plain object literal. For a category such as `constructor`, `toString` or `hasOwnProperty`, the inherited function is concatenated with `1` into a string, and `__proto__` is never stored. The model counts every category string exactly. Every category the core itself logs is a fixed upper-case name, so none of these cases arises from the core.
- Logging.QueueConserved: holds only when each send completes before the next `addLog`. In the program the queue is cleared only after the awaited server call, so batches can overlap: every `addLog` during the wait sends the whole queue again, duplicating entries, and an earlier batch's success empties the queue, dropping entries added after that batch was taken.
- Logging.QueueStaysShort: holds only when each send completes before the next `addLog`. While a batch is in flight the queue keeps growing past 10.
