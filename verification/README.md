# Face-recognition access gate — Dafny model

This project models the logic of `face_recognition.py`, a Raspberry Pi door gate. When the push button is pressed while the gate is locked, the program reads one camera frame and detects faces in it. It crops a square around each face and classifies the crop. It opens the servo only if the first face's confidence is at least 0.9; otherwise it sounds the buzzer for one second. A press while the gate is unlocked locks it again, and the `q` key ends the loop with the servo locked.

There are three modules:

- `Crop` (`crop.dfy`) covers the crop-window arithmetic of `FaceRecognition.recognize`. It works out the centroid, the side `max(h, w)`, and the bounds `int(centroid ± side * 0.5)`. The bounds are stated on exact reals, as the source writes them. A lemma shows they equal the integer formula that truncates toward zero, which the rest of the model uses. The geometry lemmas cover squareness, containment of the box, centring, and the one-pixel loss at the frame edge.
- `Recognition` (`recognition.dfy`) covers the per-face loop of `recognize`. The detector's output is an input sequence of boxes. The classifier is an arbitrary function from the crop window to a `(labelIndex, confidence)` pair.
- `Gate` (`gate.dfy`) covers the `__main__` loop as a pure step function. An iteration takes the key code, the button level and the camera outcome. It returns the next controller state and the hardware commands issued. Replaying those commands on an abstract servo/buzzer/camera state gives them a hardware meaning, and the state-machine invariant is proved against that meaning.

## Model

| member | source | states |
|---|---|---|
| Crop.Truncate | face_recognition.py:38 | `int()` truncates toward zero: for a non-negative argument the result is its floor, for a negative one its ceiling |
| Crop.TruncHalf | face_recognition.py:38 | the integer form of `int(n / 2)`: within one half-step of n/2, rounding toward zero on each side of 0 |
| Crop.Side | face_recognition.py:36 | the crop side `max(h, w)` is at least both box sides and equals one of them |
| Crop.Centroid | face_recognition.py:33-34 | the centroid `start + extent * 0.5` is exactly half of the integer 2*start + extent, so no rounding occurs |
| Crop.CropLo | face_recognition.py:38 | the lower crop bound `int(centroid - L*0.5)` (equal to the real expression by CropBoundsExact) never exceeds the upper bound, and lies at or before the box start whenever the side is at least the box extent |
| Crop.CropHi | face_recognition.py:38 | the upper crop bound `int(centroid + L*0.5)` lies at or after the box end whenever the side is at least the box extent |
| Crop.CropWindow | face_recognition.py:33-38 | the sliced window spans `max(w, h)` or one fewer rows and columns for every box; AxisSpan says exactly when it is one fewer, SquareWindow and WindowCoversBox give squareness and containment |
| Crop.TruncateHalf | face_recognition.py:38 | truncating the exact real n/2 gives the integer TruncHalf(n), so integer reasoning is exact |
| Crop.CropBoundsExact | face_recognition.py:33-38 | the source's bounds `int(start + extent*0.5 ∓ side*0.5)`, taken on exact reals, equal the integer bounds TruncHalf(2*start + extent ∓ side) used by the model, and the real start is ≥ 0 exactly when 2*start + extent ≥ side |
| Crop.AxisSpan | face_recognition.py:33-38 | along each axis the window spans exactly `side` pixels, except side-1 when the start is negative and odd in half-pixels while the end is non-negative (both directions) |
| Crop.SquareWindow | face_recognition.py:33-38 | when both crop starts are ≥ 0, the window is exactly `max(w, h)` rows by `max(w, h)` columns |
| Crop.WindowCoversBox | face_recognition.py:33-38 | the crop bounds contain the whole detected box on both axes, for every box position |
| Crop.WindowCentred | face_recognition.py:33-38 | when both crop starts are ≥ 0, the window's midpoint lies within half a pixel of the box centroid (rowLo + rowHi is 2*cy or 2*cy - 1, likewise for columns) |
| Recognition.Recognize | face_recognition.py:28-52 | one prediction per detected face, in detector order; the i-th prediction is the classifier's verdict on the i-th face's crop; no faces gives an empty list |
| Recognition.RecognizeConcat | face_recognition.py:32-52 | faces are handled independently: recognising a concatenation of detections is concatenating the results |
| Gate.LowByte | face_recognition.py:74 | `key & 0xFF` is the unique value in [0, 256) congruent to the key modulo 256 (so no key, -1, is 255 and never 'q') |
| Gate.Quits | face_recognition.py:74 | the loop quits exactly when the key code is congruent to `ord('q')` modulo 256; no key (-1) never quits |
| Gate.Accepts | face_recognition.py:84 | acceptance holds exactly when the result list is non-empty and its first entry's confidence is ≥ 0.9; FirstFaceGates and OnlyFirstConfidenceMatters show it is decided by the first result's confidence against 0.9 alone |
| Gate.Startup | face_recognition.py:69-71 | startup drives the servo to min and starts locked |
| Gate.Step | face_recognition.py:73-99 | one iteration: quit takes precedence and stops the loop; servo max is issued exactly on a locked→unlocked transition, which needs a locked press, a good frame and an accepted first result; servo min exactly on relock or quit; buzzer on-sleep(1)-off exactly on a locked press with a read frame that is rejected; the exact lists are `[ServoMax]` on accept, `[ServoMin]` on relock and `[ServoMin, ReleaseCamera]` on quit; no command at all when not pressed, after the loop, or on a failed read |
| Gate.Run | face_recognition.py:73-99 | the loop over a sequence of iterations has stopped exactly when it was already stopped or some iteration's key was 'q'; a stopped loop issues nothing; RunKeepsConsistent gives the state/hardware invariant |
| Gate.Session | face_recognition.py:69-103 | the whole program's command stream starts with servo min |
| Gate.StepKeepsConsistent | face_recognition.py:77-99 | each iteration keeps the invariant: the buzzer is off, the camera is open while running, and the state is unlocked exactly when the servo is at max |
| Gate.RunKeepsConsistent | face_recognition.py:73-103 | the invariant holds after any sequence of iterations |
| Gate.SessionConsistent | face_recognition.py:69-103 | from any prior servo position, after startup and any iterations the state is unlocked iff the last servo command was max, and the buzzer is off |
| Gate.StoppedIgnoresInputs | face_recognition.py:73-75 | after the loop exits no input issues anything or changes the state |
| Gate.RunStopsAtQuit | face_recognition.py:74-75 | a quit key in any iteration stops the loop |
| Gate.QuitLeavesGateLocked | face_recognition.py:74-103 | after a quit the servo is at min and the camera released, whatever the state was |
| Gate.IdleRun | face_recognition.py:77 | iterations with no press and no quit never change the state and issue nothing |
| Gate.OnlyFirstConfidenceMatters | face_recognition.py:84 | the decision depends only on the first result's confidence, not on its label or on any later result |
| Gate.CameraOnlyOnLockedPress | face_recognition.py:77-81 | outside a locked, pressed, non-quit iteration the camera's outcome has no effect; an unlocked press relocks regardless of the camera |
| Gate.FirstFaceGates | face_recognition.py:82-84 | through the pipeline, acceptance holds exactly when a face was detected and the first detected face's crop scores ≥ 0.9 |
| Gate.FirstFaceMasksLaterMatch | face_recognition.py:84 | a confident second face does not open the gate when the first face scores 0.4; the buzzer sounds instead |
| Gate.HeldButtonRelocks | face_recognition.py:77-99 | the button is polled as a level: held over two iterations with an accepted face, the gate unlocks and then locks again |

## Left out

- Face detection (`detectMultiScale`, line 30) is an opaque library call. Its output is an arbitrary input sequence of boxes with non-negative width and height.
- Resizing, normalisation, the model's forward pass, softmax and argmax/max (lines 40-50) are foreign numeric code. The classifier is an arbitrary function from the crop window to a prediction. Nothing is claimed about tensor shapes or probabilities summing to 1.
- Python slice semantics for the crop (line 38) are not modelled. Negative indices wrap and out-of-range indices are clamped, and the frame size is unknown. The model computes only the window bounds, so the geometry lemmas are about the bounds, not about the pixels a slice returns.
- Crop.CropBoundsExact: treats the source's floating-point arithmetic as exact real arithmetic. Doubles hold the half-integers `(2*start + extent ± side) / 2` exactly only while those numerators stay below 2^53 in magnitude, so the equivalence holds for coordinates and sizes below 2^50. `detectMultiScale` returns 32-bit integer boxes, far below that bound.
- Gate.Step: compares the confidence with 0.9 as an exact real. The source compares a 32-bit float softmax score with a double.
- Model and cascade loading, the empty `__exit__` (lines 17-25) and argument parsing (lines 55-60) are setup plumbing.
- Camera, GPIO, the key poll and `time.sleep` (lines 63-67, 74, 79, 92) are hardware and I/O. They appear only as step inputs (key code, button level, camera outcome) and as emitted commands. `cv2.destroyAllWindows` (line 105) affects no modelled state and is omitted.
- Exceptions are not modelled. An empty crop reaching `cv2.resize` (line 40), for instance a box near the top edge whose window has a negative start, a failure inside `model.predict`, or a keyboard interrupt all end the program by an exception that leaves the `with` block (line 62) without running lines 101-103: no final `servo.min()` and no camera release. The model's `Recognize` always returns one prediction per face and `Step` always returns an outcome; Gate.QuitLeavesGateLocked covers only the exit through the `q` key.
- The loop never terminates by itself. Its behaviour is modelled over finite sequences of iterations.
