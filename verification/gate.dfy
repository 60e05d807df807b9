/**
  The access-control loop: a two-state lock driven once per iteration by the
  quit key, the level of the push button, and (only when locked and pressed)
  one camera frame run through the recognition pipeline.

  Each iteration is a pure step from the controller state and that iteration's
  inputs to the next state and the hardware commands it issues. The camera,
  the key poll, the button and the recogniser's output are inputs; the servo,
  the buzzer, the one-second wait and the camera release are emitted commands.
 */
module Gate {
  import opened Crop
  import opened Recognition

  /** Commands sent to the hardware, in the order the loop issues them. */
  datatype Command = ServoMin | ServoMax | BuzzerOn | BuzzerOff | Sleep(seconds: nat) | ReleaseCamera

  /** Outcome of `video_capture.read()`: failure, or a frame already run through the recogniser. */
  datatype Camera = ReadFailed | Read(results: seq<Prediction>)

  /** What one loop iteration observes: the key code from the key poll, the button level, the camera. */
  datatype Input = Input(key: int, pressed: bool, camera: Camera)

  /** The loop is running with the lock open or closed, or it has exited. */
  datatype Controller = Running(unlocked: bool) | Stopped

  /** Next controller state and the commands issued on the way. */
  datatype Outcome = Outcome(next: Controller, commands: seq<Command>)

  /** Servo positions used: min is locked, max is unlocked. */
  datatype Position = Min | Max

  /** Physical state of the peripherals as driven by the commands. */
  datatype Hardware = Hardware(servo: Position, buzzing: bool, cameraOpen: bool)

  /** Key code of 'q'. */
  const QuitKey: int := 'q' as int

  /** Acceptance threshold on the first result's confidence. */
  const Threshold: real := 0.9

  /** Length of the rejection alert. */
  const AlertSeconds: nat := 1

  /** Python's `key & 0xFF` on an arbitrary-precision integer (two's complement, so -1 gives 255). */
  function LowByte(key: int): (b: int)
    ensures 0 <= b < 256
    ensures (key - b) % 256 == 0
  {
    key % 256
  }

  /** The key poll asks the loop to stop. */
  function Quits(key: int): (b: bool)
    ensures b <==> (key - QuitKey) % 256 == 0
    ensures b ==> key != -1
  {
    LowByte(key) == QuitKey
  }

  /** Recognition accepts: some face was found and the FIRST one is confident enough. */
  function Accepts(results: seq<Prediction>): (b: bool)
    ensures b <==> |results| > 0 && results[0].confidence >= Threshold
  {
    |results| > 0 && results[0].confidence >= Threshold
  }

  /** The iteration would read a frame: running, locked, no quit key, button pressed. */
  predicate LockedPress(c: Controller, i: Input)
  {
    c == Running(false) && !Quits(i.key) && i.pressed
  }

  /** Startup: drive the servo to its locked position, state locked. */
  function Startup(): (r: Outcome)
    ensures r.next == Running(false)
    ensures r.commands == [ServoMin]
  {
    Outcome(Running(false), [ServoMin])
  }

  /** One pass of the `while True` loop; after the loop exits nothing more happens. */
  function Step(c: Controller, i: Input): (r: Outcome)
    ensures r.next == Stopped <==> c == Stopped || Quits(i.key)
    ensures r.next == Running(true) <==>
      || (c == Running(true) && !Quits(i.key) && !i.pressed)
      || (LockedPress(c, i) && i.camera.Read? && Accepts(i.camera.results))
    ensures ServoMax in r.commands <==> c == Running(false) && r.next == Running(true)
    ensures ServoMin in r.commands <==>
      c.Running? && (r.next == Stopped || (c == Running(true) && r.next == Running(false)))
    ensures BuzzerOn in r.commands <==>
      LockedPress(c, i) && i.camera.Read? && !Accepts(i.camera.results)
    ensures BuzzerOn in r.commands ==> r.commands == [BuzzerOn, Sleep(AlertSeconds), BuzzerOff]
    ensures ReleaseCamera in r.commands <==> c.Running? && r.next == Stopped
    ensures r.commands == [] <==>
      c == Stopped || (!Quits(i.key) && !i.pressed) || (LockedPress(c, i) && i.camera.ReadFailed?)
    ensures c == Running(false) && r.next == Running(true) ==> r.commands == [ServoMax]
    ensures c == Running(true) && r.next == Running(false) ==> r.commands == [ServoMin]
    ensures c.Running? && r.next == Stopped ==> r.commands == [ServoMin, ReleaseCamera]
  {
    match c
    case Stopped => Outcome(Stopped, [])
    case Running(unlocked) =>
      if Quits(i.key) then Outcome(Stopped, [ServoMin, ReleaseCamera])
      else if !i.pressed then Outcome(c, [])
      else if unlocked then Outcome(Running(false), [ServoMin])
      else match i.camera
        case ReadFailed => Outcome(c, [])
        case Read(results) =>
          if Accepts(results) then Outcome(Running(true), [ServoMax])
          else Outcome(c, [BuzzerOn, Sleep(AlertSeconds), BuzzerOff])
  }

  /** Iterations in order, concatenating what each one issues. */
  function Run(c: Controller, inputs: seq<Input>): (r: Outcome)
    ensures r.next == Stopped <==> c == Stopped || exists j :: 0 <= j < |inputs| && Quits(inputs[j].key)
    ensures c == Stopped ==> r.commands == []
    decreases |inputs|
  {
    if |inputs| == 0 then Outcome(c, [])
    else
      var first := Step(c, inputs[0]);
      var rest := Run(first.next, inputs[1..]);
      Outcome(rest.next, first.commands + rest.commands)
  }

  /** The whole program: startup, then the loop over the given iterations. */
  function Session(inputs: seq<Input>): (r: Outcome)
    ensures |r.commands| > 0 && r.commands[0] == ServoMin
  {
    var s := Startup();
    var loop := Run(s.next, inputs);
    Outcome(loop.next, s.commands + loop.commands)
  }

  /** Effect of one command on the peripherals. */
  function Apply(h: Hardware, cmd: Command): Hardware
  {
    match cmd
    case ServoMin => h.(servo := Min)
    case ServoMax => h.(servo := Max)
    case BuzzerOn => h.(buzzing := true)
    case BuzzerOff => h.(buzzing := false)
    case Sleep(_) => h
    case ReleaseCamera => h.(cameraOpen := false)
  }

  /** Effect of a command stream on the peripherals. */
  function Replay(h: Hardware, cmds: seq<Command>): Hardware
    decreases |cmds|
  {
    if |cmds| == 0 then h else Replay(Apply(h, cmds[0]), cmds[1..])
  }

  /**
    The controller state agrees with the hardware: the buzzer is silent; while
    running the camera is open and the state is unlocked exactly when the servo
    is at max; once stopped the servo is at min and the camera is released.
   */
  predicate Consistent(c: Controller, h: Hardware)
  {
    && !h.buzzing
    && match c
       case Running(unlocked) => h.cameraOpen && (unlocked <==> h.servo == Max)
       case Stopped => !h.cameraOpen && h.servo == Min
  }

  lemma {:induction false} ReplayConcat(h: Hardware, a: seq<Command>, b: seq<Command>)
    ensures Replay(h, a + b) == Replay(Replay(h, a), b)
    decreases |a|
  {
    if |a| == 0 {
      assert a + b == b;
    } else {
      assert (a + b)[0] == a[0];
      assert (a + b)[1..] == a[1..] + b;
      ReplayConcat(Apply(h, a[0]), a[1..], b);
    }
  }

  /** Every iteration keeps the controller state in step with the hardware. */
  lemma StepKeepsConsistent(c: Controller, h: Hardware, i: Input)
    requires Consistent(c, h)
    ensures Consistent(Step(c, i).next, Replay(h, Step(c, i).commands))
  {
    var cmds := Step(c, i).commands;
    if BuzzerOn in cmds {
      assert cmds == [BuzzerOn, Sleep(AlertSeconds), BuzzerOff];
      var h1 := h.(buzzing := true);
      assert Replay(h, cmds) == Replay(h1, cmds[1..]);
      assert Replay(h1, cmds[1..]) == Replay(h1, cmds[2..]);
      assert cmds[2..][1..] == [];
      assert Replay(h1, cmds[2..]) == h;
    } else if |cmds| == 2 {
      assert cmds[1..][1..] == [];
      assert Replay(h, cmds) == h.(servo := Min, cameraOpen := false);
    } else if |cmds| == 1 {
      assert cmds[1..] == [];
      assert Replay(h, cmds) == Apply(h, cmds[0]);
    }
  }

  lemma {:induction false} RunKeepsConsistent(c: Controller, h: Hardware, inputs: seq<Input>)
    requires Consistent(c, h)
    ensures Consistent(Run(c, inputs).next, Replay(h, Run(c, inputs).commands))
    decreases |inputs|
  {
    if |inputs| > 0 {
      var first := Step(c, inputs[0]);
      StepKeepsConsistent(c, h, inputs[0]);
      var h' := Replay(h, first.commands);
      RunKeepsConsistent(first.next, h', inputs[1..]);
      ReplayConcat(h, first.commands, Run(first.next, inputs[1..]).commands);
    }
  }

  /**
    Whatever position the servo had before startup, after any sequence of
    iterations the state is unlocked exactly when the last servo command was
    max, and the buzzer is never left on.
   */
  lemma SessionConsistent(h: Hardware, inputs: seq<Input>)
    requires h.cameraOpen && !h.buzzing
    ensures Consistent(Session(inputs).next, Replay(h, Session(inputs).commands))
  {
    var s := Startup();
    var h' := Apply(h, ServoMin);
    assert Replay(h, s.commands) == h';
    RunKeepsConsistent(s.next, h', inputs);
    ReplayConcat(h, s.commands, Run(s.next, inputs).commands);
  }

  /** Once the loop has exited no input has any effect. */
  lemma StoppedIgnoresInputs(inputs: seq<Input>)
    ensures Run(Stopped, inputs) == Outcome(Stopped, [])
  {
  }

  /** A quit key anywhere in the iterations stops the loop. */
  lemma RunStopsAtQuit(c: Controller, inputs: seq<Input>, k: nat)
    requires k < |inputs| && Quits(inputs[k].key)
    ensures Run(c, inputs).next == Stopped
  {
  }

  /** After a quit, the servo is at its locked position and the camera released, whatever the state was. */
  lemma QuitLeavesGateLocked(h: Hardware, inputs: seq<Input>, k: nat)
    requires h.cameraOpen && !h.buzzing
    requires k < |inputs| && Quits(inputs[k].key)
    ensures Session(inputs).next == Stopped
    ensures Replay(h, Session(inputs).commands).servo == Min
    ensures !Replay(h, Session(inputs).commands).cameraOpen
  {
    RunStopsAtQuit(Startup().next, inputs, k);
    SessionConsistent(h, inputs);
  }

  /** Iterations with neither quit key nor button press change nothing and issue nothing. */
  lemma {:induction false} IdleRun(c: Controller, inputs: seq<Input>)
    requires forall j :: 0 <= j < |inputs| ==> !Quits(inputs[j].key) && !inputs[j].pressed
    ensures Run(c, inputs) == Outcome(c, [])
    decreases |inputs|
  {
    if |inputs| > 0 {
      IdleRun(c, inputs[1..]);
    }
  }

  /** Only the first result's confidence matters: its label and every later result are ignored. */
  lemma OnlyFirstConfidenceMatters(c: Controller, key: int, pressed: bool,
                                   p: Prediction, q: Prediction, rest: seq<Prediction>, rest': seq<Prediction>)
    requires p.confidence == q.confidence
    ensures Step(c, Input(key, pressed, Read([p] + rest))) == Step(c, Input(key, pressed, Read([q] + rest')))
  {
  }

  /** The camera is consulted only when the gate is locked and the button pressed without quit. */
  lemma CameraOnlyOnLockedPress(c: Controller, i: Input, camera: Camera)
    requires !LockedPress(c, i)
    ensures Step(c, i) == Step(c, i.(camera := camera))
  {
  }

  /** Through the pipeline, the decision rests on the classifier's verdict for the first detected face. */
  lemma FirstFaceGates(faces: seq<Box>, classify: Window -> Prediction)
    ensures Accepts(Recognize(faces, classify)) <==>
      |faces| > 0 && classify(CropWindow(faces[0])).confidence >= Threshold
  {
  }

  /** Two faces: a confident match in second place does not open a gate whose first face scores low. */
  lemma FirstFaceMasksLaterMatch()
    ensures var faces := [Box(0, 0, 10, 10), Box(100, 0, 10, 10)];
      var classify := (w: Window) => if w.colLo < 50 then Prediction(1, 0.4) else Prediction(3, 0.95);
      var results := Recognize(faces, classify);
      && results[1].confidence >= Threshold
      && Step(Running(false), Input(-1, true, Read(results))) == Outcome(Running(false), [BuzzerOn, Sleep(1), BuzzerOff])
  {
    var faces := [Box(0, 0, 10, 10), Box(100, 0, 10, 10)];
    assert CropWindow(faces[0]).colLo == 0;
    assert CropWindow(faces[1]).colLo == 100;
  }

  /** A held button is a press on every iteration: an accepted face unlocks, and the next iteration locks again. */
  lemma HeldButtonRelocks(results: seq<Prediction>)
    requires Accepts(results)
    ensures Run(Running(false), [Input(-1, true, Read(results)), Input(-1, true, Read(results))])
      == Outcome(Running(false), [ServoMax, ServoMin])
  {
    var inputs := [Input(-1, true, Read(results)), Input(-1, true, Read(results))];
    assert inputs[1..][1..] == [];
    assert Run(Running(true), inputs[1..]) == Outcome(Running(false), [ServoMin]);
  }
}
