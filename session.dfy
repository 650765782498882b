/** The recording/dictation state machine of class `Dictation` as pure
    transitions: `start_recording`, `stop_recording`, `on_key_event`, the
    event-draining step of `run`, and the background loader's one write.

    Every external effect is an entry of a trace: the temporary file, the
    capture child process (an abstract handle numbered from a counter), the
    model call, the two sinks, notifications and the file deletion. What the
    outside world answers (which tools exist, the file name `tempfile`
    picks, how loading ended, what the model returns or raises, whether the
    file still exists) arrives as a `World` value. */
module Session {
  import opened Wrappers
  import opened Keys
  import opened Environment
  import opened Capture
  import opened Transcript

  type Pid = nat

  /** The model as `model`, `model_error` and `model_loaded` describe it. */
  datatype Status = Loading | Ready | Failed(reason: string)

  /** How the background `_load_model` thread ends. */
  datatype LoadOutcome = Loaded | LoadError(message: string)

  /** What `model.transcribe` yields: segment texts, or an exception. */
  datatype Outcome = Segments(texts: seq<string>) | Raised(message: string)

  /** The settings the program reads once from its configuration. */
  datatype Config = Config(codes: Ecodes, hotkey: int, autoType: bool, notifications: bool)

  /** An evdev event: its type, code and value (1 press, 0 release, 2 repeat). */
  datatype InputEvent = InputEvent(kind: int, code: int, value: int)

  /** The outside world's answers for one event. */
  datatype World = World(host: Host, tempPath: string, loaded: LoadOutcome, outcome: Outcome, tempExists: bool)

  datatype Effect =
    | CreateTemp(path: string)
    | Spawn(pid: Pid, argv: seq<string>)
    | Reap(pid: Pid)                       // terminate() then wait()
    | Notify(title: string, body: string)
    | Transcribe(path: string)
    | CopyToClipboard(text: string)
    | TypeText(text: string)
    | DeleteFile(path: string)

  /** The fields `recording`, `record_process`, `temp_file`, the model
      status, and the counter that names the next capture process. */
  datatype State = State(recording: bool, process: Option<Pid>, tempFile: Option<string>, model: Status, nextPid: Pid)

  datatype Step = Step(state: State, effects: seq<Effect>)

  /** The state of a freshly constructed `Dictation`. */
  const Initial := State(false, None, None, Loading, 0)

  /** Recording always has a temporary file to hand over. */
  predicate HasFile(s: State) {
    s.recording ==> s.tempFile.Some?
  }

  /** `if self.model_error:` holds for a failed load with a non-empty message. */
  predicate Blocks(m: Status) {
    m.Failed? && m.reason != ""
  }

  /** `model_loaded.wait()`: a loading model takes the loader's outcome;
      a settled one keeps its status (it is written once). */
  function Settle(m: Status, loaded: LoadOutcome): (r: Status)
    ensures !r.Loading?
    ensures !m.Loading? ==> r == m
  {
    if !m.Loading? then m
    else match loaded
      case Loaded => Ready
      case LoadError(msg) => Failed(msg)
  }

  /** What calling `transcribe` on `self.model` raises when it is still `None`. */
  const NoModelMessage := "'NoneType' object has no attribute 'transcribe'"

  /** `notify`, which does nothing when notifications are off. */
  function Note(cfg: Config, title: string, body: string): seq<Effect> {
    if cfg.notifications then [Notify(title, body)] else []
  }

  /** Delivery after a model call: the sinks for a non-empty transcript,
      "No speech detected" for an empty one, the truncated message of an
      exception otherwise. */
  function Deliver(cfg: Config, outcome: Outcome): (effects: seq<Effect>) {
    match outcome
    case Segments(texts) =>
      var text := TranscriptOf(texts);
      if text != "" then
        [CopyToClipboard(text)] + (if cfg.autoType then [TypeText(text)] else []) + Note(cfg, "Copied!", Preview(text))
      else Note(cfg, "No speech detected", "Try speaking louder")
    case Raised(msg) => Note(cfg, "Error", Truncate(msg, 50))
  }

  /** `start_recording`. */
  function Start(cfg: Config, s: State, w: World): (r: Step)
    requires WellFormed(cfg.codes)
    ensures HasFile(s) ==> HasFile(r.state)
    ensures r.state.recording <==> s.recording || !Blocks(s.model)
    ensures r.state.model == s.model
  {
    if s.recording || Blocks(s.model) then Step(s, [])
    else
      var pid := s.nextPid;
      Step(State(true, Some(pid), Some(w.tempPath), s.model, pid + 1),
           [CreateTemp(w.tempPath), Spawn(pid, RecordCommand(SelectRecorder(w.host), w.tempPath))]
           + Note(cfg, "Recording...", "Release " + KeyName(cfg.codes, cfg.hotkey) + " when done"))
  }

  /** What `stop_recording` does once the capture process is gone: the
      "Transcribing..." notice, then either the model-failure report (the
      temporary file is kept) or the model call, delivery and the deletion
      of the temporary file when it still exists. */
  function AfterCapture(cfg: Config, model: Status, path: string, w: World): (effects: seq<Effect>)
    requires !model.Loading?
  {
    var transcribing := Note(cfg, "Transcribing...", "Processing your speech");
    if Blocks(model) then transcribing + Note(cfg, "Error", "Model failed to load")
    else
      var call := if model.Ready? then [Transcribe(path)] else [];
      var outcome := if model.Ready? then w.outcome else Raised(NoModelMessage);
      transcribing + call + Deliver(cfg, outcome) + (if w.tempExists then [DeleteFile(path)] else [])
  }

  /** `stop_recording`. */
  function Stop(cfg: Config, s: State, w: World): (r: Step)
    requires HasFile(s)
    ensures !r.state.recording
    ensures s.recording ==> r.state.process.None? && !r.state.model.Loading?
  {
    if !s.recording then Step(s, [])
    else
      var model := Settle(s.model, w.loaded);
      var reaped := if s.process.Some? then [Reap(s.process.value)] else [];
      Step(State(false, None, s.tempFile, model, s.nextPid), reaped + AfterCapture(cfg, model, s.tempFile.value, w))
  }

  /** `on_key_event`: press starts, release stops, anything else is ignored. */
  function OnKey(cfg: Config, s: State, ev: InputEvent, w: World): (r: Step)
    requires WellFormed(cfg.codes) && HasFile(s)
    ensures HasFile(r.state)
  {
    if ev.code == cfg.hotkey && ev.value == 1 then Start(cfg, s, w)
    else if ev.code == cfg.hotkey && ev.value == 0 then Stop(cfg, s, w)
    else Step(s, [])
  }

  /** The loader thread's single write. */
  function Load(s: State, loaded: LoadOutcome): State {
    s.(model := Settle(s.model, loaded))
  }

  // ---------------------------------------------------------------------
  // Capture processes alive according to a trace

  function ProcessSet(p: Option<Pid>): set<Pid> {
    if p.Some? then {p.value} else {}
  }

  function Apply(live: set<Pid>, e: Effect): set<Pid> {
    match e
    case Spawn(p, _) => live + {p}
    case Reap(p) => live - {p}
    case _ => live
  }

  function LiveAfter(live: set<Pid>, effects: seq<Effect>): set<Pid>
    decreases |effects|
  {
    if effects == [] then live else LiveAfter(Apply(live, effects[0]), effects[1..])
  }

  /** The capture processes spawned and not yet reaped. */
  function Live(trace: seq<Effect>): set<Pid> {
    LiveAfter({}, trace)
  }

  lemma {:induction false} LiveAfterAppend(live: set<Pid>, a: seq<Effect>, b: seq<Effect>)
    ensures LiveAfter(live, a + b) == LiveAfter(LiveAfter(live, a), b)
    decreases |a|
  {
    if a != [] {
      assert (a + b)[1..] == a[1..] + b;
      LiveAfterAppend(Apply(live, a[0]), a[1..], b);
    } else {
      assert a + b == b;
    }
  }

  predicate Quiet(u: seq<Effect>) {
    forall k :: 0 <= k < |u| ==> !u[k].Spawn? && !u[k].Reap?
  }

  lemma {:induction false} LiveAfterQuiet(live: set<Pid>, u: seq<Effect>)
    requires Quiet(u)
    ensures LiveAfter(live, u) == live
    decreases |u|
  {
    if u != [] {
      LiveAfterQuiet(live, u[1..]);
    }
  }

  lemma NoteQuiet(cfg: Config, title: string, body: string)
    ensures Quiet(Note(cfg, title, body))
  {
  }

  lemma DeliverQuiet(cfg: Config, outcome: Outcome)
    ensures Quiet(Deliver(cfg, outcome))
  {
    match outcome
    case Segments(texts) =>
      var text := TranscriptOf(texts);
      if text != "" {
        var typed: seq<Effect> := if cfg.autoType then [TypeText(text)] else [];
        NoteQuiet(cfg, "Copied!", Preview(text));
        QuietJoin([CopyToClipboard(text)], typed);
        QuietJoin([CopyToClipboard(text)] + typed, Note(cfg, "Copied!", Preview(text)));
      } else {
        NoteQuiet(cfg, "No speech detected", "Try speaking louder");
      }
    case Raised(msg) =>
      NoteQuiet(cfg, "Error", Truncate(msg, 50));
  }

  /** The invariant of the recording session: recording exactly while a
      capture process is held, a temporary file whenever recording, the
      handle below the counter, and the held process the only live one. */
  ghost predicate Consistent(s: State, trace: seq<Effect>) {
    && (s.recording <==> s.process.Some?)
    && (s.recording ==> s.tempFile.Some?)
    && (s.process.Some? ==> s.process.value < s.nextPid)
    && Live(trace) == ProcessSet(s.process)
  }

  lemma InitialConsistent()
    ensures Consistent(Initial, [])
  {
  }

  /** At most one capture process exists in any consistent state. */
  lemma AtMostOneProcess(s: State, trace: seq<Effect>)
    requires Consistent(s, trace)
    ensures |Live(trace)| <= 1
    ensures |Live(trace)| == 1 <==> s.recording
  {
  }

  lemma QuietJoin(a: seq<Effect>, b: seq<Effect>)
    requires Quiet(a) && Quiet(b)
    ensures Quiet(a + b)
  {
  }

  lemma AfterCaptureQuiet(cfg: Config, model: Status, path: string, w: World)
    requires !model.Loading?
    ensures Quiet(AfterCapture(cfg, model, path, w))
  {
    var transcribing := Note(cfg, "Transcribing...", "Processing your speech");
    NoteQuiet(cfg, "Transcribing...", "Processing your speech");
    if Blocks(model) {
      NoteQuiet(cfg, "Error", "Model failed to load");
      QuietJoin(transcribing, Note(cfg, "Error", "Model failed to load"));
    } else {
      var call := if model.Ready? then [Transcribe(path)] else [];
      var outcome := if model.Ready? then w.outcome else Raised(NoModelMessage);
      var deletion := if w.tempExists then [DeleteFile(path)] else [];
      DeliverQuiet(cfg, outcome);
      QuietJoin(transcribing, call);
      QuietJoin(transcribing + call, Deliver(cfg, outcome));
      QuietJoin(transcribing + call + Deliver(cfg, outcome), deletion);
    }
  }

  lemma LiveAfterSpawn(live: set<Pid>, path: string, pid: Pid, argv: seq<string>)
    ensures LiveAfter(live, [CreateTemp(path), Spawn(pid, argv)]) == live + {pid}
  {
    assert [CreateTemp(path), Spawn(pid, argv)][1..] == [Spawn(pid, argv)];
    assert [Spawn(pid, argv)][1..] == [];
    assert LiveAfter(live, [Spawn(pid, argv)]) == live + {pid};
  }

  lemma LiveAfterReap(live: set<Pid>, pid: Pid)
    ensures LiveAfter(live, [Reap(pid)]) == live - {pid}
  {
    assert [Reap(pid)][1..] == [];
  }

  lemma {:induction false} StartConsistent(cfg: Config, s: State, w: World, trace: seq<Effect>)
    requires WellFormed(cfg.codes) && Consistent(s, trace)
    ensures Consistent(Start(cfg, s, w).state, trace + Start(cfg, s, w).effects)
  {
    var st := Start(cfg, s, w);
    if !(s.recording || Blocks(s.model)) {
      var pid := s.nextPid;
      var argv := RecordCommand(SelectRecorder(w.host), w.tempPath);
      var title, body := "Recording...", "Release " + KeyName(cfg.codes, cfg.hotkey) + " when done";
      var notes := Note(cfg, title, body);
      assert st.effects == [CreateTemp(w.tempPath), Spawn(pid, argv)] + notes;
      NoteQuiet(cfg, title, body);
      LiveAfterAppend({}, trace, st.effects);
      LiveAfterAppend(Live(trace), [CreateTemp(w.tempPath), Spawn(pid, argv)], notes);
      LiveAfterSpawn(Live(trace), w.tempPath, pid, argv);
      LiveAfterQuiet({pid}, notes);
    } else {
      assert trace + [] == trace;
    }
  }

  lemma {:induction false} StopConsistent(cfg: Config, s: State, w: World, trace: seq<Effect>)
    requires Consistent(s, trace)
    ensures Consistent(Stop(cfg, s, w).state, trace + Stop(cfg, s, w).effects)
  {
    var st := Stop(cfg, s, w);
    if s.recording {
      var pid := s.process.value;
      var rest := AfterCapture(cfg, Settle(s.model, w.loaded), s.tempFile.value, w);
      AfterCaptureQuiet(cfg, Settle(s.model, w.loaded), s.tempFile.value, w);
      assert st.effects == [Reap(pid)] + rest;
      LiveAfterAppend({}, trace, st.effects);
      LiveAfterAppend(Live(trace), [Reap(pid)], rest);
      LiveAfterReap(Live(trace), pid);
      assert Live(trace) - {pid} == {};
      LiveAfterQuiet({}, rest);
      assert Live(trace + st.effects) == {};
    } else {
      assert trace + [] == trace;
    }
  }

  lemma OnKeyConsistent(cfg: Config, s: State, ev: InputEvent, w: World, trace: seq<Effect>)
    requires WellFormed(cfg.codes) && Consistent(s, trace)
    ensures Consistent(OnKey(cfg, s, ev, w).state, trace + OnKey(cfg, s, ev, w).effects)
  {
    if ev.code == cfg.hotkey && ev.value == 1 {
      StartConsistent(cfg, s, w, trace);
    } else if ev.code == cfg.hotkey && ev.value == 0 {
      StopConsistent(cfg, s, w, trace);
    } else {
      assert trace + [] == trace;
    }
  }

  // ---------------------------------------------------------------------
  // Draining the events of one readable device

  /** One event read from a device, with the world's answers for it, and
      how the background loader ended when it finished since the previous
      event. */
  datatype Arrival = Arrival(event: InputEvent, world: World, loader: Option<LoadOutcome>)

  /** The state an event finds: the loader's write, when it landed since
      the previous event, has taken effect. */
  function Arrive(s: State, a: Arrival): State {
    if a.loader.Some? then Load(s, a.loader.value) else s
  }

  /** One turn of the inner loop of `run`: after any loader write that
      landed meanwhile, a key event goes to `on_key_event`, any other event
      type is skipped. */
  function Handle(cfg: Config, st: Step, a: Arrival): (r: Step)
    requires WellFormed(cfg.codes) && HasFile(st.state)
    ensures HasFile(r.state)
  {
    var s := Arrive(st.state, a);
    if a.event.kind == cfg.codes.evKey then
      var next := OnKey(cfg, s, a.event, a.world);
      Step(next.state, st.effects + next.effects)
    else Step(s, st.effects)
  }

  /** A load that fails while the daemon is idle blocks the very next
      press: no temporary file, no capture process. */
  lemma LoaderFailureBlocksPress(cfg: Config, s: State, a: Arrival)
    requires WellFormed(cfg.codes) && HasFile(s) && s.model.Loading? && !s.recording
    requires a.loader.Some? && a.loader.value.LoadError? && a.loader.value.message != ""
    requires a.event.kind == cfg.codes.evKey && a.event.code == cfg.hotkey && a.event.value == 1
    ensures Handle(cfg, Step(s, []), a) == Step(s.(model := Failed(a.loader.value.message)), [])
  {
  }

  /** The inner loop of `run` over `device.read()`, in arrival order. */
  function Drain(cfg: Config, s: State, arrivals: seq<Arrival>): (r: Step)
    requires WellFormed(cfg.codes) && HasFile(s)
    ensures HasFile(r.state)
    decreases |arrivals|
  {
    if arrivals == [] then Step(s, [])
    else Handle(cfg, Drain(cfg, s, arrivals[..|arrivals| - 1]), arrivals[|arrivals| - 1])
  }

  /** Draining one more arrival is one more turn of the loop. */
  lemma DrainLast(cfg: Config, s: State, arrivals: seq<Arrival>, i: nat)
    requires WellFormed(cfg.codes) && HasFile(s) && i < |arrivals|
    ensures Drain(cfg, s, arrivals[..i + 1]) == Handle(cfg, Drain(cfg, s, arrivals[..i]), arrivals[i])
  {
    assert arrivals[..i + 1][..i] == arrivals[..i];
  }

  lemma HandleConsistent(cfg: Config, st: Step, a: Arrival, trace: seq<Effect>)
    requires WellFormed(cfg.codes) && Consistent(st.state, trace + st.effects)
    ensures Consistent(Handle(cfg, st, a).state, trace + Handle(cfg, st, a).effects)
  {
    var s := Arrive(st.state, a);
    if a.event.kind == cfg.codes.evKey {
      var next := OnKey(cfg, s, a.event, a.world);
      var before := trace + st.effects;
      OnKeyConsistent(cfg, s, a.event, a.world, before);
      assert Handle(cfg, st, a) == Step(next.state, st.effects + next.effects);
      ConsistentRegroup(next.state, trace, st.effects, next.effects);
    } else {
      assert Handle(cfg, st, a) == Step(s, st.effects);
    }
  }

  /** Appending in two steps is appending the concatenation. */
  lemma AppendTwice(t: seq<Effect>, a: seq<Effect>, b: seq<Effect>)
    ensures t + a + b == t + (a + b)
  {
  }

  lemma ConsistentRegroup(s: State, trace: seq<Effect>, a: seq<Effect>, b: seq<Effect>)
    requires Consistent(s, trace + a + b)
    ensures Consistent(s, trace + (a + b))
  {
    assert trace + a + b == trace + (a + b);
  }

  lemma {:induction false} DrainConsistent(cfg: Config, s: State, arrivals: seq<Arrival>, trace: seq<Effect>)
    requires WellFormed(cfg.codes) && Consistent(s, trace)
    ensures Consistent(Drain(cfg, s, arrivals).state, trace + Drain(cfg, s, arrivals).effects)
    decreases |arrivals|
  {
    if arrivals == [] {
      assert trace + [] == trace;
    } else {
      var init := arrivals[..|arrivals| - 1];
      DrainConsistent(cfg, s, init, trace);
      HandleConsistent(cfg, Drain(cfg, s, init), arrivals[|arrivals| - 1], trace);
    }
  }

  // ---------------------------------------------------------------------
  // Behaviour of single transitions

  /** A press while recording, a release while idle, a repeat and any other
      key leave the session untouched and do nothing. */
  lemma IgnoredEvents(cfg: Config, s: State, ev: InputEvent, w: World)
    requires WellFormed(cfg.codes) && HasFile(s)
    ensures s.recording && ev.value == 1 ==> OnKey(cfg, s, ev, w) == Step(s, [])
    ensures !s.recording && ev.value == 0 ==> OnKey(cfg, s, ev, w) == Step(s, [])
    ensures ev.value != 0 && ev.value != 1 ==> OnKey(cfg, s, ev, w) == Step(s, [])
    ensures ev.code != cfg.hotkey ==> OnKey(cfg, s, ev, w) == Step(s, [])
  {
  }

  /** A model whose load failed (with a message) blocks every start: no
      temporary file and no capture process are created. */
  lemma FailedModelBlocksStart(cfg: Config, s: State, w: World)
    requires WellFormed(cfg.codes) && Blocks(s.model)
    ensures Start(cfg, s, w) == Step(s, [])
  {
  }

  /** Otherwise a start from idle records into the world's temporary file
      with exactly one new temporary file and one new capture process,
      whose command line ends with that file. */
  lemma StartFromIdle(cfg: Config, s: State, w: World)
    requires WellFormed(cfg.codes) && !s.recording && !Blocks(s.model)
    ensures var r := Start(cfg, s, w);
      && r.state == State(true, Some(s.nextPid), Some(w.tempPath), s.model, s.nextPid + 1)
      && r.effects[0] == CreateTemp(w.tempPath)
      && r.effects[1].Spawn? && r.effects[1].pid == s.nextPid
      && r.effects[1].argv[|r.effects[1].argv| - 1] == w.tempPath
      && Count(r.effects, IsSpawn) == 1
      && Count(r.effects, IsCreate) == 1
  {
    var argv := RecordCommand(SelectRecorder(w.host), w.tempPath);
    var title, body := "Recording...", "Release " + KeyName(cfg.codes, cfg.hotkey) + " when done";
    var head := [CreateTemp(w.tempPath), Spawn(s.nextPid, argv)];
    CountAppend(head, Note(cfg, title, body), IsSpawn);
    CountAppend(head, Note(cfg, title, body), IsCreate);
    CountNone(Note(cfg, title, body), IsSpawn);
    CountNone(Note(cfg, title, body), IsCreate);
    assert head[1..] == [Spawn(s.nextPid, argv)];
    assert head[1..][1..] == [];
  }

  predicate IsSpawn(e: Effect) { e.Spawn? }
  predicate IsCreate(e: Effect) { e.CreateTemp? }

  function Count(u: seq<Effect>, f: Effect -> bool): nat
    decreases |u|
  {
    if u == [] then 0 else (if f(u[0]) then 1 else 0) + Count(u[1..], f)
  }

  lemma {:induction false} CountAppend(a: seq<Effect>, b: seq<Effect>, f: Effect -> bool)
    ensures Count(a + b, f) == Count(a, f) + Count(b, f)
    decreases |a|
  {
    if a == [] {
      assert a + b == b;
    } else {
      assert (a + b)[1..] == a[1..] + b;
      CountAppend(a[1..], b, f);
    }
  }

  // ---------------------------------------------------------------------
  // What a release delivers

  /** A load that failed with a message: the capture is reaped and the
      user told, but the model is not called, nothing reaches the sinks and
      the temporary file stays on disk (the early `return` skips the
      cleanup, which sits in a `finally` further down). */
  lemma StopModelFailed(cfg: Config, s: State, w: World)
    requires HasFile(s) && s.recording && Blocks(Settle(s.model, w.loaded))
    ensures var r := Stop(cfg, s, w);
      && r.state.tempFile == s.tempFile
      && (forall e :: e in r.effects ==> e.Reap? || e.Notify?)
      && (cfg.notifications ==> r.effects[|r.effects| - 1] == Notify("Error", "Model failed to load"))
  {
  }

  /** Otherwise the temporary file is removed exactly when it still
      exists, as the very last effect, whatever the model call produced;
      no other file is removed. */
  lemma StopDeletesFile(cfg: Config, s: State, w: World)
    requires HasFile(s) && s.recording && !Blocks(Settle(s.model, w.loaded))
    ensures var r := Stop(cfg, s, w);
      && (forall p :: DeleteFile(p) in r.effects <==> w.tempExists && p == s.tempFile.value)
      && (w.tempExists ==> r.effects[|r.effects| - 1] == DeleteFile(s.tempFile.value))
  {
    var model := Settle(s.model, w.loaded);
    var u := AfterCapture(cfg, model, s.tempFile.value, w);
    AfterCaptureDeletes(cfg, model, s.tempFile.value, w);
    var reaped: seq<Effect> := if s.process.Some? then [Reap(s.process.value)] else [];
    assert Stop(cfg, s, w).effects == reaped + u;
  }

  /** The cleanup in `finally`: the file, only it, and last. */
  lemma AfterCaptureDeletes(cfg: Config, model: Status, path: string, w: World)
    requires !model.Loading? && !Blocks(model)
    ensures var u := AfterCapture(cfg, model, path, w);
      && (forall p :: DeleteFile(p) in u <==> w.tempExists && p == path)
      && (w.tempExists ==> |u| > 0 && u[|u| - 1] == DeleteFile(path))
  {
    var transcribing := Note(cfg, "Transcribing...", "Processing your speech");
    var call: seq<Effect> := if model.Ready? then [Transcribe(path)] else [];
    var outcome := if model.Ready? then w.outcome else Raised(NoModelMessage);
    var delivered := Deliver(cfg, outcome);
    var deleted: seq<Effect> := if w.tempExists then [DeleteFile(path)] else [];
    var front := transcribing + call + delivered;
    assert AfterCapture(cfg, model, path, w) == front + deleted;
    assert forall e :: e in front ==> !e.DeleteFile? by {
      DeliverKinds(cfg, outcome);
    }
  }

  /** A loaded model transcribes the file that was recorded; a non-empty
      transcript goes to the clipboard, and to the typing tool exactly
      when auto-typing is on; an empty one reaches neither sink. */
  lemma StopTranscribes(cfg: Config, s: State, w: World)
    requires HasFile(s) && s.recording && Settle(s.model, w.loaded).Ready? && w.outcome.Segments?
    ensures var r := Stop(cfg, s, w);
      var text := TranscriptOf(w.outcome.texts);
      && Transcribe(s.tempFile.value) in r.effects
      && (forall t :: CopyToClipboard(t) in r.effects <==> t == text && text != "")
      && (forall t :: TypeText(t) in r.effects <==> t == text && text != "" && cfg.autoType)
      && (text == "" && cfg.notifications ==> Notify("No speech detected", "Try speaking louder") in r.effects)
  {
    StopReady(cfg, s, w);
    DeliverSegments(cfg, w.outcome.texts);
  }

  /** With a loaded model, the recorded file goes to the model, and what
      reaches the sinks on release is exactly what delivery hands them. */
  lemma StopReady(cfg: Config, s: State, w: World)
    requires HasFile(s) && s.recording && Settle(s.model, w.loaded).Ready?
    ensures var r := Stop(cfg, s, w);
      && Transcribe(s.tempFile.value) in r.effects
      && (forall e :: e in Deliver(cfg, w.outcome) ==> e in r.effects)
      && (forall e :: e in r.effects && (e.CopyToClipboard? || e.TypeText?) ==> e in Deliver(cfg, w.outcome))
  {
    var path := s.tempFile.value;
    var transcribing := Note(cfg, "Transcribing...", "Processing your speech");
    var reaped: seq<Effect> := if s.process.Some? then [Reap(s.process.value)] else [];
    var delivered := Deliver(cfg, w.outcome);
    var deleted: seq<Effect> := if w.tempExists then [DeleteFile(path)] else [];
    var model := Settle(s.model, w.loaded);
    assert AfterCapture(cfg, model, path, w) == transcribing + [Transcribe(path)] + delivered + deleted;
    var r := Stop(cfg, s, w);
    assert r.effects == reaped + AfterCapture(cfg, model, path, w);
    assert forall e :: e in transcribing ==> e.Notify?;
  }

  /** Delivery only notifies and feeds the sinks. */
  lemma DeliverKinds(cfg: Config, outcome: Outcome)
    ensures forall e :: e in Deliver(cfg, outcome) ==> e.Notify? || e.CopyToClipboard? || e.TypeText?
  {
    match outcome
    case Segments(texts) =>
      var text := TranscriptOf(texts);
      if text != "" {
        var typed: seq<Effect> := if cfg.autoType then [TypeText(text)] else [];
        assert Deliver(cfg, outcome) == [CopyToClipboard(text)] + typed + Note(cfg, "Copied!", Preview(text));
      }
    case Raised(msg) =>
  }

  /** Which sinks a successful model call reaches. */
  lemma DeliverSegments(cfg: Config, texts: seq<string>)
    ensures var u := Deliver(cfg, Segments(texts));
      var text := TranscriptOf(texts);
      && (forall t :: CopyToClipboard(t) in u <==> t == text && text != "")
      && (forall t :: TypeText(t) in u <==> t == text && text != "" && cfg.autoType)
      && (text == "" && cfg.notifications ==> Notify("No speech detected", "Try speaking louder") in u)
  {
    var text := TranscriptOf(texts);
    var u := Deliver(cfg, Segments(texts));
    if text != "" {
      var typed: seq<Effect> := if cfg.autoType then [TypeText(text)] else [];
      var notes := Note(cfg, "Copied!", Preview(text));
      assert u == [CopyToClipboard(text)] + typed + notes;
      assert forall e :: e in notes ==> e.Notify?;
    } else {
      assert u == Note(cfg, "No speech detected", "Try speaking louder");
    }
  }

  /** The clipboard sink and the typing sink. */
  predicate IsCopy(e: Effect) { e.CopyToClipboard? }
  predicate IsTyping(e: Effect) { e.TypeText? }

  /** A sink is fed at most once per release: the clipboard once for a
      non-empty transcript, the typing tool once more when auto-typing is on. */
  lemma StopSinksOnce(cfg: Config, s: State, w: World)
    requires HasFile(s) && s.recording && Settle(s.model, w.loaded).Ready? && w.outcome.Segments?
    ensures var r := Stop(cfg, s, w);
      var text := TranscriptOf(w.outcome.texts);
      && Count(r.effects, IsCopy) == (if text != "" then 1 else 0)
      && Count(r.effects, IsTyping) == (if text != "" && cfg.autoType then 1 else 0)
  {
    StopSinkCount(cfg, s, w, IsCopy);
    StopSinkCount(cfg, s, w, IsTyping);
    DeliverSinkCounts(cfg, w.outcome.texts);
  }

  /** Outside delivery, a release feeds no sink. */
  lemma StopSinkCount(cfg: Config, s: State, w: World, f: Effect -> bool)
    requires HasFile(s) && s.recording && Settle(s.model, w.loaded).Ready?
    requires forall e: Effect :: f(e) ==> e.CopyToClipboard? || e.TypeText?
    ensures Count(Stop(cfg, s, w).effects, f) == Count(Deliver(cfg, w.outcome), f)
  {
    var reaped: seq<Effect> := if s.process.Some? then [Reap(s.process.value)] else [];
    var model := Settle(s.model, w.loaded);
    var rest := AfterCapture(cfg, model, s.tempFile.value, w);
    assert Stop(cfg, s, w).effects == reaped + rest;
    CountAppend(reaped, rest, f);
    CountNone(reaped, f);
    AfterCaptureSinkCount(cfg, model, s.tempFile.value, w, f);
  }

  lemma AfterCaptureSinkCount(cfg: Config, model: Status, path: string, w: World, f: Effect -> bool)
    requires model.Ready?
    requires forall e: Effect :: f(e) ==> e.CopyToClipboard? || e.TypeText?
    ensures Count(AfterCapture(cfg, model, path, w), f) == Count(Deliver(cfg, w.outcome), f)
  {
    var transcribing := Note(cfg, "Transcribing...", "Processing your speech");
    var delivered := Deliver(cfg, w.outcome);
    var deleted: seq<Effect> := if w.tempExists then [DeleteFile(path)] else [];
    var head := transcribing + [Transcribe(path)];
    assert AfterCapture(cfg, model, path, w) == head + delivered + deleted;
    CountAppend(head + delivered, deleted, f);
    CountAppend(head, delivered, f);
    CountNone(deleted, f);
    CountNone(head, f);
  }

  /** How often delivery feeds each sink. */
  lemma DeliverSinkCounts(cfg: Config, texts: seq<string>)
    ensures var u := Deliver(cfg, Segments(texts));
      var text := TranscriptOf(texts);
      && Count(u, IsCopy) == (if text != "" then 1 else 0)
      && Count(u, IsTyping) == (if text != "" && cfg.autoType then 1 else 0)
  {
    var text := TranscriptOf(texts);
    var u := Deliver(cfg, Segments(texts));
    if text != "" {
      var typed: seq<Effect> := if cfg.autoType then [TypeText(text)] else [];
      var notes := Note(cfg, "Copied!", Preview(text));
      assert u == [CopyToClipboard(text)] + typed + notes;
      CountAppend([CopyToClipboard(text)] + typed, notes, IsCopy);
      CountAppend([CopyToClipboard(text)], typed, IsCopy);
      CountAppend([CopyToClipboard(text)] + typed, notes, IsTyping);
      CountAppend([CopyToClipboard(text)], typed, IsTyping);
      CountNone(notes, IsCopy);
      CountNone(notes, IsTyping);
      CountNone(typed, IsCopy);
      assert [CopyToClipboard(text)][1..] == [];
      if cfg.autoType {
        assert typed[1..] == [];
      }
    } else {
      assert u == Note(cfg, "No speech detected", "Try speaking louder");
      CountNone(u, IsCopy);
      CountNone(u, IsTyping);
    }
  }

  /** Effects none of which satisfy a predicate count zero of it. */
  lemma {:induction false} CountNone(u: seq<Effect>, f: Effect -> bool)
    requires forall e :: e in u ==> !f(e)
    ensures Count(u, f) == 0
    decreases |u|
  {
    if u != [] {
      CountNone(u[1..], f);
    }
  }

  /** An exception from the model call reaches no sink and is reported
      by its first fifty characters. */
  lemma StopReportsError(cfg: Config, s: State, w: World)
    requires HasFile(s) && s.recording && Settle(s.model, w.loaded).Ready? && w.outcome.Raised?
    ensures var r := Stop(cfg, s, w);
      && (forall e :: e in r.effects ==> !e.CopyToClipboard? && !e.TypeText?)
      && (cfg.notifications ==> Notify("Error", Truncate(w.outcome.message, 50)) in r.effects)
  {
  }

  /** A load that failed with an empty message does not count as failed
      (`model_error` is falsy): the release goes on without a model, the
      attribute lookup on `None` raises, and that error is what the user
      sees (the file is still cleaned up, by `StopDeletesFile`). */
  lemma StopWithoutModel(cfg: Config, s: State, w: World)
    requires HasFile(s) && s.recording && Settle(s.model, w.loaded) == Failed("")
    ensures var r := Stop(cfg, s, w);
      && (forall e :: e in r.effects ==> !e.Transcribe? && !e.CopyToClipboard? && !e.TypeText?)
      && (cfg.notifications ==> Notify("Error", Truncate(NoModelMessage, 50)) in r.effects)
  {
  }

  /** The loader writes the status once: a second outcome changes nothing,
      and nothing but the status is touched. */
  lemma LoadWriteOnce(s: State, first: LoadOutcome, second: LoadOutcome)
    ensures Load(Load(s, first), second) == Load(s, first)
    ensures !Load(s, first).model.Loading?
    ensures Load(s, first).(model := s.model) == s
  {
  }

  // ---------------------------------------------------------------------
  // Sequences of events

  /** A second press while the key is held (no release in between) starts
      nothing: still exactly one capture process is alive. */
  lemma RepeatedPress(cfg: Config, s: State, ev: InputEvent, w1: World, w2: World, trace: seq<Effect>)
    requires WellFormed(cfg.codes) && Consistent(s, trace)
    requires !s.recording && !Blocks(s.model) && ev.code == cfg.hotkey && ev.value == 1
    ensures var r1 := OnKey(cfg, s, ev, w1);
      var r2 := OnKey(cfg, r1.state, ev, w2);
      && r2 == Step(r1.state, [])
      && Live(trace + r1.effects + r2.effects) == {s.nextPid}
  {
    var r1 := OnKey(cfg, s, ev, w1);
    StartConsistent(cfg, s, w1, trace);
    assert trace + r1.effects + [] == trace + r1.effects;
  }

  /** Press then release from idle: the capture process is gone, the file
      the model is asked to transcribe is the one the press created, and
      no capture process is left alive. */
  lemma {:induction false} PressRelease(cfg: Config, s: State, press: InputEvent, release: InputEvent, w1: World, w2: World, trace: seq<Effect>)
    requires WellFormed(cfg.codes) && Consistent(s, trace)
    requires !s.recording && !Blocks(s.model)
    requires press.code == cfg.hotkey && press.value == 1
    requires release.code == cfg.hotkey && release.value == 0
    ensures var r1 := OnKey(cfg, s, press, w1);
      var r2 := OnKey(cfg, r1.state, release, w2);
      && !r2.state.recording && r2.state.process.None?
      && r2.state.tempFile == Some(w1.tempPath)
      && (Settle(s.model, w2.loaded).Ready? ==> Transcribe(w1.tempPath) in r2.effects)
      && Live(trace + r1.effects + r2.effects) == {}
  {
    var r1 := OnKey(cfg, s, press, w1);
    StartConsistent(cfg, s, w1, trace);
    StopConsistent(cfg, r1.state, w2, trace + r1.effects);
  }

  /** Handling one batch of arrivals and then another is handling them
      all in one go. */
  lemma {:induction false} DrainAppend(cfg: Config, s: State, a: seq<Arrival>, b: seq<Arrival>)
    requires WellFormed(cfg.codes) && HasFile(s)
    ensures var first := Drain(cfg, s, a);
      var second := Drain(cfg, first.state, b);
      Drain(cfg, s, a + b) == Step(second.state, first.effects + second.effects)
    decreases |b|
  {
    var first := Drain(cfg, s, a);
    if b == [] {
      assert a + b == a;
      assert first.effects + [] == first.effects;
    } else {
      var init := b[..|b| - 1];
      assert (a + b)[..|a + b| - 1] == a + init;
      DrainAppend(cfg, s, a, init);
      var mid := Drain(cfg, first.state, init);
      HandleAfter(cfg, mid, b[|b| - 1], first.effects);
    }
  }

  /** Effects already logged before a turn of the loop stay in front. */
  lemma HandleAfter(cfg: Config, st: Step, a: Arrival, earlier: seq<Effect>)
    requires WellFormed(cfg.codes) && HasFile(st.state)
    ensures var h := Handle(cfg, st, a);
      Handle(cfg, Step(st.state, earlier + st.effects), a) == Step(h.state, earlier + h.effects)
  {
    if a.event.kind == cfg.codes.evKey {
      var next := OnKey(cfg, Arrive(st.state, a), a.event, a.world);
      assert earlier + st.effects + next.effects == earlier + (st.effects + next.effects);
    }
  }
}
