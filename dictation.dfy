/** The `Dictation` object of the daemon: its fields, updated in place by
    `start_recording`, `stop_recording`, `on_key_event` and the loader, and
    the `run` loop that opens the keyboards and feeds their events in.

    Each method is proved against the pure transitions of module `Session`:
    the object's fields after a call are the state those functions compute,
    and the effects the call performs are appended to a ghost trace, whose
    consistency (one capture process exactly while recording) every
    method keeps. */
module Daemon {
  import opened Wrappers
  import opened Keys
  import opened Capture
  import opened Transcript
  import opened Devices
  import opened Session

  /** What one `device.read()` yielded before the loop moved on: its events,
      and whether it then raised OSError because the device went away. */
  datatype Reading = Reading(arrivals: seq<Arrival>, disconnected: bool)

  /** One entry of a `select` result: a readable device and its reading. */
  type Ready = (Device, Reading)

  /** What `select` can return given the registered devices: each ready
      device is registered, and none appears twice. */
  predicate Selectable(ready: seq<Ready>, registered: set<Device>) {
    && (forall k :: 0 <= k < |ready| ==> ready[k].0 in registered)
    && (forall j, k :: 0 <= j < k < |ready| ==> ready[j].0 != ready[k].0)
  }

  /** The events of a `select` result, device after device. */
  function Arrivals(ready: seq<Ready>): (r: seq<Arrival>)
    ensures ready == [] ==> r == []
  {
    if ready == [] then []
    else Arrivals(ready[..|ready| - 1]) + ready[|ready| - 1].1.arrivals
  }

  /** The devices of a `select` result that went away while being read. */
  function Dropped(ready: seq<Ready>): (r: set<Device>)
    ensures forall d :: d in r ==> exists k :: 0 <= k < |ready| && ready[k].0 == d && ready[k].1.disconnected
  {
    if ready == [] then {}
    else
      var last := ready[|ready| - 1];
      Dropped(ready[..|ready| - 1]) + (if last.1.disconnected then {last.0} else {})
  }

  /** The events of several rounds of the main loop, in order. */
  function AllArrivals(rounds: seq<seq<Ready>>): seq<Arrival> {
    if rounds == [] then []
    else AllArrivals(rounds[..|rounds| - 1]) + Arrivals(rounds[|rounds| - 1])
  }

  /** The devices dropped over several rounds. */
  function AllDropped(rounds: seq<seq<Ready>>): set<Device> {
    if rounds == [] then {}
    else AllDropped(rounds[..|rounds| - 1]) + Dropped(rounds[|rounds| - 1])
  }

  /** Servicing one more device of a `select` result extends the events
      handled and the devices dropped by that device's reading. */
  lemma PollStep(cfg: Config, s0: State, ready: seq<Ready>, i: nat)
    requires WellFormed(cfg.codes) && HasFile(s0) && i < |ready|
    ensures var first := Drain(cfg, s0, Arrivals(ready[..i]));
      var second := Drain(cfg, first.state, ready[i].1.arrivals);
      Drain(cfg, s0, Arrivals(ready[..i + 1])) == Step(second.state, first.effects + second.effects)
    ensures Dropped(ready[..i + 1]) == Dropped(ready[..i]) + (if ready[i].1.disconnected then {ready[i].0} else {})
  {
    assert ready[..i + 1][..i] == ready[..i];
    DrainAppend(cfg, s0, Arrivals(ready[..i]), ready[i].1.arrivals);
  }

  class Dictation {
    const cfg: Config
    var recording: bool
    var recordProcess: Option<Pid>
    var tempFile: Option<string>
    var model: Status
    var nextPid: Pid
    var keyboards: seq<Device>
    /** The devices registered with the selector. */
    var registered: set<Device>
    /** Every effect performed so far, in order. */
    ghost var trace: seq<Effect>

    /** The fields that the key handlers read and write. */
    function Snapshot(): State
      reads this
    {
      State(recording, recordProcess, tempFile, model, nextPid)
    }

    ghost predicate Valid()
      reads this
    {
      WellFormed(cfg.codes) && Consistent(Snapshot(), trace)
    }

    /** `__init__`: idle, no model yet, no keyboards; the loader thread is
        started here and finishes later through `LoadModel`. */
    constructor (cfg: Config)
      requires WellFormed(cfg.codes)
      ensures Valid()
      ensures this.cfg == cfg && Snapshot() == Initial && trace == []
      ensures keyboards == [] && registered == {}
    {
      this.cfg := cfg;
      recording := false;
      recordProcess := None;
      tempFile := None;
      model := Loading;
      nextPid := 0;
      keyboards := [];
      registered := {};
      trace := [];
      new;
      InitialConsistent();
    }

    /** `_load_model`: the status is set from how loading ended. */
    method LoadModel(loaded: LoadOutcome)
      requires Valid()
      modifies this`model
      ensures Valid()
      ensures Snapshot() == Load(old(Snapshot()), loaded)
    {
      model := Settle(model, loaded);
    }

    /** `notify`: one notification, or nothing when they are off. */
    method Notify(title: string, body: string)
      modifies this`trace
      ensures trace == old(trace) + Note(cfg, title, body)
    {
      if cfg.notifications {
        trace := trace + [Effect.Notify(title, body)];
      }
    }

    /** The part of `stop_recording` after the model call: the sinks and
        the notifications for a transcript, or the report of an exception. */
    method DeliverOutcome(outcome: Outcome)
      modifies this`trace
      ensures trace == old(trace) + Deliver(cfg, outcome)
    {
      match outcome {
        case Segments(texts) =>
          var text := TranscriptOf(texts);
          if text != "" {
            trace := trace + [CopyToClipboard(text)];
            if cfg.autoType {
              trace := trace + [TypeText(text)];
            }
            Notify("Copied!", Preview(text));
          } else {
            Notify("No speech detected", "Try speaking louder");
          }
        case Raised(msg) =>
          Notify("Error", Truncate(msg, 50));
      }
    }

    /** `start_recording`. */
    method StartRecording(w: World)
      requires Valid()
      modifies this
      ensures Valid()
      ensures Snapshot() == Start(cfg, old(Snapshot()), w).state
      ensures trace == old(trace) + Start(cfg, old(Snapshot()), w).effects
      ensures keyboards == old(keyboards) && registered == old(registered)
    {
      ghost var s0, t0 := Snapshot(), trace;
      if recording || Blocks(model) {
        assert t0 + [] == t0;
        return;
      }
      recording := true;
      tempFile := Some(w.tempPath);
      ghost var launched := [CreateTemp(w.tempPath), Spawn(nextPid, RecordCommand(SelectRecorder(w.host), w.tempPath))];
      SpawnCapture(w);
      var body := "Release " + KeyName(cfg.codes, cfg.hotkey) + " when done";
      Notify("Recording...", body);
      AppendTwice(t0, launched, Note(cfg, "Recording...", body));
      StartConsistent(cfg, s0, w, t0);
    }

    /** The temporary file and the `Popen` of the recorder command. */
    method SpawnCapture(w: World)
      modifies this`recordProcess, this`nextPid, this`trace
      ensures recordProcess == Some(old(nextPid)) && nextPid == old(nextPid) + 1
      ensures trace == old(trace) + [CreateTemp(w.tempPath), Spawn(old(nextPid), RecordCommand(SelectRecorder(w.host), w.tempPath))]
    {
      trace := trace + [CreateTemp(w.tempPath)];
      var argv := RecordCommand(SelectRecorder(w.host), w.tempPath);
      recordProcess := Some(nextPid);
      trace := trace + [Spawn(nextPid, argv)];
      nextPid := nextPid + 1;
    }

    /** `stop_recording`. */
    method StopRecording(w: World)
      requires Valid()
      modifies this
      ensures Valid()
      ensures Snapshot() == Stop(cfg, old(Snapshot()), w).state
      ensures trace == old(trace) + Stop(cfg, old(Snapshot()), w).effects
      ensures keyboards == old(keyboards) && registered == old(registered)
    {
      ghost var s0, t0 := Snapshot(), trace;
      if !recording {
        assert t0 + [] == t0;
        return;
      }
      recording := false;
      ghost var reaped: seq<Effect> := if recordProcess.Some? then [Reap(recordProcess.value)] else [];
      ReapCapture();
      var path := tempFile.value;
      TranscribeCapture(path, w);
      AppendTwice(t0, reaped, AfterCapture(cfg, model, path, w));
      StopConsistent(cfg, s0, w, t0);
    }

    /** `terminate()` and `wait()` on the capture process, if there is one. */
    method ReapCapture()
      modifies this`recordProcess, this`trace
      ensures recordProcess.None?
      ensures trace == old(trace) + (if old(recordProcess).Some? then [Reap(old(recordProcess).value)] else [])
    {
      if recordProcess.Some? {
        trace := trace + [Reap(recordProcess.value)];
        recordProcess := None;
      } else {
        assert trace == trace + [];
      }
    }

    /** The rest of `stop_recording` once the capture process is gone:
        the "Transcribing..." notice, `model_loaded.wait()`, then either the
        model-failure report or the model call, delivery and the cleanup of
        the temporary file in `finally`. */
    method TranscribeCapture(path: string, w: World)
      modifies this`trace, this`model
      ensures model == Settle(old(model), w.loaded)
      ensures trace == old(trace) + AfterCapture(cfg, model, path, w)
    {
      ghost var t0 := trace;
      Notify("Transcribing...", "Processing your speech");
      ghost var transcribing := Note(cfg, "Transcribing...", "Processing your speech");
      model := Settle(model, w.loaded);
      if Blocks(model) {
        Notify("Error", "Model failed to load");
        AppendTwice(t0, transcribing, Note(cfg, "Error", "Model failed to load"));
      } else {
        var outcome: Outcome;
        ghost var call: seq<Effect> := [];
        if model.Ready? {
          call := [Transcribe(path)];
          trace := trace + call;
          outcome := w.outcome;
        } else {
          outcome := Raised(NoModelMessage);
        }
        DeliverOutcome(outcome);
        ghost var deleted: seq<Effect> := [];
        if w.tempExists {
          deleted := [DeleteFile(path)];
          trace := trace + deleted;
        }
        ghost var delivered := Deliver(cfg, outcome);
        assert AfterCapture(cfg, model, path, w) == transcribing + call + delivered + deleted;
        AppendTwice(t0, transcribing, call);
        AppendTwice(t0, transcribing + call, delivered);
        AppendTwice(t0, transcribing + call + delivered, deleted);
      }
    }

    /** `on_key_event`. */
    method OnKeyEvent(ev: InputEvent, w: World)
      requires Valid()
      modifies this
      ensures Valid()
      ensures Snapshot() == OnKey(cfg, old(Snapshot()), ev, w).state
      ensures trace == old(trace) + OnKey(cfg, old(Snapshot()), ev, w).effects
      ensures keyboards == old(keyboards) && registered == old(registered)
    {
      if ev.code == cfg.hotkey {
        if ev.value == 1 {
          StartRecording(w);
        } else if ev.value == 0 {
          StopRecording(w);
        } else {
          assert trace == old(trace) + [];
        }
      } else {
        assert trace == old(trace) + [];
      }
    }

    /** One event read from a device: a loader write that landed since the
        previous event takes effect first; then key events go to
        `on_key_event`, any other type is skipped. */
    method HandleArrival(a: Arrival, ghost st: Step, ghost earlier: seq<Effect>)
      requires Valid() && Snapshot() == st.state && trace == earlier + st.effects
      modifies this
      ensures Valid()
      ensures Snapshot() == Handle(cfg, st, a).state
      ensures trace == earlier + Handle(cfg, st, a).effects
      ensures keyboards == old(keyboards) && registered == old(registered)
    {
      if a.loader.Some? {
        LoadModel(a.loader.value);
      }
      if a.event.kind == cfg.codes.evKey {
        OnKeyEvent(a.event, a.world);
        AppendTwice(earlier, st.effects, OnKey(cfg, Arrive(st.state, a), a.event, a.world).effects);
      }
    }

    /** The body of `run`'s loop for one readable device: its key events go
        to `on_key_event` in order, and a device that went away is
        unregistered. */
    method ServiceDevice(dev: Device, reading: Reading)
      requires Valid()
      modifies this
      ensures Valid()
      ensures Snapshot() == Drain(cfg, old(Snapshot()), reading.arrivals).state
      ensures trace == old(trace) + Drain(cfg, old(Snapshot()), reading.arrivals).effects
      ensures registered == if reading.disconnected then old(registered) - {dev} else old(registered)
      ensures keyboards == old(keyboards)
    {
      ghost var s0, t0 := Snapshot(), trace;
      var arrivals := reading.arrivals;
      var i := 0;
      while i < |arrivals|
        invariant 0 <= i <= |arrivals|
        invariant Valid()
        invariant Snapshot() == Drain(cfg, s0, arrivals[..i]).state
        invariant trace == t0 + Drain(cfg, s0, arrivals[..i]).effects
        invariant registered == old(registered) && keyboards == old(keyboards)
      {
        HandleArrival(arrivals[i], Drain(cfg, s0, arrivals[..i]), t0);
        DrainLast(cfg, s0, arrivals, i);
        i := i + 1;
      }
      assert arrivals[..i] == arrivals;
      if reading.disconnected {
        registered := registered - {dev};
      }
    }

    /** One pass of `run`'s `while self.running` loop over a `select`
        result. */
    method Poll(ready: seq<Ready>)
      requires Valid() && Selectable(ready, registered)
      modifies this
      ensures Valid()
      ensures Snapshot() == Drain(cfg, old(Snapshot()), Arrivals(ready)).state
      ensures trace == old(trace) + Drain(cfg, old(Snapshot()), Arrivals(ready)).effects
      ensures registered == old(registered) - Dropped(ready)
      ensures keyboards == old(keyboards)
    {
      ghost var s0, t0 := Snapshot(), trace;
      var i := 0;
      while i < |ready|
        invariant 0 <= i <= |ready|
        invariant Valid()
        invariant Snapshot() == Drain(cfg, s0, Arrivals(ready[..i])).state
        invariant trace == t0 + Drain(cfg, s0, Arrivals(ready[..i])).effects
        invariant registered == old(registered) - Dropped(ready[..i])
        invariant keyboards == old(keyboards)
      {
        ghost var first := Drain(cfg, s0, Arrivals(ready[..i]));
        var (dev, reading) := ready[i];
        ServiceDevice(dev, reading);
        PollStep(cfg, s0, ready, i);
        ghost var second := Drain(cfg, first.state, reading.arrivals);
        AppendTwice(t0, first.effects, second.effects);
        i := i + 1;
      }
      assert ready[..i] == ready;
    }

    /** `run` up to the main loop: the keyboards are found and registered;
        with none, the program exits (status 1) before registering any. */
    method Open(probes: seq<Probe>) returns (found: bool)
      requires Valid()
      modifies this`keyboards, this`registered
      ensures keyboards == Keyboards(cfg.codes, probes)
      ensures found <==> keyboards != []
      ensures found ==> registered == set d | d in keyboards
      ensures !found ==> registered == old(registered)
    {
      keyboards := FindKeyboards(cfg.codes, probes);
      if keyboards == [] {
        found := false;
        return;
      }
      found := true;
      registered := {};
      var i := 0;
      while i < |keyboards|
        invariant 0 <= i <= |keyboards|
        invariant keyboards == Keyboards(cfg.codes, probes)
        invariant registered == set d | d in keyboards[..i]
      {
        assert keyboards[..i + 1] == keyboards[..i] + [keyboards[i]];
        registered := registered + {keyboards[i]};
        i := i + 1;
      }
      assert keyboards[..i] == keyboards;
    }

    /** `run`, with its endless loop cut to the given rounds of `select`
        results: the key events of all rounds are handled in order, and the
        devices that went away are no longer registered. */
    method Run(probes: seq<Probe>, rounds: seq<seq<Ready>>) returns (found: bool)
      requires Valid()
      requires forall n :: 0 <= n < |rounds| ==>
        Selectable(rounds[n], (set d | d in Keyboards(cfg.codes, probes)) - AllDropped(rounds[..n]))
      modifies this
      ensures Valid()
      ensures keyboards == Keyboards(cfg.codes, probes)
      ensures found <==> keyboards != []
      ensures !found ==> Snapshot() == old(Snapshot()) && trace == old(trace) && registered == old(registered)
      ensures found ==> Snapshot() == Drain(cfg, old(Snapshot()), AllArrivals(rounds)).state
      ensures found ==> trace == old(trace) + Drain(cfg, old(Snapshot()), AllArrivals(rounds)).effects
      ensures found ==> registered == (set d | d in keyboards) - AllDropped(rounds)
    {
      found := Open(probes);
      if found {
        Serve(rounds);
      }
    }

    /** The `while self.running` loop of `run` over the given rounds, each
        reading only devices still registered. */
    method Serve(rounds: seq<seq<Ready>>)
      requires Valid()
      requires forall n :: 0 <= n < |rounds| ==> Selectable(rounds[n], registered - AllDropped(rounds[..n]))
      modifies this
      ensures Valid()
      ensures Snapshot() == Drain(cfg, old(Snapshot()), AllArrivals(rounds)).state
      ensures trace == old(trace) + Drain(cfg, old(Snapshot()), AllArrivals(rounds)).effects
      ensures registered == old(registered) - AllDropped(rounds)
      ensures keyboards == old(keyboards)
    {
      ghost var s0, t0, reg0 := Snapshot(), trace, registered;
      var n := 0;
      while n < |rounds|
        invariant 0 <= n <= |rounds|
        invariant Valid()
        invariant Snapshot() == Drain(cfg, s0, AllArrivals(rounds[..n])).state
        invariant trace == t0 + Drain(cfg, s0, AllArrivals(rounds[..n])).effects
        invariant registered == reg0 - AllDropped(rounds[..n])
        invariant keyboards == old(keyboards)
      {
        ServeRound(rounds, n, s0, t0, reg0);
        n := n + 1;
      }
      assert rounds[..n] == rounds;
    }

    /** One round of `Serve`'s loop. */
    method ServeRound(rounds: seq<seq<Ready>>, n: nat, ghost s0: State, ghost t0: seq<Effect>, ghost reg0: set<Device>)
      requires n < |rounds| && Valid() && HasFile(s0)
      requires Snapshot() == Drain(cfg, s0, AllArrivals(rounds[..n])).state
      requires trace == t0 + Drain(cfg, s0, AllArrivals(rounds[..n])).effects
      requires registered == reg0 - AllDropped(rounds[..n])
      requires Selectable(rounds[n], registered)
      modifies this
      ensures Valid()
      ensures Snapshot() == Drain(cfg, s0, AllArrivals(rounds[..n + 1])).state
      ensures trace == t0 + Drain(cfg, s0, AllArrivals(rounds[..n + 1])).effects
      ensures registered == reg0 - AllDropped(rounds[..n + 1])
      ensures keyboards == old(keyboards)
    {
      assert rounds[..n + 1][..n] == rounds[..n];
      ghost var first := Drain(cfg, s0, AllArrivals(rounds[..n]));
      Poll(rounds[n]);
      DrainAppend(cfg, s0, AllArrivals(rounds[..n]), Arrivals(rounds[n]));
      ghost var second := Drain(cfg, first.state, Arrivals(rounds[n]));
      AppendTwice(t0, first.effects, second.effects);
    }
  }
}
