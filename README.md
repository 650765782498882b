# SoupaWhisper dictation daemon — verified model

SoupaWhisper is a push-to-talk dictation program for Linux desktops. While a
configured hotkey is held it records the microphone into a temporary WAV
file. When the key is released it hands that file to a speech model. The
transcript is copied to the clipboard, and optionally typed into the focused
window, and desktop notifications report progress.

This project models the decision logic of `dictate.py` and proves its
properties:

- **Keys**: key-name resolution (`KEY_MAP`, `get_hotkey`, `get_key_name`) over
  an abstract `ecodes` table.
- **Environment** and **Capture**: display-server classification, recorder
  selection, and the capture command line of `get_record_command`. A
  separate reading of that command line shows which audio stream it
  requests.
- **Base64** and **Delivery**: the OSC 52 clipboard frame. Its payload is
  base64 (section 4 of RFC 4648) over UTF-8, and decoding it gives back the
  text's bytes. This module also builds the clipboard and typing commands
  and the `check_dependencies` list.
- **Devices**: the keyboard heuristic of `find_keyboards`.
- **Transcript**: joining stripped segments, the 100-character preview and
  the 50-character error excerpt.
- **Session**: the `Dictation` state machine (`start_recording`,
  `stop_recording`, `on_key_event`, the loader's single write) as pure
  transitions over a state. Every external effect is appended to a trace:
  the temporary file, the capture process, the model call, the two sinks,
  notifications and the file deletion. Its invariant: a capture process is
  alive exactly while recording, and there is never more than one.
- **Daemon**: the `Dictation` class itself. Its fields are updated in place,
  and a ghost trace records the effects. Each method is proved to produce
  the state and effects of the Session transition. `run` opens the
  keyboards and then drains the event rounds, unregistering each device
  that disconnects.

The outside world is passed in as values, never performed:

- which tools `which` finds, and the two display variables;
- the temporary file name;
- how the background model load ended, and between which events it landed;
- the segments the model returns, or the exception it raises;
- whether the file still exists at cleanup;
- the events each `select` round delivers.

Three behaviours of the code are easy to miss; the model follows the code:

- When the model failed to load, `stop_recording` returns at
  `dictate.py` lines 286-289, before its `try`/`finally` block, so the
  temporary file is kept (`Session.StopModelFailed`).
- `get_record_command` calls `get_audio_recorder` itself (line 161), so the
  recorder is probed again on every start.
- The segments are joined (line 299) before the emptiness test (line 301).
  Two or more whitespace-only segments therefore give a non-empty
  transcript of spaces, which is delivered. Only no segments, or a single
  blank one, count as "No speech detected" (`Transcript.TranscriptEmpty`).

## Model

| member | source | states |
|---|---|---|
| Keys.HotkeyCases | dictate.py:78-89 | a name found case-insensitively in `KEY_MAP` gives its table code; failing that, a single character with a `KEY_<UPPER>` attribute gives that code; anything else gives `KEY_F12` |
| Keys.HotkeyCaseInsensitive | dictate.py:80 | two names equal up to ASCII case resolve to the same code |
| Keys.TableNamesDistinct | dictate.py:67-75 | the names of `KEY_MAP` are pairwise distinct |
| Keys.HotkeyNameRoundTrip | dictate.py:67-96 | when the table's codes are distinct, the name of the code for a table entry is that entry upper-cased |
| Keys.SingleCharRoundTrip | dictate.py:83-101 | a single-character key outside the table whose `ecodes` name is `KEY_<UPPER>` reads back as its upper-case letter |
| Keys.UnknownKeyName | dictate.py:97-101 | a code that neither the table nor `ecodes.KEY` knows is named by its decimal digits |
| Keys.LabelledKeyName | dictate.py:97-101 | a code outside the table is named by its `ecodes.KEY` name (first alias of a list) with the `KEY_` prefix removed |
| Text.UpperOfLower | dictate.py:80-85 | upper-casing after lower-casing is plain upper-casing |
| Text.LowerIdempotent | dictate.py:80 | lower-casing twice is lower-casing once |
| Text.RemoveAllUnchanged | dictate.py:101 | `replace("KEY_", "")` leaves a string without occurrences unchanged |
| Text.RemoveAllPrefix | dictate.py:101 | removing all occurrences drops a leading occurrence and carries on |
| Text.ParseNatToString | dictate.py:98 | reading back the decimal form of a number gives that number |
| Environment.Classify | dictate.py:418 | Wayland iff `WAYLAND_DISPLAY` is set; X11 iff only `DISPLAY` is set; Unknown iff neither is |
| Capture.SelectRecorder | dictate.py:150-156 | PipeWire iff `pw-record` is installed; ALSA iff only `arecord` is; none iff neither |
| Capture.RecordCommand | dictate.py:159-179 | the command starts with `pw-record` for PipeWire and `arecord` otherwise (also when no recorder was found), and ends with the output file |
| Capture.RecordCommandStream | dictate.py:159-179 | whichever branch is taken, the command requests 16-bit signed mono audio at 16000 Hz written to the output file |
| Capture.PipewireFlags | dictate.py:163-169 | the PipeWire options give format s16, rate 16000 and 1 channel |
| Capture.AlsaFlags | dictate.py:172-179 | the ALSA options give format S16_LE, rate 16000 and 1 channel |
| Capture.FlagValueFollowsFlag | dictate.py:163-179 | an option value is only ever read from the argument right after its flag |
| Base64.SymbolRoundTrip | dictate.py:115 | each 6-bit value's alphabet symbol decodes to that value |
| Base64.DecodeGroupRoundTrip | dictate.py:115 | a full 3-byte group encodes to 4 symbols that decode back to it |
| Base64.DecodeTailRoundTrip | dictate.py:115 | a 1- or 2-byte tail encodes with `=` padding that decodes back to it |
| Base64.EncodeLength | dictate.py:115 | the encoding of n bytes has length 4·⌈n/3⌉ |
| Base64.DecodeEncode | dictate.py:115 | decoding the encoding of any byte string gives that byte string |
| Base64.Utf8Char | dictate.py:115 | each character takes 1 to 4 bytes of UTF-8, ASCII exactly one |
| Delivery.Osc52Frame | dictate.py:115-116 | the frame written to the terminal is ESC ] 52 ; c ; then a payload that decodes to the UTF-8 text, then BEL |
| Delivery.ClipboardActions | dictate.py:112-135 | the OSC 52 frame is always written first; a native copy follows iff Wayland has `wl-copy`, or X11 without Wayland has `xclip`; that tool gets the UTF-8 text on standard input |
| Delivery.TypeCommand | dictate.py:138-147 | the typing command runs `wtype` under Wayland and `xdotool` otherwise, with the text as the last argument |
| Delivery.CheckDependencies | dictate.py:367-389 | nothing is missing iff a recorder exists and, with auto-type, the typing tool is installed; each entry is reported exactly in its own case, once, and no other entry appears; the list holds one entry per case that applies, the recorder entry first |
| Devices.KeyboardsMembership | dictate.py:182-198 | a device is found iff some probe opened it and it reports EV_KEY with KEY_A or KEY_SPACE |
| Devices.KeyboardsBound | dictate.py:182-198 | no more keyboards than probed paths |
| Devices.FindKeyboards | dictate.py:182-198 | the appending loop yields exactly the keyboards, in probing order, each passing the heuristic |
| Transcript.Strip | dictate.py:299 | the stripped text is empty iff the text is all whitespace, otherwise begins and ends with non-whitespace, and is the text minus its leading and trailing whitespace |
| Transcript.StripIdempotent | dictate.py:299 | stripping twice equals stripping once |
| Transcript.Stripped | dictate.py:299 | one part per segment; a part is empty iff its segment is all whitespace, and every other part starts and ends with a non-whitespace character |
| Transcript.JoinLength | dictate.py:299 | joining n parts adds exactly n−1 separating spaces |
| Transcript.SplitJoin | dictate.py:299 | splitting the join at spaces gives back parts that contain no space |
| Transcript.TranscriptEmpty | dictate.py:299-301 | the transcript is empty iff there is no segment or a single whitespace-only one |
| Transcript.HelloWorld | dictate.py:299 | segments "hello" and "world" give "hello world" |
| Transcript.Preview | dictate.py:310 | a text of at most 100 characters is shown whole; a longer one as its first 100 characters plus "..." (103 in all) |
| Transcript.Truncate | dictate.py:317 | the excerpt is a prefix of the message, of length min(n, length) |
| Session.Settle | dictate.py:284-286 | waiting for the loader leaves a settled status, and a status once settled never changes |
| Session.Start | dictate.py:249-267 | recording afterwards iff already recording or the model has not failed with a non-empty message; the model status is untouched |
| Session.Stop | dictate.py:269-289 | never recording afterwards; a stop of a recording clears the process and settles the model |
| Session.OnKey | dictate.py:323-330 | every transition keeps a temporary file available while recording |
| Session.InitialConsistent | dictate.py:202-211 | a fresh daemon satisfies the session invariant |
| Session.AtMostOneProcess | dictate.py:260-278 | under the invariant at most one capture process is alive, and exactly one iff recording |
| Session.StartConsistent | dictate.py:249-267 | starting keeps the session invariant over the extended trace |
| Session.StopConsistent | dictate.py:269-321 | stopping keeps the session invariant over the extended trace |
| Session.OnKeyConsistent | dictate.py:323-330 | every key event keeps the session invariant |
| Session.DrainConsistent | dictate.py:354-360 | any sequence of device events keeps the session invariant |
| Session.DrainAppend | dictate.py:354-360 | handling two batches of events in turn is the same as handling them as one batch |
| Session.DrainLast | dictate.py:358-360 | handling one more event extends the handling of the earlier ones by that event |
| Session.IgnoredEvents | dictate.py:249-330 | a press while recording, a release while idle, a repeat or other value, and any other key all change nothing and do nothing |
| Session.FailedModelBlocksStart | dictate.py:250-251 | with a failed load that has a message, a press does nothing |
| Session.StartFromIdle | dictate.py:253-267 | otherwise a press records into the new temporary file, with exactly one temporary file and one capture process created, whose command line ends with that file |
| Session.RepeatedPress | dictate.py:249-267 | a second press without a release does nothing, and exactly one capture process is alive |
| Session.PressRelease | dictate.py:249-321 | press then release leaves no process alive and not recording; with a ready model the recorded file is transcribed |
| Session.LoadWriteOnce | dictate.py:217-230 | the loader settles the model once, later outcomes are ignored, and it changes nothing but the model |
| Session.StopModelFailed | dictate.py:286-289 | with a failed model the release only reaps and notifies: no model call, no sink, the temporary file kept, "Model failed to load" last |
| Session.StopDeletesFile | dictate.py:318-321 | otherwise the file is deleted iff it still exists, whatever the model call did, and as the last effect |
| Session.StopReady | dictate.py:292-311 | with a ready model the recorded file is transcribed, and the sinks receive exactly what delivery hands them |
| Session.DeliverKinds | dictate.py:299-317 | delivery only notifies and feeds the two sinks |
| Session.DeliverSegments | dictate.py:299-313 | the clipboard receives the transcript iff it is non-empty; typing receives it iff it is non-empty and auto-type is on; an empty one is reported as no speech |
| Session.StopTranscribes | dictate.py:292-313 | on release, the clipboard gets the transcript iff it is non-empty, typing iff also auto-type, and no speech is reported for an empty one |
| Session.DeliverSinkCounts | dictate.py:301-307 | delivery copies once for a non-empty transcript, never otherwise, and types once more iff auto-type is on |
| Session.StopSinksOnce | dictate.py:301-307 | a release calls the clipboard exactly once for a non-empty transcript and typing exactly once more iff auto-type is on |
| Session.StopSinkCount | dictate.py:269-321 | outside delivery a release feeds no sink |
| Session.StopReportsError | dictate.py:315-317 | an exception from the model reaches no sink and is reported by its first 50 characters |
| Session.StopWithoutModel | dictate.py:286-317 | a failed load without a message does not block: the model is never called, no sink is fed, and the error from the missing model is reported |
| Session.LiveAfterAppend | dictate.py:260-278 | the processes alive after two runs of effects are those after the first, updated by the second |
| Session.CountAppend | dictate.py:260-264 | counts of effects add up over concatenation |
| Daemon.PollStep | dictate.py:355-364 | one more ready device extends the handled events by its own and the dropped set by it iff it disconnected |
| Daemon.Dropped | dictate.py:361-364 | only a device whose read raised OSError is dropped |
| Daemon.Dictation.constructor | dictate.py:202-215 | a new daemon is idle with the model loading, no keyboards, and an empty trace |
| Daemon.Dictation.LoadModel | dictate.py:217-230 | the loader's write is the Session load and keeps the invariant |
| Daemon.Dictation.Notify | dictate.py:232-247 | a notification is recorded iff notifications are enabled |
| Daemon.Dictation.DeliverOutcome | dictate.py:292-317 | the effects recorded are those of Session delivery |
| Daemon.Dictation.StartRecording | dictate.py:249-267 | the fields become the Session start state, its effects are appended, and the invariant is kept |
| Daemon.Dictation.StopRecording | dictate.py:269-321 | the fields become the Session stop state, its effects are appended, and the invariant is kept |
| Daemon.Dictation.SpawnCapture | dictate.py:254-264 | one temporary file and one new capture process, held in `record_process` |
| Daemon.Dictation.ReapCapture | dictate.py:275-278 | the held capture process is terminated and awaited, and the slot cleared |
| Daemon.Dictation.TranscribeCapture | dictate.py:280-321 | waits for the model and performs the rest of the release |
| Daemon.Dictation.OnKeyEvent | dictate.py:323-330 | the fields and effects follow the Session key transition, and the invariant is kept |
| Daemon.Dictation.HandleArrival | dictate.py:358-360 | a loader write that landed since the previous event takes effect first; then only EV_KEY events reach the key handler |
| Session.LoaderFailureBlocksPress | dictate.py:226-227 | a load that fails while the daemon is idle blocks the next press: only the model status changes, no file, no process |
| Daemon.Dictation.ServiceDevice | dictate.py:356-364 | one device's events are handled in order, and the device is unregistered iff its read raised OSError |
| Daemon.Dictation.Poll | dictate.py:355-364 | a `select` round, over distinct registered devices, handles every ready device's events in order and unregisters exactly the disconnected ones |
| Daemon.Dictation.Open | dictate.py:339-352 | the keyboards are those `find_keyboards` yields; if there are any, exactly they are registered, otherwise nothing changes |
| Daemon.Dictation.Serve | dictate.py:354-364 | over rounds that each read only devices still registered, the state and effects are those of handling every round's events in order, the invariant holds, and exactly the devices that disconnected are unregistered |
| Daemon.Dictation.Run | dictate.py:338-364 | the keyboards are those `find_keyboards` yields; with none, the state, the trace and the registered set stay as they were; otherwise, when each round reads only devices still registered, the state and effects are those of handling every round's events in order, the invariant holds, and the registered set is the keyboards minus every device that disconnected |

## Left out

- Subprocesses are recorded as effects, never run: `which`, `Popen`, terminate and wait, the clipboard and typing tools, `notify-send`. A failing `which` counts as "not installed".
- Exceptions from the clipboard and typing tools are not modelled. In the source they happen inside the `try` of `stop_recording` (lines 292-307), so `except Exception` reports them as "Error" and the `finally` still deletes the file. The model treats these tools as always succeeding.
- Exceptions that escape `stop_recording` or `start_recording` are not modelled: from the recorder's `Popen` (line 260), from `notify` (line 236, called outside the `try` at lines 267, 281 and 288) and from `os.unlink` (line 321). Such an `OSError` reaches the `except OSError` of `run` and unregisters the device being read. The likeliest case is a missing `notify-send`, which `check_dependencies` does not check for: with notifications on, every start then raises after the recorder was spawned, the keyboard is unregistered, and `recording` stays true. The model treats all these calls as always succeeding.
- The background loader thread and `model_loaded.wait()`: the load outcome is an input. The loader's write lands between two events (each arrival may carry it) or is what a release waits for; a later load changes nothing (`Session.LoadWriteOnce`). A write landing in the middle of a transition is not modelled separately: `start_recording` reads `model_error` once, and `stop_recording` waits for the loader.
- Whisper inference, beam size and VAD: the segments, or the exception message, are an input.
- The `cudnn`/`cuda` hint and every other `print` and log message are left out.
- Configuration and argument parsing (`load_config`, `main`, `argparse`) are left out. The module-level settings become the `Config` value.
- `stop()`, SIGINT handling and SIGKILL, and the `running` flag are left out. `run`'s endless loop becomes a finite sequence of `select` rounds, each with the devices found ready.
- The `select` timeout and readiness are left out: each round lists the ready devices and what their reads yielded.
- `tempfile` naming comes from the world value. Each start's name is whatever the host picks.
- Notification icons and timeouts are left out; a notification is its title and body.
- Case folding covers ASCII letters only; Python's `lower`/`upper` are Unicode-aware.
- `pw-record`'s `s16` is the host's native byte order, while `S16_LE` is little-endian. The model reads both as 16-bit signed PCM without a byte order.
- Base64.Encode: only the standard alphabet with padding is modelled, as `base64.b64encode` uses.
- Capture.RecordCommand: its own contract states only the first and last arguments. The audio format is stated by `Capture.RecordCommandStream`.
