/** The capture backend: `get_audio_recorder` and `get_record_command`, and
    an independent reading of the command line that says which audio stream
    it asks the recorder for. */
module Capture {
  import opened Wrappers
  import opened Text
  import opened Environment

  datatype Recorder = Pipewire | Alsa

  /** `get_audio_recorder`: pw-record first, arecord second, else none. */
  function SelectRecorder(h: Host): (r: Option<Recorder>)
    ensures r == Some(Pipewire) <==> Installed(h, "pw-record")
    ensures r == Some(Alsa) <==> !Installed(h, "pw-record") && Installed(h, "arecord")
    ensures r == None <==> !Installed(h, "pw-record") && !Installed(h, "arecord")
  {
    if Installed(h, "pw-record") then Some(Pipewire)
    else if Installed(h, "arecord") then Some(Alsa)
    else None
  }

  /** The options `get_record_command` passes to each recorder. */
  const PipewireOptions := ["--format", "s16", "--rate", "16000", "--channels", "1"]
  const AlsaOptions := ["-f", "S16_LE", "-r", "16000", "-c", "1", "-t", "wav"]

  /** `get_record_command(output_file)` for the recorder the probe found;
      anything but pipewire, `None` included, takes the ALSA branch. */
  function RecordCommand(recorder: Option<Recorder>, outputFile: string): (argv: seq<string>)
    ensures |argv| >= 2 && argv[|argv| - 1] == outputFile
    ensures argv[0] == (if recorder == Some(Pipewire) then "pw-record" else "arecord")
  {
    if recorder == Some(Pipewire) then
      ["pw-record"] + PipewireOptions + [outputFile]
    else
      ["arecord"] + AlsaOptions + [outputFile]
  }

  /** The audio stream a recorder invocation produces. */
  datatype Stream = Stream(bits: nat, signed: bool, rate: nat, channels: nat, output: string)

  /** What the speech model needs: 16-bit signed mono PCM at 16 kHz. */
  function ModelStream(output: string): Stream {
    Stream(16, true, 16000, 1, output)
  }

  /** The option names of one recorder tool and its name for signed 16-bit. */
  datatype Syntax = Syntax(tool: string, formatFlag: string, rateFlag: string, channelsFlag: string, s16: string)

  const PipewireSyntax := Syntax("pw-record", "--format", "--rate", "--channels", "s16")
  const AlsaSyntax := Syntax("arecord", "-f", "-r", "-c", "S16_LE")

  /** The value following the first occurrence of `flag` among `opts`. */
  function FlagValue(opts: seq<string>, flag: string): Option<string>
    decreases |opts|
  {
    if |opts| < 2 then None
    else if opts[0] == flag then Some(opts[1])
    else FlagValue(opts[1..], flag)
  }

  /** A value is only ever found right after its flag. */
  lemma {:induction false} FlagValueFollowsFlag(opts: seq<string>, flag: string)
    ensures FlagValue(opts, flag).Some? ==>
      exists i :: 0 <= i < |opts| - 1 && opts[i] == flag && opts[i + 1] == FlagValue(opts, flag).value
    decreases |opts|
  {
    if |opts| >= 2 && opts[0] != flag {
      var r := FlagValue(opts[1..], flag);
      FlagValueFollowsFlag(opts[1..], flag);
      if r.Some? {
        var i :| 0 <= i < |opts| - 2 && opts[1..][i] == flag && opts[1..][i + 1] == r.value;
        assert opts[i + 1] == flag && opts[i + 2] == r.value;
      }
    }
  }

  /** Reads an argv as the recorder it names would: the tool, its format,
      rate and channel options, and the output file as last argument.
      `None` when the tool is unknown or an option is missing or unreadable. */
  function Interpret(argv: seq<string>): Option<Stream> {
    if |argv| < 2 then None
    else
      var syntax :=
        if argv[0] == PipewireSyntax.tool then Some(PipewireSyntax)
        else if argv[0] == AlsaSyntax.tool then Some(AlsaSyntax)
        else None;
      match syntax
      case None => None
      case Some(y) =>
        var opts := argv[1..|argv| - 1];
        var f, r, c := FlagValue(opts, y.formatFlag), FlagValue(opts, y.rateFlag), FlagValue(opts, y.channelsFlag);
        if f != Some(y.s16) || r.None? || c.None? then None
        else
          var rate, channels := ParseNat(r.value), ParseNat(c.value);
          if rate.None? || channels.None? then None
          else Some(Stream(16, true, rate.value, channels.value, argv[|argv| - 1]))
  }

  lemma ParseRate()
    ensures ParseNat("16000") == Some(16000)
    ensures ParseNat("1") == Some(1)
  {
    assert "16000"[..4] == "1600" && "1600"[..3] == "160" && "160"[..2] == "16" && "16"[..1] == "1";
  }

  lemma PipewireFlags()
    ensures FlagValue(PipewireOptions, "--format") == Some("s16")
    ensures FlagValue(PipewireOptions, "--rate") == Some("16000")
    ensures FlagValue(PipewireOptions, "--channels") == Some("1")
  {
    var opts := PipewireOptions;
    assert FlagValue(opts[2..], "--rate") == Some("16000");
    assert FlagValue(opts[4..], "--channels") == Some("1");
    assert FlagValue(opts[2..], "--channels") == Some("1");
  }

  lemma AlsaFlags()
    ensures FlagValue(AlsaOptions, "-f") == Some("S16_LE")
    ensures FlagValue(AlsaOptions, "-r") == Some("16000")
    ensures FlagValue(AlsaOptions, "-c") == Some("1")
  {
    var opts := AlsaOptions;
    assert FlagValue(opts[2..], "-r") == Some("16000");
    assert FlagValue(opts[2..], "-c") == Some("1") by {
      assert FlagValue(opts[4..], "-c") == Some("1");
    }
  }

  /** Whichever branch is taken, the command asks for 16-bit signed mono
      audio at 16000 Hz written to `outputFile`. */
  lemma RecordCommandStream(recorder: Option<Recorder>, outputFile: string)
    ensures Interpret(RecordCommand(recorder, outputFile)) == Some(ModelStream(outputFile))
  {
    ParseRate();
    var argv := RecordCommand(recorder, outputFile);
    var opts := argv[1..|argv| - 1];
    if recorder == Some(Pipewire) {
      assert opts == PipewireOptions;
      PipewireFlags();
    } else {
      assert opts == AlsaOptions;
      AlsaFlags();
    }
  }
}
