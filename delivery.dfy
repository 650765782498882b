/** The two delivery sinks (`copy_to_clipboard`, `type_text`) and the
    start-up dependency check (`check_dependencies`). The sinks are modelled
    as the list of external actions they perform. */
module Delivery {
  import opened Wrappers
  import opened Environment
  import opened Capture
  import opened Base64

  datatype Action =
    | WriteTerminal(data: string)                 // written to stdout and flushed
    | PipeTo(argv: seq<string>, input: seq<byte>) // a tool fed on its standard input

  /** The OSC 52 "set clipboard" escape sequence: ESC ] 52 ; c ; then the
      base64 of the UTF-8 text, then BEL. */
  const OscPrefix: string := "\U{1B}]52;c;"
  const Bel: char := '\U{7}'

  function Osc52(text: string): string {
    OscPrefix + Encode(Utf8(text)) + [Bel]
  }

  /** The frame starts with the OSC 52 prefix, ends with BEL, and what lies
      between decodes back to the UTF-8 bytes of the text. */
  lemma Osc52Frame(text: string)
    ensures var f := Osc52(text);
      && |f| >= |OscPrefix| + 1
      && f[..|OscPrefix|] == OscPrefix
      && f[|f| - 1] == Bel
      && Decode(f[|OscPrefix|..|f| - 1]) == Some(Utf8(text))
  {
    var f := Osc52(text);
    assert f[|OscPrefix|..|f| - 1] == Encode(Utf8(text));
    DecodeEncode(Utf8(text));
  }

  /** `copy_to_clipboard(text)`: always the OSC 52 frame; then wl-copy under
      Wayland, or else xclip under X11, each only when `which` finds it. */
  function ClipboardActions(text: string, h: Host): (acts: seq<Action>)
    ensures 1 <= |acts| <= 2 && acts[0] == WriteTerminal(Osc52(text))
    ensures |acts| == 2 <==>
      (IsSet(h.env.waylandDisplay) && Installed(h, "wl-copy")) ||
      (!IsSet(h.env.waylandDisplay) && IsSet(h.env.display) && Installed(h, "xclip"))
    ensures |acts| == 2 ==> acts[1].PipeTo? && acts[1].input == Utf8(text) && |acts[1].argv| >= 1
    ensures |acts| == 2 ==> acts[1].argv[0] == (if IsSet(h.env.waylandDisplay) then "wl-copy" else "xclip")
  {
    var native :=
      match Classify(h.env)
      case Wayland =>
        if Installed(h, "wl-copy") then [PipeTo(["wl-copy"], Utf8(text))] else []
      case X11 =>
        if Installed(h, "xclip") then [PipeTo(["xclip", "-selection", "clipboard"], Utf8(text))] else []
      case Unknown => [];
    [WriteTerminal(Osc52(text))] + native
  }

  /** The typing tool: wtype under Wayland, xdotool otherwise (X11 or unknown). */
  function TypingTool(env: Env): string {
    if Classify(env) == Wayland then "wtype" else "xdotool"
  }

  /** `type_text(text)`: the typing command, the text as its last argument. */
  function TypeCommand(text: string, env: Env): (argv: seq<string>)
    ensures |argv| >= 2 && argv[0] == TypingTool(env) && argv[|argv| - 1] == text
  {
    if Classify(env) == Wayland then ["wtype", text]
    else ["xdotool", "type", "--clearmodifiers", text]
  }

  /** The entry reported when neither capture tool is installed. */
  const MissingRecorder := ("pw-record or arecord", "pipewire or alsa-utils")

  /** `check_dependencies`: the list of (command, package) pairs found
      missing, in the order the source appends them; the program exits with
      status 1 exactly when the list is non-empty. */
  method CheckDependencies(h: Host, autoType: bool) returns (missing: seq<(string, string)>)
    ensures missing == [] <==>
      SelectRecorder(h).Some? && (autoType ==> Installed(h, TypingTool(h.env)))
    ensures MissingRecorder in missing <==> SelectRecorder(h).None?
    ensures ("wtype", "wtype") in missing <==>
      autoType && IsSet(h.env.waylandDisplay) && !Installed(h, "wtype")
    ensures ("xdotool", "xdotool") in missing <==>
      autoType && !IsSet(h.env.waylandDisplay) && !Installed(h, "xdotool")
    ensures |missing| <= 2 && (|missing| == 2 ==> missing[0] == MissingRecorder)
    ensures forall x :: x in missing ==> x == MissingRecorder || x == ("wtype", "wtype") || x == ("xdotool", "xdotool")
    ensures forall j, k :: 0 <= j < k < |missing| ==> missing[j] != missing[k]
    ensures |missing| ==
      (if SelectRecorder(h).None? then 1 else 0) + (if autoType && !Installed(h, TypingTool(h.env)) then 1 else 0)
  {
    missing := [];
    if SelectRecorder(h).None? {
      missing := missing + [MissingRecorder];
    }
    if autoType {
      if Classify(h.env) == Wayland {
        if !Installed(h, "wtype") {
          missing := missing + [("wtype", "wtype")];
        }
      } else {
        if !Installed(h, "xdotool") {
          missing := missing + [("xdotool", "xdotool")];
        }
      }
    }
  }
}
