/** Keyboard discovery: `find_keyboards` keeps the input devices that
    report key events including KEY_A or KEY_SPACE. */
module Devices {
  import opened Keys

  /** An input device: its path, its name and its capabilities (event type
      to the codes it can emit). */
  datatype Device = Device(path: string, name: string, caps: map<int, set<int>>)

  /** The outcome of opening one path of `evdev.list_devices()` and asking
      for its capabilities; `Inaccessible` when either raised
      PermissionError or OSError. */
  datatype Probe = Opened(device: Device) | Inaccessible

  /** The keyboard heuristic: EV_KEY capability with KEY_A or KEY_SPACE. */
  predicate IsKeyboard(e: Ecodes, caps: map<int, set<int>>)
    requires WellFormed(e)
  {
    e.evKey in caps && (e.codeOf["KEY_A"] in caps[e.evKey] || e.codeOf["KEY_SPACE"] in caps[e.evKey])
  }

  predicate KeyboardProbe(e: Ecodes, p: Probe)
    requires WellFormed(e)
  {
    p.Opened? && IsKeyboard(e, p.device.caps)
  }

  /** The keyboards among the probes, in probing order. */
  function Keyboards(e: Ecodes, probes: seq<Probe>): seq<Device>
    requires WellFormed(e)
  {
    if probes == [] then []
    else
      var last := probes[|probes| - 1];
      Keyboards(e, probes[..|probes| - 1]) + (if KeyboardProbe(e, last) then [last.device] else [])
  }

  /** A device is found exactly when some probe opened it and it passes the
      keyboard heuristic. */
  lemma {:induction false} KeyboardsMembership(e: Ecodes, probes: seq<Probe>, d: Device)
    requires WellFormed(e)
    ensures d in Keyboards(e, probes) <==>
      exists i :: 0 <= i < |probes| && probes[i] == Opened(d) && IsKeyboard(e, d.caps)
  {
    if probes != [] {
      var init := probes[..|probes| - 1];
      KeyboardsMembership(e, init, d);
      if exists i :: 0 <= i < |init| && init[i] == Opened(d) && IsKeyboard(e, d.caps) {
        var i :| 0 <= i < |init| && init[i] == Opened(d) && IsKeyboard(e, d.caps);
        assert probes[i] == Opened(d);
      }
      if exists i :: 0 <= i < |probes| && probes[i] == Opened(d) && IsKeyboard(e, d.caps) {
        var i :| 0 <= i < |probes| && probes[i] == Opened(d) && IsKeyboard(e, d.caps);
        if i < |init| { assert init[i] == Opened(d); }
      }
    }
  }

  /** The number of keyboards found never exceeds the number of paths. */
  lemma {:induction false} KeyboardsBound(e: Ecodes, probes: seq<Probe>)
    requires WellFormed(e)
    ensures |Keyboards(e, probes)| <= |probes|
  {
    if probes != [] {
      KeyboardsBound(e, probes[..|probes| - 1]);
    }
  }

  /** `find_keyboards()`: appends each accessible keyboard while walking
      the device paths. */
  method FindKeyboards(e: Ecodes, probes: seq<Probe>) returns (keyboards: seq<Device>)
    requires WellFormed(e)
    ensures keyboards == Keyboards(e, probes)
    ensures forall k :: 0 <= k < |keyboards| ==> IsKeyboard(e, keyboards[k].caps)
  {
    keyboards := [];
    var i := 0;
    while i < |probes|
      invariant 0 <= i <= |probes|
      invariant keyboards == Keyboards(e, probes[..i])
      invariant forall k :: 0 <= k < |keyboards| ==> IsKeyboard(e, keyboards[k].caps)
    {
      assert probes[..i + 1][..i] == probes[..i];
      match probes[i] {
        case Opened(device) =>
          if e.evKey in device.caps {
            var keys := device.caps[e.evKey];
            if e.codeOf["KEY_A"] in keys || e.codeOf["KEY_SPACE"] in keys {
              keyboards := keyboards + [device];
            }
          }
        case Inaccessible =>
      }
      i := i + 1;
    }
    assert probes[..i] == probes;
  }
}
