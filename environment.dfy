/** What the program learns from its host: the two display variables it
    reads from `os.environ`, and which tools `which <tool>` finds. */
module Environment {
  import opened Wrappers

  datatype Env = Env(waylandDisplay: Option<string>, display: Option<string>)

  /** The answers of the host: the environment and the set of commands for
      which `which` exits with status 0. */
  datatype Host = Host(env: Env, installed: set<string>)

  /** `os.environ.get(name)` is truthy: the variable is set and non-empty. */
  predicate IsSet(v: Option<string>) {
    v.Some? && v.value != ""
  }

  predicate Installed(h: Host, tool: string) {
    tool in h.installed
  }

  datatype DisplayServer = Wayland | X11 | Unknown

  /** The display server `main` logs: Wayland when WAYLAND_DISPLAY is set,
      otherwise X11 when DISPLAY is set, otherwise Unknown. */
  function Classify(env: Env): (d: DisplayServer)
    ensures d == Wayland <==> IsSet(env.waylandDisplay)
    ensures d == X11 <==> !IsSet(env.waylandDisplay) && IsSet(env.display)
    ensures d == Unknown <==> !IsSet(env.waylandDisplay) && !IsSet(env.display)
  {
    if IsSet(env.waylandDisplay) then Wayland
    else if IsSet(env.display) then X11
    else Unknown
  }
}
