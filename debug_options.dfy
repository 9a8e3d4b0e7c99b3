/**
 * Speed refinement of a debug session: the board's static debug options are copied and, when an
 * adapter speed is requested, the speed arguments of the server are appended to the copy,
 * chosen by a case-insensitive match on the server executable's name.
 *
 * Options are values, so the copy is implicit and the static options are never changed.
 */
module DebugOptions {
  import opened Wrappers
  import opened Strings
  import opened DebugTools

  /** The debug options of one session: the requested speed ("" when none) and the server. */
  datatype Options = Options(speed: string, server: Option<Server>)

  /** The server's executable name, lower-cased; "" without a server. */
  function ExecutableKey(opts: Options): (key: string) {
    if opts.server.None? then "" else ToLower(opts.server.value.executable)
  }

  /**
   * The session options: OpenOCD gets `adapter speed`, a J-Link server `-speed`; nothing is
   * appended without a speed, without a server, or for any other executable.
   */
  function ConfigureDebugOptions(initial: Options): (r: Options)
    ensures r.speed == initial.speed
    ensures r.server.Some? <==> initial.server.Some?
    ensures initial.speed == "" ==> r == initial
    ensures initial.server.Some? ==>
      var before := initial.server.value;
      var after := r.server.value;
      && after.package == before.package && after.executable == before.executable
      && |after.arguments| >= |before.arguments|
      && after.arguments[..|before.arguments|] == before.arguments
  {
    if initial.speed == "" then initial
    else
      var exe := ExecutableKey(initial);
      if Contains(exe, "openocd") then
        var s := initial.server.value;
        initial.(server := Some(s.(arguments := s.arguments + ["-c", "adapter speed " + initial.speed])))
      else if Contains(exe, "jlink") then
        var s := initial.server.value;
        initial.(server := Some(s.(arguments := s.arguments + ["-speed", if initial.speed != "" then initial.speed else "4000"])))
      else initial
  }

  /** The arguments the refinement appends to the server's own. */
  function AppendedArguments(initial: Options): (extra: seq<string>)
    requires initial.server.Some?
    ensures ConfigureDebugOptions(initial).server.value.arguments
         == initial.server.value.arguments + extra
  {
    var args := initial.server.value.arguments;
    var refined := ConfigureDebugOptions(initial).server.value.arguments;
    refined[|args|..]
  }

  /**
   * Which arguments are appended: the adapter-speed command for an executable whose lower-cased
   * name contains "openocd", else `-speed` with the requested value for one containing "jlink",
   * else none. The J-Link fallback "4000" is never used: without a speed nothing is appended.
   */
  lemma SpeedArguments(initial: Options)
    requires initial.server.Some?
    ensures var extra := AppendedArguments(initial);
      var exe := ToLower(initial.server.value.executable);
      && (initial.speed == "" ==> extra == [])
      && (initial.speed != "" && Contains(exe, "openocd") ==> extra == ["-c", "adapter speed " + initial.speed])
      && (initial.speed != "" && !Contains(exe, "openocd") && Contains(exe, "jlink")
          ==> extra == ["-speed", initial.speed])
      && (!Contains(exe, "openocd") && !Contains(exe, "jlink") ==> extra == [])
  {
  }

  /** The match on the executable ignores case: renaming it to its lower-case form changes nothing appended. */
  lemma {:induction false} CaseInsensitiveDispatch(initial: Options)
    requires initial.server.Some?
    ensures var s := initial.server.value;
      var lowered := initial.(server := Some(s.(executable := ToLower(s.executable))));
      AppendedArguments(lowered) == AppendedArguments(initial)
  {
    ToLowerIdempotent(initial.server.value.executable);
  }

  /** Lower-casing a name with no 'o' of either case yields a name without "openocd". */
  lemma LoweredWithoutO(name: string)
    requires 'o' !in name && 'O' !in name
    ensures !Contains(ToLower(name), "openocd")
  {
    var key := ToLower(name);
    forall i | 0 <= i < |key|
      ensures key[i] != 'o'
    {
      assert name[i] in name;
    }
    NotContainsWithoutFirstChar(key, "openocd");
  }

  /** Both J-Link server names match "jlink" and not "openocd" once lower-cased. */
  lemma JLinkExecutableMatches(hostSystem: string)
    ensures var key := ToLower(JLinkExecutable(hostSystem));
      Contains(key, "jlink") && !Contains(key, "openocd")
  {
    var exe := JLinkExecutable(hostSystem);
    var key := ToLower(exe);
    assert key[..5] == "jlink";
    assert OccursAt(key, "jlink", 0);
    LoweredWithoutO(exe);
  }

  /** The OpenOCD server name matches "openocd" once lower-cased. */
  lemma OpenOcdExecutableMatches()
    ensures Contains(ToLower("bin/openocd"), "openocd")
  {
    var exe := "bin/openocd";
    ToLowerWithoutCapitals(exe);
    assert OccursAt(exe, "openocd", 4);
  }

  /** With a speed, the synthesized J-Link server gets `-speed <speed>`, on any host. */
  lemma RefinesJLinkServer(p: Probing, speed: string)
    requires speed != ""
    ensures var opts := Options(speed, Descriptor("jlink", p).server);
      opts.server.Some? && AppendedArguments(opts) == ["-speed", speed]
  {
    DescriptorShape("jlink", p);
    JLinkExecutableMatches(p.hostSystem);
  }

  /** With a speed, the synthesized OpenOCD servers get `adapter speed <speed>`. */
  lemma RefinesOpenOcdServer(link: string, p: Probing, speed: string)
    requires link == "stlink" || link == "cmsis-dap"
    requires speed != ""
    ensures var opts := Options(speed, Descriptor(link, p).server);
      opts.server.Some? && AppendedArguments(opts) == ["-c", "adapter speed " + speed]
  {
    DescriptorShape(link, p);
    OpenOcdExecutableMatches();
  }
}
