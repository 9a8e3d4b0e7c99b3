/**
 * Debug-tool synthesis: for each probe in the fixed order blackmagic, jlink, stlink, cmsis-dap
 * that a board lists among its upload protocols and has no descriptor for yet, build the
 * descriptor of its GDB server (J-Link server or OpenOCD) and tag it onboard/default.
 *
 * `AddTools` is the specification over values; `AddDefaultDebugTools` updates the board's debug
 * section in place, as the platform does, and is proved to leave what `AddTools` says.
 */
module DebugTools {
  import opened Wrappers

  /** How a GDB server is started: the package holding it, the executable and its arguments. */
  datatype Server = Server(package: string, executable: string, arguments: seq<string>)

  /**
   * One entry of `debug.tools`. `server` is `None` for the Black Magic Probe, which has hardware
   * ids and a debug-port requirement instead; `hwids` is empty and `requireDebugPort` false for
   * the others.
   */
  datatype Tool = Tool(
    server: Option<Server>,
    hwids: seq<(string, string)>,
    requireDebugPort: bool,
    onboard: bool,
    default: bool)

  /** The probes, in the order they are considered. */
  const PROBES: seq<string> := ["blackmagic", "jlink", "stlink", "cmsis-dap"]

  const STLINK_TRANSPORT: string := "transport select hla_swd; set WORKAREASIZE 0x4000"

  /** What synthesis reads from the board, and the host system name. */
  datatype Probing = Probing(
    boardId: string,
    uploadProtocols: seq<string>,
    jlinkDevice: string,             // "" when missing
    onboardTools: seq<string>,
    defaultTools: seq<string>,
    openocdExtraArgs: seq<string>,
    hostSystem: string)

  /** The fatal error for a board that lists jlink but names no J-Link device. */
  function MissingDeviceMessage(boardId: string): (msg: string) {
    "Missed J-Link Device ID for " + boardId
  }

  function JLinkExecutable(hostSystem: string): (exe: string) {
    if hostSystem == "Windows" then "JLinkGDBServerCL.exe" else "JLinkGDBServer"
  }

  function JLinkArguments(device: string): (args: seq<string>) {
    ["-singlerun", "-if", "SWD", "-select", "USB", "-device", device, "-port", "2331"]
  }

  /** Search path and interface configuration, stlink's transport, the target, then the extras. */
  function OpenOcdArguments(link: string, extras: seq<string>): (args: seq<string>) {
    ["-s", "$PACKAGE_DIR/scripts", "-f", "interface/" + link + ".cfg"]
    + (if link == "stlink" then ["-c", STLINK_TRANSPORT] else [])
    + ["-f", "target/nrf52.cfg"]
    + extras
  }

  /**
   * The descriptor synthesized for `link`: Black Magic Probe, J-Link server, or OpenOCD for any
   * other probe; onboard and default by membership in the board's lists.
   */
  function Descriptor(link: string, p: Probing): (t: Tool)
  {
    var base :=
      if link == "blackmagic" then Tool(None, [("0x1d50", "0x6018")], true, false, false)
      else if link == "jlink" then
        Tool(Some(Server("tool-jlink", JLinkExecutable(p.hostSystem), JLinkArguments(p.jlinkDevice))), [], false, false, false)
      else
        Tool(Some(Server("tool-openocd", "bin/openocd", OpenOcdArguments(link, p.openocdExtraArgs))), [], false, false, false);
    base.(onboard := link in p.onboardTools, default := link in p.defaultTools)
  }

  /**
   * What a synthesized descriptor holds: the flags by list membership; for J-Link its package,
   * the executable for the host system and the device right after `-device`; for OpenOCD the
   * search path and interface first, stlink's transport command before the target
   * configuration, and the board's extra arguments last.
   */
  lemma DescriptorShape(link: string, p: Probing)
    ensures var t := Descriptor(link, p);
      && t.onboard == (link in p.onboardTools) && t.default == (link in p.defaultTools)
      && (t.server.None? <==> link == "blackmagic")
      && (link == "blackmagic" ==> t.hwids == [("0x1d50", "0x6018")] && t.requireDebugPort)
    ensures link == "jlink" ==>
      var s := Descriptor(link, p).server.value;
      && s.package == "tool-jlink"
      && s.executable == (if p.hostSystem == "Windows" then "JLinkGDBServerCL.exe" else "JLinkGDBServer")
      && |s.arguments| == 9
      && s.arguments[..5] == ["-singlerun", "-if", "SWD", "-select", "USB"]
      && s.arguments[5..7] == ["-device", p.jlinkDevice]
      && s.arguments[7..] == ["-port", "2331"]
    ensures link != "blackmagic" && link != "jlink" ==>
      var s := Descriptor(link, p).server.value;
      var n := |s.arguments| - |p.openocdExtraArgs|;
      && s.package == "tool-openocd"
      && s.executable == "bin/openocd"
      && n >= 6
      && s.arguments[..4] == ["-s", "$PACKAGE_DIR/scripts", "-f", "interface/" + link + ".cfg"]
      && s.arguments[n - 2..n] == ["-f", "target/nrf52.cfg"]
      && s.arguments[n..] == p.openocdExtraArgs
      && (link == "stlink" <==> n == 8)
      && (link != "stlink" ==> n == 6)
      && (link == "stlink" ==> s.arguments[4..6] == ["-c", STLINK_TRANSPORT])
  {
  }

  /** The tool table after synthesis, and whether synthesis stopped on the missing J-Link device. */
  datatype Filled = Filled(tools: map<string, Tool>, outcome: Outcome<string>)

  /** Considers `links` in order, adding a descriptor for each listed probe that has none. */
  function AddTools(tools: map<string, Tool>, links: seq<string>, p: Probing): (f: Filled)
    decreases |links|
  {
    if links == [] then Filled(tools, Pass)
    else
      var link := links[0];
      if link !in p.uploadProtocols || link in tools then AddTools(tools, links[1..], p)
      else if link == "jlink" && p.jlinkDevice == "" then Filled(tools, Fail(MissingDeviceMessage(p.boardId)))
      else AddTools(tools[link := Descriptor(link, p)], links[1..], p)
  }

  /** Synthesis never changes nor removes a descriptor that was already there. */
  lemma {:induction false} AddToolsKeepsExisting(tools: map<string, Tool>, links: seq<string>, p: Probing)
    ensures var r := AddTools(tools, links, p).tools;
      forall k :: k in tools ==> k in r && r[k] == tools[k]
    decreases |links|
  {
    if links != [] {
      var link := links[0];
      if link !in p.uploadProtocols || link in tools {
        AddToolsKeepsExisting(tools, links[1..], p);
      } else if !(link == "jlink" && p.jlinkDevice == "") {
        AddToolsKeepsExisting(tools[link := Descriptor(link, p)], links[1..], p);
      }
    }
  }

  /**
   * Synthesis fails exactly when jlink is to be added without a device; when it succeeds the
   * table gains exactly the listed probes that had no descriptor, each with its synthesized one.
   */
  lemma {:induction false} AddToolsResult(tools: map<string, Tool>, links: seq<string>, p: Probing)
    ensures var f := AddTools(tools, links, p);
      && (f.outcome.Fail? <==> "jlink" in links && "jlink" in p.uploadProtocols && "jlink" !in tools && p.jlinkDevice == "")
      && (f.outcome.Fail? ==> f.outcome.error == MissingDeviceMessage(p.boardId))
      && (f.outcome.Pass? ==>
            && (forall k :: k in f.tools <==> k in tools || (k in links && k in p.uploadProtocols))
            && (forall k :: k in f.tools && k !in tools ==> f.tools[k] == Descriptor(k, p)))
    decreases |links|
  {
    if links != [] {
      var link := links[0];
      assert forall k :: k in links <==> k == link || k in links[1..];
      if link !in p.uploadProtocols || link in tools {
        AddToolsResult(tools, links[1..], p);
      } else if !(link == "jlink" && p.jlinkDevice == "") {
        var next := tools[link := Descriptor(link, p)];
        AddToolsResult(next, links[1..], p);
        AddToolsKeepsExisting(next, links[1..], p);
      }
    }
  }

  /**
   * For the fixed probe order: when synthesis fails on jlink the table holds what was there plus,
   * at most, the Black Magic Probe descriptor added before jlink was reached.
   */
  lemma FailureKeepsEarlierProbes(tools: map<string, Tool>, p: Probing)
    requires AddTools(tools, PROBES, p).outcome.Fail?
    ensures AddTools(tools, PROBES, p).tools
         == if "blackmagic" in p.uploadProtocols && "blackmagic" !in tools
            then tools["blackmagic" := Descriptor("blackmagic", p)] else tools
  {
  }

  // ---------------------------------------------------------------------------------------
  // The board manifest, whose debug section synthesis updates in place

  /** The `debug` section of a board manifest; `tools` is `None` while the key is missing. */
  class DebugSection {
    var tools: Option<map<string, Tool>>
    var jlinkDevice: string
    var onboardTools: seq<string>
    var defaultTools: seq<string>
    var openocdExtraArgs: seq<string>

    /** The empty section used when the manifest has none. */
    constructor Empty()
      ensures tools == None && jlinkDevice == ""
      ensures onboardTools == [] && defaultTools == [] && openocdExtraArgs == []
    {
      tools := None;
      jlinkDevice := "";
      onboardTools := [];
      defaultTools := [];
      openocdExtraArgs := [];
    }
  }

  /** A board: its id, `upload.protocols` and its `debug` section (`null` while missing). */
  class Board {
    const id: string
    var uploadProtocols: seq<string>
    var debug: DebugSection?

    constructor (id: string, uploadProtocols: seq<string>, debug: DebugSection?)
      ensures this.id == id && this.uploadProtocols == uploadProtocols && this.debug == debug
    {
      this.id := id;
      this.uploadProtocols := uploadProtocols;
      this.debug := debug;
    }
  }

  /** What synthesis reads from `board`. */
  ghost function ProbingOf(board: Board, hostSystem: string): (p: Probing)
    reads board, board.debug
  {
    if board.debug == null then Probing(board.id, board.uploadProtocols, "", [], [], [], hostSystem)
    else Probing(board.id, board.uploadProtocols, board.debug.jlinkDevice, board.debug.onboardTools,
                 board.debug.defaultTools, board.debug.openocdExtraArgs, hostSystem)
  }

  /** The board's tool table, empty while the section or its `tools` key is missing. */
  ghost function ToolsOf(board: Board): (tools: map<string, Tool>)
    reads board, board.debug
  {
    if board.debug == null then map[] else board.debug.tools.GetOr(map[])
  }

  /**
   * Fills the board's `debug.tools` in place. On success the board's debug section (its own, or
   * a fresh one when it had none) holds the synthesized table. When jlink lacks a device the
   * failure is reported; entries already written stay in the board's own section, and a fresh
   * section is dropped.
   */
  method AddDefaultDebugTools(board: Board, hostSystem: string) returns (outcome: Outcome<string>)
    modifies board, board.debug
    ensures var f := old(AddTools(ToolsOf(board), PROBES, ProbingOf(board, hostSystem)));
      && outcome == f.outcome
      && (board.debug != null ==> board.debug.tools == Some(f.tools))
    ensures outcome.Pass? ==> board.debug != null
    ensures outcome.Fail? || old(board.debug) != null ==> board.debug == old(board.debug)
    ensures board.debug != old(board.debug) ==> fresh(board.debug)
    ensures ProbingOf(board, hostSystem) == old(ProbingOf(board, hostSystem))
  {
    var debug: DebugSection;
    if board.debug == null {
      debug := new DebugSection.Empty();
    } else {
      debug := board.debug;
    }
    if debug.tools.None? {
      debug.tools := Some(map[]);
    }
    var device, onboardTools, defaultTools, extras :=
      debug.jlinkDevice, debug.onboardTools, debug.defaultTools, debug.openocdExtraArgs;
    ghost var p := Probing(board.id, board.uploadProtocols, device, onboardTools, defaultTools, extras, hostSystem);
    var tools := debug.tools.value;
    ghost var target := AddTools(tools, PROBES, p);

    var i := 0;
    var failed := false;
    while i < |PROBES|
      modifies {}
      invariant 0 <= i <= |PROBES|
      invariant AddTools(tools, PROBES[i..], p) == target
    {
      var link := PROBES[i];
      assert PROBES[i..][0] == link && PROBES[i..][1..] == PROBES[i + 1..];
      if link in board.uploadProtocols && link !in tools {
        var tool: Tool;
        if link == "blackmagic" {
          tool := Tool(None, [("0x1d50", "0x6018")], true, false, false);
        } else if link == "jlink" {
          if device == "" {
            failed := true;
            break;
          }
          var server := Server("tool-jlink", JLinkExecutable(hostSystem), JLinkArguments(device));
          tool := Tool(Some(server), [], false, false, false);
        } else {
          var serverArgs := ["-s", "$PACKAGE_DIR/scripts", "-f", "interface/" + link + ".cfg"];
          if link == "stlink" {
            serverArgs := serverArgs + ["-c", STLINK_TRANSPORT];
          }
          serverArgs := serverArgs + ["-f", "target/nrf52.cfg"];
          assert serverArgs + extras == OpenOcdArguments(link, extras);
          tool := Tool(Some(Server("tool-openocd", "bin/openocd", serverArgs)), [], false, false, false);
          // The list just stored is the one extended with the extras, so they reach the descriptor.
          var stored := tool.server.value;
          tool := tool.(server := Some(stored.(arguments := stored.arguments + extras)));
        }
        tool := tool.(onboard := link in onboardTools, default := link in defaultTools);
        assert tool == Descriptor(link, p);
        tools := tools[link := tool];
      }
      i := i + 1;
    }
    debug.tools := Some(tools);
    if failed {
      outcome := Fail(MissingDeviceMessage(board.id));
      return;
    }
    board.debug := debug;
    outcome := Pass;
  }
}
