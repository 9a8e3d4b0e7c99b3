# nRF52 platform: package selection and debug-tool synthesis

This project models the decision logic of a PlatformIO development platform for Nordic nRF52
boards (`P411Platform` in `link.py`) and proves properties of it in Dafny. The logic has three
parts.

- **Package selection** (`Packages`, `packages.dfy`). This is `configure_default_packages`. An
  ordered cascade of rules rewrites the platform's package table (name → version and optional
  flag) and framework table in place. Its inputs are the board id, the board's configuration,
  the requested frameworks, the build targets and the upload/debug variables. The rules cover:
  - the adafruit BSP's arduino package;
  - the mbed toolchain pin, and the legacy mbed pin for deprecated boards;
  - zephyr activation, including gperf on non-Windows systems;
  - the `nano33ble` overrides;
  - the lifecycle of `tool-nrfjprog`;
  - the removal of `tool-jlink` when nothing asks for J-Link.

  `Platform` holds the two tables as fields. Its methods update them step by step and are proved
  to end in the tables given by the specification functions `SelectPackages` and
  `SelectFrameworks`. The lemmas state what the cascade promises, including that a second pass
  with the same context changes nothing.
- **Debug-tool synthesis** (`DebugTools`, `debug_tools.dfy`). This is `_add_default_debug_tools`.
  It considers the probes in the fixed order blackmagic, jlink, stlink, cmsis-dap. A probe gets a
  descriptor when the board lists it among its upload protocols and has no descriptor for it yet.
  The descriptor is a Black Magic Probe entry, a J-Link GDB server, or OpenOCD, with the
  onboard/default flags. `AddDefaultDebugTools` updates the board's `debug` section in place and
  is proved to leave what the value-level `AddTools` says.
- **Speed refinement** (`DebugOptions`, `debug_options.dfy`). This is `configure_debug_options`.
  It is a function on option values, so the source's deep copy is implicit. It appends
  `-c "adapter speed N"` for OpenOCD servers and `-speed N` for J-Link servers. The choice comes
  from a case-insensitive match on the executable name.

`Wrappers` (`Option`, `Outcome`) and `Strings` (prefix test, substring test, ASCII lower-casing)
are helpers.

Modelling choices:
- A board id of `""` means "no board". A missing J-Link device is `""`. Missing lists are `[]`.
- The board's `debug.default_tools` is a list, and the "jlink" test on it is list membership.
  The upload protocol and the variables are strings, tested by substring as the source does.
- Two operating-system inputs stay separate, as in the source. The system type string is tested
  for the substring "windows" (gperf rule). The host system name is compared with "Windows"
  (J-Link executable).
- The rules index some packages and the arduino framework without checking that they exist.
  Those lookups are preconditions: `PackagesReady` and `FrameworksReady`.
- A board that lists jlink, has no jlink descriptor yet and has no device gives
  `Fail("Missed J-Link Device ID for <id>")`. A board that already has a jlink descriptor skips
  the probe and so never fails, whatever its device.
  If the board had its own `debug` section, the entries written before the failure stay in it,
  as with the source's in-place dictionary. A section created for a board without one is dropped.
- The OpenOCD argument list is stored in the descriptor before the board's
  `openocd_extra_args` are appended to it. Because the stored list is the same object, the extras
  end up last in the descriptor's arguments. The method writes this as "store, then append to the
  stored arguments".

Three behaviours of the code worth noting:
- For bootloader/erase targets, the package made required is `tool-nrfjprog`. An explicit upload
  protocol other than nrfjprog removes `tool-nrfjprog`; the J-Link tool has its own removal rule.
- A J-Link server with no speed gets no `-speed 4000`. The `or "4000"` fallback sits under an
  `if adapter_speed:` guard, so it never fires (`SpeedArguments`).
- Synthesis writes into the board's own `debug` section. It does not work on a copy.

## Model

| member | source | states |
|---|---|---|
| Packages.Platform.ConfigureDefaultPackages | link.py:16-80 | The pass leaves exactly the package and framework tables the rule cascade prescribes, given the lookups the code does without checking. |
| Packages.Platform.ApplyBoardRules | link.py:20-56 | With a board, the BSP, mbed, zephyr and nano33ble rules run in that order. Later version pins overwrite earlier ones. |
| Packages.Platform.PinMbedVersions | link.py:30-37 | Applying mbed pins framework-mbed to the legacy version only for a deprecated board, then pins the toolchain to the mbed version. |
| Packages.Platform.ActivateZephyr | link.py:39-49 | The loop over the table clears the optional flag of exactly the zephyr packages. Then the toolchain gets the zephyr pin, and gperf is required unless the system type names windows. |
| Packages.SelectionEntries | link.py:16-77 | After a pass, a name is present iff it was present and neither removal rule hit it. Its version is the last pin written for it. Its optional flag is cleared exactly when some rule requires it. |
| Packages.SelectionEntry | link.py:16-77 | The single-entry form of the characterisation above, traced through the five rules. |
| Packages.MbedRuleEntries | link.py:30-37 | The mbed rule keeps the table's keys and optional flags. It only changes the toolchain version and, for a deprecated board, the framework-mbed version. |
| Packages.ZephyrRuleEntries | link.py:39-49 | The zephyr rule keeps the keys. It only clears the flags of zephyr packages and, off Windows, of gperf. It only changes the toolchain version. |
| Packages.LaterRulesEntries | link.py:51-77 | The nano33ble, nrfjprog and J-Link rules only pin the toolchain and require nrfjprog. They remove exactly the nrfjprog and J-Link packages their conditions name. |
| Packages.NrfjprogLifecycle | link.py:58-62 | A bootloader/erase target leaves tool-nrfjprog present and required. Otherwise an explicit upload protocol other than nrfjprog removes it. Otherwise, including without a board, it is unchanged. |
| Packages.JLinkLifecycle | link.py:65-77 | tool-jlink survives iff it was present and some upload/debug variable, or the board's default tools or upload protocol, names jlink. A survivor is unchanged. |
| Packages.ZephyrActivation | link.py:39-49 | With zephyr, every zephyr package is required and the toolchain is at ~1.80201.0. gperf is made required when the system type lacks "windows", and is otherwise left as it was. No other flag except nrfjprog's changes. |
| Packages.VersionPins | link.py:30-56 | Last writer wins: zephyr or nano33ble pin the toolchain to ~1.80201.0, otherwise mbed pins it to ~1.90201.0. framework-mbed gets ~6.51506.0 only for a deprecated board. Other versions are unchanged. |
| Packages.FrameworkSelection | link.py:25-56 | The adafruit BSP points arduino at A411. nano33ble replaces arduino's package and script, winning over the BSP rule. No other framework entry changes. |
| Packages.SelectionIdempotent | link.py:16-77 | A second pass with the same context is possible and changes neither table. |
| DebugTools.AddDefaultDebugTools | link.py:93-154 | It fills the board's debug tools in place as AddTools prescribes. It reports the missing J-Link device and keeps the board's other debug settings. On success the board has a debug section. |
| DebugTools.AddToolsKeepsExisting | link.py:97-103 | Synthesis never overwrites or removes a descriptor that was already present. |
| DebugTools.AddToolsResult | link.py:101-113 | Synthesis fails, with the board-naming message, iff jlink is listed, has no descriptor and has no device. On success it adds exactly the listed probes that had none, each with its synthesized descriptor. |
| DebugTools.FailureKeepsEarlierProbes | link.py:101-113 | When synthesis fails on jlink, the table holds what it held before plus at most the Black Magic Probe descriptor. |
| DebugTools.DescriptorShape | link.py:105-151 | Black Magic Probe: its hwids and the debug-port flag. J-Link: package tool-jlink, the per-host executable, the full nine-element argument list (-singlerun -if SWD -select USB, then -device and the device, then -port 2331). OpenOCD: search path and interface first, stlink's transport (and only stlink's) before the target config, nothing else before the extras, extras last. Flags by list membership. |
| DebugOptions.ConfigureDebugOptions | link.py:156-171 | Only the server arguments may change: the input arguments stay a prefix of the result's. Without a speed the options are returned unchanged. |
| DebugOptions.SpeedArguments | link.py:158-169 | What gets appended: adapter speed if the lower-cased executable contains "openocd", else -speed with the requested value if it contains "jlink", else nothing. The "4000" fallback is never used. |
| DebugOptions.CaseInsensitiveDispatch | link.py:161-167 | The executable match ignores case: lower-casing the executable changes nothing that is appended. |
| DebugOptions.RefinesJLinkServer | link.py:166-169 | With a speed, a synthesized J-Link server, under either host executable name, gets -speed and the speed. |
| DebugOptions.RefinesOpenOcdServer | link.py:162-165 | With a speed, a synthesized stlink or cmsis-dap OpenOCD server gets the adapter speed command. |

## Left out

- `is_embedded` (link.py:13-14) returns a constant. No rule depends on it.
- `get_boards` (link.py:82-91) only applies `_add_default_debug_tools` to each board the host
  library returns. The host library is not part of this model.
- The call to the base class `configure_default_packages` (link.py:79-80) is host-library code.
  The model ends with the tables the rules leave.
- Reading `misc/mbed_deprecated_boards.json` (link.py:31-35) is file I/O. The deprecated boards
  are an input set, empty when the file is missing.
- `self.board_config(board)`, `get_systype()` and `platform.system()` are host and OS queries.
  Their answers are inputs: `BoardConfig`, the system type string and the host system name.
- The dictionaries are modelled as records holding only the keys the code reads or writes:
  packages hold `version` and `optional`, frameworks `package` and `script`, debug options
  `speed` and `server` (a server its `package`, `executable` and `arguments`), and a board's debug
  section `tools`, `jlink_device`, `onboard_tools`, `default_tools` and `openocd_extra_args`. The
  source carries any other key through unchanged; the model does not represent such keys. A
  package record without an `optional` key is not represented.
- `debug.default_tools` is modelled only as a list. If a board gave it as a string, the source
  would test "jlink" by substring instead.
- `configure_debug_options` ignores its `ide_data` argument, so the model has none. Its KeyError
  when a server lacks an `arguments` key is not represented: every `Server` has arguments.
- `str.lower()` is modelled on ASCII letters only.
- The speed is modelled as a string. An empty string stands for every falsy speed.
