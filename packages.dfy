/**
 * Package selection of the nRF52 platform: an ordered cascade of rules that rewrites the
 * platform's package table (name -> version and optional flag) and framework table in place,
 * from the board id, the board's configuration, the requested frameworks, the build targets
 * and the upload/debug variables.
 *
 * The specification functions below give the table each rule leaves behind; the class
 * `Platform` updates its tables step by step and is proved to end where `SelectPackages`
 * and `SelectFrameworks` say; the lemmas state what the cascade promises.
 */
module Packages {
  import opened Wrappers
  import opened Strings

  /** One entry of the package table. */
  datatype Package = Package(version: string, optional: bool)

  /** One entry of the framework table: the package that provides it and its build script. */
  datatype Framework = Framework(package: string, script: string)

  /**
   * The build variables the rules read. `board == ""` stands for "no board"; the two protocol
   * variables are `None` when they are not set.
   */
  datatype Variables = Variables(
    board: string,
    pioframework: seq<string>,
    uploadProtocol: Option<string>,
    debugTool: Option<string>)

  /** The keys of the board's configuration that the rules read. */
  datatype BoardConfig = BoardConfig(
    uploadProtocol: Option<string>,      // upload.protocol
    bspName: Option<string>,             // build.bsp.name
    debugDefaultTools: seq<string>)      // debug.default_tools, empty when missing

  /**
   * What the host supplies besides the variables: the configuration of the board, the list of
   * boards whose mbed support is deprecated (empty when its file is missing) and the system type.
   */
  datatype Environment = Environment(config: BoardConfig, deprecatedBoards: set<string>, systype: string)

  /** One resolution pass: variables, targets and environment. */
  datatype Context = Context(vars: Variables, targets: seq<string>, env: Environment)

  const TOOLCHAIN: string := "toolchain-gccarmnoneeabi"
  const MBED: string := "framework-mbed"
  const GPERF: string := "tool-gperf"
  const NRFJPROG: string := "tool-nrfjprog"
  const JLINK: string := "tool-jlink"
  const ARDUINO: string := "arduino"

  const MBED_TOOLCHAIN_VERSION: string := "~1.90201.0"
  const ZEPHYR_TOOLCHAIN_VERSION: string := "~1.80201.0"
  const LEGACY_MBED_VERSION: string := "~6.51506.0"

  const ADAFRUIT_ARDUINO_PACKAGE: string := "A411"
  const MBED_ARDUINO_PACKAGE: string := "framework-arduino-mbed"
  const MBED_ARDUINO_SCRIPT: string := "builder/frameworks/arduino/mbed-core/arduino-core-mbed.py"

  // ---------------------------------------------------------------------------------------
  // Conditions the rules test

  predicate HasBoard(ctx: Context) {
    ctx.vars.board != ""
  }

  /** The upload protocol of the pass: the variable, else the board's, and "" without a board. */
  function UploadProtocol(ctx: Context): (protocol: string) {
    if !HasBoard(ctx) then ""
    else ctx.vars.uploadProtocol.GetOr(ctx.env.config.uploadProtocol.GetOr(""))
  }

  predicate UsesAdafruitBsp(ctx: Context) {
    HasBoard(ctx) && ctx.env.config.bspName.GetOr("nrf5") == "adafruit"
  }

  predicate WantsMbed(ctx: Context) {
    HasBoard(ctx) && "mbed" in ctx.vars.pioframework
  }

  predicate IsDeprecatedMbedBoard(ctx: Context) {
    WantsMbed(ctx) && ctx.vars.board in ctx.env.deprecatedBoards
  }

  predicate WantsZephyr(ctx: Context) {
    HasBoard(ctx) && "zephyr" in ctx.vars.pioframework
  }

  /** gperf is POSIX-only: it is required for zephyr unless the system type names windows. */
  predicate NeedsGperf(ctx: Context) {
    WantsZephyr(ctx) && !Contains(ctx.env.systype, "windows")
  }

  predicate IsNano33Ble(ctx: Context) {
    ctx.vars.board == "nano33ble"
  }

  predicate HasProgrammerTarget(ctx: Context) {
    "bootloader" in ctx.targets || "erase" in ctx.targets
  }

  /** An explicit upload protocol other than nrfjprog, and no bootloader/erase target. */
  predicate DropsNrfjprog(ctx: Context) {
    !HasProgrammerTarget(ctx) && UploadProtocol(ctx) != "" && UploadProtocol(ctx) != "nrfjprog"
  }

  /** Some variable or, with a board, some board setting mentions "jlink". */
  predicate WantsJLink(ctx: Context) {
    Contains(ctx.vars.uploadProtocol.GetOr(""), "jlink")
    || Contains(ctx.vars.debugTool.GetOr(""), "jlink")
    || (HasBoard(ctx)
        && ("jlink" in ctx.env.config.debugDefaultTools
            || Contains(ctx.env.config.uploadProtocol.GetOr(""), "jlink")))
  }

  predicate IsZephyrPackage(name: string) {
    StartsWith(name, "framework-zephyr-") || name in {"tool-cmake", "tool-dtc", "tool-ninja"}
  }

  /** The packages the rules index without checking that they exist. */
  predicate PackagesReady(pkgs: map<string, Package>, ctx: Context) {
    && (WantsMbed(ctx) || WantsZephyr(ctx) || IsNano33Ble(ctx) ==> TOOLCHAIN in pkgs)
    && (IsDeprecatedMbedBoard(ctx) ==> MBED in pkgs)
    && (NeedsGperf(ctx) ==> GPERF in pkgs)
    && (HasProgrammerTarget(ctx) ==> NRFJPROG in pkgs)
  }

  /** The framework the rules index without checking that it exists. */
  predicate FrameworksReady(fws: map<string, Framework>, ctx: Context) {
    UsesAdafruitBsp(ctx) || IsNano33Ble(ctx) ==> ARDUINO in fws
  }

  // ---------------------------------------------------------------------------------------
  // The rules, one table transformation each, in the order the platform applies them

  function PinVersion(pkgs: map<string, Package>, name: string, version: string): (r: map<string, Package>)
    requires name in pkgs
  {
    pkgs[name := pkgs[name].(version := version)]
  }

  function Require(pkgs: map<string, Package>, name: string): (r: map<string, Package>)
    requires name in pkgs
  {
    pkgs[name := pkgs[name].(optional := false)]
  }

  function RequireZephyrPackages(pkgs: map<string, Package>): (r: map<string, Package>) {
    map p | p in pkgs :: if IsZephyrPackage(p) then pkgs[p].(optional := false) else pkgs[p]
  }

  function MbedRule(pkgs: map<string, Package>, ctx: Context): (r: map<string, Package>)
    requires PackagesReady(pkgs, ctx)
  {
    if !WantsMbed(ctx) then pkgs
    else
      var legacy := if IsDeprecatedMbedBoard(ctx) then PinVersion(pkgs, MBED, LEGACY_MBED_VERSION) else pkgs;
      PinVersion(legacy, TOOLCHAIN, MBED_TOOLCHAIN_VERSION)
  }

  function ZephyrRule(pkgs: map<string, Package>, ctx: Context): (r: map<string, Package>)
    requires PackagesReady(pkgs, ctx)
  {
    if !WantsZephyr(ctx) then pkgs
    else
      var pinned := PinVersion(RequireZephyrPackages(pkgs), TOOLCHAIN, ZEPHYR_TOOLCHAIN_VERSION);
      if NeedsGperf(ctx) then Require(pinned, GPERF) else pinned
  }

  function Nano33BleRule(pkgs: map<string, Package>, ctx: Context): (r: map<string, Package>)
    requires PackagesReady(pkgs, ctx)
  {
    if IsNano33Ble(ctx) then PinVersion(pkgs, TOOLCHAIN, ZEPHYR_TOOLCHAIN_VERSION) else pkgs
  }

  function NrfjprogRule(pkgs: map<string, Package>, ctx: Context): (r: map<string, Package>)
    requires PackagesReady(pkgs, ctx)
  {
    if HasProgrammerTarget(ctx) then Require(pkgs, NRFJPROG)
    else if DropsNrfjprog(ctx) && NRFJPROG in pkgs then pkgs - {NRFJPROG}
    else pkgs
  }

  function JLinkRule(pkgs: map<string, Package>, ctx: Context): (r: map<string, Package>) {
    if !WantsJLink(ctx) && JLINK in pkgs then pkgs - {JLINK} else pkgs
  }

  /** The package table after one resolution pass. */
  function SelectPackages(pkgs: map<string, Package>, ctx: Context): (r: map<string, Package>)
    requires PackagesReady(pkgs, ctx)
  {
    var afterMbed := MbedRule(pkgs, ctx);
    var afterZephyr := ZephyrRule(afterMbed, ctx);
    var afterBoard := Nano33BleRule(afterZephyr, ctx);
    JLinkRule(NrfjprogRule(afterBoard, ctx), ctx)
  }

  /** The framework table after one resolution pass. */
  function SelectFrameworks(fws: map<string, Framework>, ctx: Context): (r: map<string, Framework>)
    requires FrameworksReady(fws, ctx)
  {
    var afterBsp := if UsesAdafruitBsp(ctx) then fws[ARDUINO := fws[ARDUINO].(package := ADAFRUIT_ARDUINO_PACKAGE)] else fws;
    if IsNano33Ble(ctx)
    then afterBsp[ARDUINO := afterBsp[ARDUINO].(package := MBED_ARDUINO_PACKAGE, script := MBED_ARDUINO_SCRIPT)]
    else afterBsp
  }

  // ---------------------------------------------------------------------------------------
  // Reference definitions: what each entry of the resolved table is, rule by rule

  /** The package is removed by the nrfjprog rule or by the J-Link rule. */
  predicate Removed(ctx: Context, name: string) {
    (name == NRFJPROG && DropsNrfjprog(ctx)) || (name == JLINK && !WantsJLink(ctx))
  }

  /** The package is made required by the zephyr rule or by a bootloader/erase target. */
  predicate MadeRequired(ctx: Context, name: string) {
    RequiredForZephyr(ctx, name) || (HasProgrammerTarget(ctx) && name == NRFJPROG)
  }

  /** The package is made required by the zephyr rule. */
  predicate RequiredForZephyr(ctx: Context, name: string) {
    (WantsZephyr(ctx) && IsZephyrPackage(name)) || (NeedsGperf(ctx) && name == GPERF)
  }

  /** The version the last rule that pins `name` writes, else the version it had. */
  function PinnedVersion(ctx: Context, name: string, version: string): (pinned: string) {
    if name == TOOLCHAIN && (WantsZephyr(ctx) || IsNano33Ble(ctx)) then ZEPHYR_TOOLCHAIN_VERSION
    else if name == TOOLCHAIN && WantsMbed(ctx) then MBED_TOOLCHAIN_VERSION
    else if name == MBED && IsDeprecatedMbedBoard(ctx) then LEGACY_MBED_VERSION
    else version
  }

  /** The names of the rules' fixed packages are pairwise distinct and none is a zephyr package. */
  lemma FixedNamesDistinct()
    ensures TOOLCHAIN != MBED && TOOLCHAIN != GPERF && TOOLCHAIN != NRFJPROG && TOOLCHAIN != JLINK
    ensures MBED != GPERF && MBED != NRFJPROG && MBED != JLINK
    ensures GPERF != NRFJPROG && GPERF != JLINK && NRFJPROG != JLINK
    ensures !IsZephyrPackage(TOOLCHAIN) && !IsZephyrPackage(MBED) && !IsZephyrPackage(GPERF)
    ensures !IsZephyrPackage(NRFJPROG) && !IsZephyrPackage(JLINK)
  {
    assert TOOLCHAIN[0] != "framework-zephyr-"[0];
    assert TOOLCHAIN[..17] != "framework-zephyr-";
  }

  lemma MbedRuleEntries(pkgs: map<string, Package>, ctx: Context)
    requires PackagesReady(pkgs, ctx)
    ensures var r := MbedRule(pkgs, ctx);
      && r.Keys == pkgs.Keys
      && forall name :: name in r ==>
           r[name].optional == pkgs[name].optional
           && r[name].version == (if name == TOOLCHAIN && WantsMbed(ctx) then MBED_TOOLCHAIN_VERSION
                                  else if name == MBED && IsDeprecatedMbedBoard(ctx) then LEGACY_MBED_VERSION
                                  else pkgs[name].version)
  {
  }

  lemma ZephyrRuleEntries(pkgs: map<string, Package>, ctx: Context)
    requires PackagesReady(pkgs, ctx)
    ensures var r := ZephyrRule(pkgs, ctx);
      && r.Keys == pkgs.Keys
      && forall name :: name in r ==>
           r[name].optional == (pkgs[name].optional && !RequiredForZephyr(ctx, name))
           && r[name].version == (if name == TOOLCHAIN && WantsZephyr(ctx) then ZEPHYR_TOOLCHAIN_VERSION
                                  else pkgs[name].version)
  {
  }

  lemma LaterRulesEntries(pkgs: map<string, Package>, ctx: Context)
    requires PackagesReady(pkgs, ctx)
    ensures var r := JLinkRule(NrfjprogRule(Nano33BleRule(pkgs, ctx), ctx), ctx);
      && (forall name :: name in r <==> name in pkgs && !Removed(ctx, name))
      && forall name :: name in r ==>
           r[name].optional == (pkgs[name].optional && !(HasProgrammerTarget(ctx) && name == NRFJPROG))
           && r[name].version == (if name == TOOLCHAIN && IsNano33Ble(ctx) then ZEPHYR_TOOLCHAIN_VERSION
                                  else pkgs[name].version)
  {
  }

  /** One entry of the resolved table, rule by rule. */
  lemma SelectionEntry(pkgs: map<string, Package>, ctx: Context, name: string)
    requires PackagesReady(pkgs, ctx)
    requires name in SelectPackages(pkgs, ctx)
    ensures name in pkgs
    ensures SelectPackages(pkgs, ctx)[name]
         == Package(PinnedVersion(ctx, name, pkgs[name].version), pkgs[name].optional && !MadeRequired(ctx, name))
  {
    var m1 := MbedRule(pkgs, ctx);
    MbedRuleEntries(pkgs, ctx);
    var m2 := ZephyrRule(m1, ctx);
    ZephyrRuleEntries(m1, ctx);
    LaterRulesEntries(m2, ctx);
    assert name in m2 && name in m1;
  }

  /**
   * Every entry of the resolved table: the names kept are the original ones less the removed
   * ones, versions follow the last rule that pins them, and an optional flag is only ever
   * cleared, exactly for the packages some rule makes required.
   */
  lemma SelectionEntries(pkgs: map<string, Package>, ctx: Context)
    requires PackagesReady(pkgs, ctx)
    ensures var r := SelectPackages(pkgs, ctx);
      && (forall name :: name in r <==> name in pkgs && !Removed(ctx, name))
      && (forall name :: name in r ==>
            r[name] == Package(PinnedVersion(ctx, name, pkgs[name].version),
                               pkgs[name].optional && !MadeRequired(ctx, name)))
  {
    var m1 := MbedRule(pkgs, ctx);
    MbedRuleEntries(pkgs, ctx);
    var m2 := ZephyrRule(m1, ctx);
    ZephyrRuleEntries(m1, ctx);
    LaterRulesEntries(m2, ctx);
    var r := SelectPackages(pkgs, ctx);
    forall name | name in r
      ensures r[name] == Package(PinnedVersion(ctx, name, pkgs[name].version),
                                 pkgs[name].optional && !MadeRequired(ctx, name))
    {
      SelectionEntry(pkgs, ctx, name);
    }
  }

  // ---------------------------------------------------------------------------------------
  // What the cascade promises

  /**
   * A bootloader/erase target keeps nrfjprog and makes it required; otherwise an explicit upload
   * protocol other than nrfjprog removes it; otherwise, and in particular without a board, the
   * rule leaves it as it was.
   */
  lemma NrfjprogLifecycle(pkgs: map<string, Package>, ctx: Context)
    requires PackagesReady(pkgs, ctx)
    ensures var r := SelectPackages(pkgs, ctx);
      && (HasProgrammerTarget(ctx) ==> NRFJPROG in r && !r[NRFJPROG].optional)
      && (!HasProgrammerTarget(ctx) && UploadProtocol(ctx) != "" && UploadProtocol(ctx) != "nrfjprog"
          ==> NRFJPROG !in r)
      && (!HasProgrammerTarget(ctx) && (UploadProtocol(ctx) == "" || UploadProtocol(ctx) == "nrfjprog")
          ==> (NRFJPROG in r <==> NRFJPROG in pkgs) && (NRFJPROG in r ==> r[NRFJPROG] == pkgs[NRFJPROG]))
      && (!HasBoard(ctx) ==> (NRFJPROG in r <==> NRFJPROG in pkgs))
  {
  }

  /**
   * tool-jlink survives exactly when it was there and some variable or board setting mentions
   * "jlink"; when it survives it is untouched.
   */
  lemma JLinkLifecycle(pkgs: map<string, Package>, ctx: Context)
    requires PackagesReady(pkgs, ctx)
    ensures var r := SelectPackages(pkgs, ctx);
      && (JLINK in r <==> JLINK in pkgs && WantsJLink(ctx))
      && (JLINK in r ==> r[JLINK] == pkgs[JLINK])
  {
  }

  /**
   * With zephyr requested: every zephyr package is required, the toolchain gets the zephyr pin,
   * gperf is required unless the system type names windows, and no other optional flag but
   * nrfjprog's changes.
   */
  lemma ZephyrActivation(pkgs: map<string, Package>, ctx: Context)
    requires PackagesReady(pkgs, ctx)
    requires WantsZephyr(ctx)
    ensures var r := SelectPackages(pkgs, ctx);
      && (forall name :: name in r && IsZephyrPackage(name) ==> !r[name].optional)
      && TOOLCHAIN in r && r[TOOLCHAIN].version == ZEPHYR_TOOLCHAIN_VERSION
      && (!Contains(ctx.env.systype, "windows") ==> GPERF in r && !r[GPERF].optional)
      && (Contains(ctx.env.systype, "windows") && GPERF in r ==> r[GPERF].optional == pkgs[GPERF].optional)
      && (forall name :: name in r && !IsZephyrPackage(name) && name != GPERF && name != NRFJPROG
            ==> r[name].optional == pkgs[name].optional)
  {
    FixedNamesDistinct();
    SelectionEntries(pkgs, ctx);
  }

  /**
   * Version pins, last writer wins: mbed pins the toolchain to its version unless zephyr or the
   * nano33ble board pin it later to theirs; mbed pins framework-mbed only for a deprecated
   * board; every other version is kept.
   */
  lemma VersionPins(pkgs: map<string, Package>, ctx: Context)
    requires PackagesReady(pkgs, ctx)
    ensures var r := SelectPackages(pkgs, ctx);
      && (WantsZephyr(ctx) || IsNano33Ble(ctx) ==> TOOLCHAIN in r && r[TOOLCHAIN].version == ZEPHYR_TOOLCHAIN_VERSION)
      && (WantsMbed(ctx) && !WantsZephyr(ctx) && !IsNano33Ble(ctx)
          ==> TOOLCHAIN in r && r[TOOLCHAIN].version == MBED_TOOLCHAIN_VERSION)
      && (MBED in r ==> r[MBED].version == if IsDeprecatedMbedBoard(ctx) then LEGACY_MBED_VERSION else pkgs[MBED].version)
      && (forall name :: name in r && name != TOOLCHAIN && name != MBED ==> r[name].version == pkgs[name].version)
  {
    FixedNamesDistinct();
    SelectionEntries(pkgs, ctx);
  }

  /**
   * The framework table: the adafruit BSP points arduino at its own package, the nano33ble board
   * replaces arduino's package and script (winning over the BSP rule), nothing else changes.
   */
  lemma FrameworkSelection(fws: map<string, Framework>, ctx: Context)
    requires FrameworksReady(fws, ctx)
    ensures var r := SelectFrameworks(fws, ctx);
      && r.Keys == fws.Keys
      && (forall name :: name in r && name != ARDUINO ==> r[name] == fws[name])
      && (IsNano33Ble(ctx) ==> r[ARDUINO] == Framework(MBED_ARDUINO_PACKAGE, MBED_ARDUINO_SCRIPT))
      && (!IsNano33Ble(ctx) && UsesAdafruitBsp(ctx)
          ==> r[ARDUINO] == Framework(ADAFRUIT_ARDUINO_PACKAGE, fws[ARDUINO].script))
      && (!IsNano33Ble(ctx) && !UsesAdafruitBsp(ctx) ==> r == fws)
  {
  }

  /** A second pass with the same context finds nothing left to do. */
  lemma {:induction false} SelectionIdempotent(pkgs: map<string, Package>, fws: map<string, Framework>, ctx: Context)
    requires PackagesReady(pkgs, ctx) && FrameworksReady(fws, ctx)
    ensures PackagesReady(SelectPackages(pkgs, ctx), ctx)
    ensures SelectPackages(SelectPackages(pkgs, ctx), ctx) == SelectPackages(pkgs, ctx)
    ensures FrameworksReady(SelectFrameworks(fws, ctx), ctx)
    ensures SelectFrameworks(SelectFrameworks(fws, ctx), ctx) == SelectFrameworks(fws, ctx)
  {
    FixedNamesDistinct();
    var r := SelectPackages(pkgs, ctx);
    SelectionEntries(pkgs, ctx);
    assert PackagesReady(r, ctx);
    var r2 := SelectPackages(r, ctx);
    SelectionEntries(r, ctx);
    forall name | name in r2
      ensures name in r && r2[name] == r[name]
    {
    }
    assert r2 == r;
  }

  // ---------------------------------------------------------------------------------------
  // The platform object, whose tables the cascade rewrites in place

  class Platform {
    var packages: map<string, Package>
    var frameworks: map<string, Framework>

    constructor (packages: map<string, Package>, frameworks: map<string, Framework>)
      ensures this.packages == packages && this.frameworks == frameworks
    {
      this.packages := packages;
      this.frameworks := frameworks;
    }

    /**
     * The mbed rule: the legacy mbed pin for a deprecated board, then the mbed toolchain pin.
     */
    method PinMbedVersions(ctx: Context)
      requires WantsMbed(ctx) && PackagesReady(packages, ctx)
      modifies this`packages
      ensures packages == MbedRule(old(packages), ctx)
    {
      if ctx.vars.board in ctx.env.deprecatedBoards {
        packages := packages[MBED := packages[MBED].(version := LEGACY_MBED_VERSION)];
      }
      packages := packages[TOOLCHAIN := packages[TOOLCHAIN].(version := MBED_TOOLCHAIN_VERSION)];
    }

    /**
     * The zephyr rule: require every zephyr package, pin the toolchain, and require gperf unless
     * the system type names windows.
     */
    method ActivateZephyr(ctx: Context)
      requires WantsZephyr(ctx) && PackagesReady(packages, ctx)
      modifies this`packages
      ensures packages == ZephyrRule(old(packages), ctx)
    {
      var pending := packages.Keys;
      while pending != {}
        invariant pending <= old(packages).Keys
        invariant packages.Keys == old(packages).Keys
        invariant forall p :: p in old(packages) ==>
          packages[p] == if p !in pending && IsZephyrPackage(p) then old(packages)[p].(optional := false) else old(packages)[p]
        decreases pending
      {
        var p :| p in pending;
        if StartsWith(p, "framework-zephyr-") || p in {"tool-cmake", "tool-dtc", "tool-ninja"} {
          packages := packages[p := packages[p].(optional := false)];
        }
        pending := pending - {p};
      }
      assert packages == RequireZephyrPackages(old(packages));
      packages := packages[TOOLCHAIN := packages[TOOLCHAIN].(version := ZEPHYR_TOOLCHAIN_VERSION)];
      if !Contains(ctx.env.systype, "windows") {
        packages := packages[GPERF := packages[GPERF].(optional := false)];
      }
    }

    /** The rules that apply only when a board is given: BSP, mbed, zephyr and nano33ble. */
    method ApplyBoardRules(ctx: Context)
      requires HasBoard(ctx)
      requires PackagesReady(packages, ctx) && FrameworksReady(frameworks, ctx)
      modifies this
      ensures packages == Nano33BleRule(ZephyrRule(MbedRule(old(packages), ctx), ctx), ctx)
      ensures frameworks == SelectFrameworks(old(frameworks), ctx)
    {
      var board := ctx.vars.board;
      var requested := ctx.vars.pioframework;
      if ctx.env.config.bspName.GetOr("nrf5") == "adafruit" {
        frameworks := frameworks[ARDUINO := frameworks[ARDUINO].(package := ADAFRUIT_ARDUINO_PACKAGE)];
      }
      if "mbed" in requested {
        PinMbedVersions(ctx);
      }
      if "zephyr" in requested {
        ActivateZephyr(ctx);
      }
      if board == "nano33ble" {
        packages := packages[TOOLCHAIN := packages[TOOLCHAIN].(version := ZEPHYR_TOOLCHAIN_VERSION)];
        frameworks := frameworks[ARDUINO := frameworks[ARDUINO].(package := MBED_ARDUINO_PACKAGE)];
        frameworks := frameworks[ARDUINO := frameworks[ARDUINO].(script := MBED_ARDUINO_SCRIPT)];
      }
    }

    /**
     * One resolution pass over the platform's own tables. The host's base-class step that
     * follows it is not part of this model.
     */
    method ConfigureDefaultPackages(variables: Variables, targets: seq<string>, env: Environment)
      requires PackagesReady(packages, Context(variables, targets, env))
      requires FrameworksReady(frameworks, Context(variables, targets, env))
      modifies this
      ensures packages == SelectPackages(old(packages), Context(variables, targets, env))
      ensures frameworks == SelectFrameworks(old(frameworks), Context(variables, targets, env))
    {
      var ctx := Context(variables, targets, env);
      var uploadProtocol := "";
      var board := variables.board;
      if board != "" {
        uploadProtocol := variables.uploadProtocol.GetOr(env.config.uploadProtocol.GetOr(""));
        ApplyBoardRules(ctx);
      }
      ghost var afterBoard := packages;

      if "bootloader" in targets || "erase" in targets {
        packages := packages[NRFJPROG := packages[NRFJPROG].(optional := false)];
      } else if uploadProtocol != "" && uploadProtocol != "nrfjprog" && NRFJPROG in packages {
        packages := packages - {NRFJPROG};
      }
      ghost var afterNrfjprog := packages;

      var jlinkConds := [
        Contains(variables.uploadProtocol.GetOr(""), "jlink"),
        Contains(variables.debugTool.GetOr(""), "jlink")
      ];
      if board != "" {
        jlinkConds := jlinkConds + [
          "jlink" in env.config.debugDefaultTools,
          Contains(env.config.uploadProtocol.GetOr(""), "jlink")
        ];
      }
      assert (true in jlinkConds) == WantsJLink(ctx);
      if true !in jlinkConds && JLINK in packages {
        packages := packages - {JLINK};
      }
      assert afterNrfjprog == NrfjprogRule(afterBoard, ctx);
    }
  }
}
