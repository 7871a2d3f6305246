/**
  Builder: the OVF builder's preparation of its whole configuration and the
  run that turns it into a fixed sequence of build steps, whose final state
  decides the outcome of the build.
*/
module Builder {
  import opened Text
  import opened Errors
  import opened OvfConfig

  const MODE_DISABLE := "disable"
  const MODE_ATTACH := "attach"
  const MODE_UPLOAD := "upload"
  /** The guest-additions modes Prepare accepts, in the order the error message lists them. */
  const VALID_MODES := [MODE_DISABLE, MODE_ATTACH, MODE_UPLOAD]
  const DEFAULT_GUEST_ADDITIONS_PATH := "VBoxGuestAdditions.iso"
  const SHUTDOWN_WARNING := "A shutdown_command was not specified. Without a shutdown command, Packer\nwill forcibly halt the virtual machine, which may result in data loss."

  /** The sub-configurations whose Prepare runs after the OVF settings', in call order. */
  const SECTIONS := [ExportConfig, ExportOpts, FloppyConfig, HTTPConfig, OutputConfig, RunConfig,
                     ShutdownConfig, SSHConfig, VBoxManageConfig, VBoxManagePostConfig, VBoxVersionConfig]

  /** The builder's settings other than the OVF ones (durations in nanoseconds). */
  datatype Config = Config(
    packerBuildName: string, packerDebug: bool, packerForce: bool,
    httpDir: string, httpPortMin: int, httpPortMax: int,
    floppyFiles: seq<string>, floppyDirectories: seq<string>,
    format: string, exportOpts: seq<string>, outputDir: string,
    bootWait: int, headless: bool,
    vrdpBindAddress: string, vrdpPortMin: int, vrdpPortMax: int,
    sshHost: string, sshHostPortMin: int, sshHostPortMax: int, sshSkipNatMapping: bool,
    shutdownCommand: string, shutdownTimeout: int, postShutdownDelay: int,
    vboxManage: seq<seq<string>>, vboxManagePost: seq<seq<string>>, vboxVersionFile: string,
    bootCommand: seq<string>,
    guestAdditionsMode: string, guestAdditionsPath: string,
    guestAdditionsURL: string, guestAdditionsSHA256: string,
    importOpts: string, importFlags: seq<string>, vmName: string)

  /** The errors of one sub-configuration's Prepare, tagged with it. */
  function SectionErrors(section: Section, causes: seq<string>): (errs: seq<Error>)
    ensures |errs| == |causes|
    ensures forall i :: 0 <= i < |errs| ==> errs[i] == SubConfigError(section, causes[i])
  {
    if causes == [] then [] else [SubConfigError(section, causes[0])] + SectionErrors(section, causes[1..])
  }

  /** The errors of the sub-configurations, section after section. */
  function SubConfigErrors(sub: Section -> seq<string>, sections: seq<Section>): (errs: seq<Error>)
    ensures forall e :: e in errs ==> e.SubConfigError? && e.section in sections
    ensures errs == [] <==> forall s :: s in sections ==> sub(s) == []
  {
    if sections == [] then []
    else
      var last := sections[|sections| - 1];
      SubConfigErrors(sub, sections[..|sections| - 1]) + SectionErrors(last, sub(last))
  }

  /** The sub-configurations' Prepare, called one after the other, their errors appended in order. */
  method CollectErrors(sub: Section -> seq<string>, sections: seq<Section>) returns (errs: seq<Error>)
    ensures errs == SubConfigErrors(sub, sections)
  {
    errs := [];
    var k := 0;
    while k < |sections|
      invariant 0 <= k <= |sections|
      invariant errs == SubConfigErrors(sub, sections[..k])
    {
      assert sections[..k + 1][..k] == sections[..k];
      errs := errs + SectionErrors(sections[k], sub(sections[k]));
      k := k + 1;
    }
    assert sections[..k] == sections;
  }

  /** Whether `mode` is one of `validModes`: a scan that stops at the first equal entry. */
  method IsValidMode(mode: string, validModes: seq<string>) returns (validMode: bool)
    ensures validMode <==> mode in validModes
  {
    validMode := false;
    var i := 0;
    while i < |validModes|
      invariant 0 <= i <= |validModes|
      invariant validMode <==> mode in validModes[..i]
    {
      if mode == validModes[i] {
        validMode := true;
        break;
      }
      i := i + 1;
    }
    assert validMode <==> mode in validModes by {
      assert validModes[..|validModes|] == validModes;
    }
  }

  /** The outcome of Builder.Prepare once the OVF settings have been prepared. */
  datatype PreparedConfig = PreparedConfig(config: Config, warnings: seq<string>, errs: seq<Error>)

  /** The name a VM gets when none is configured. */
  function DefaultVMName(buildName: string, initTime: int): string {
    "packer-" + buildName + "-" + IntString(initTime)
  }

  /** The settings with the defaults of Prepare filled in and the import options folded into the flags. */
  function Defaulted(c: Config, initTime: int): Config {
    c.(guestAdditionsMode := if c.guestAdditionsMode == "" then MODE_UPLOAD else c.guestAdditionsMode,
       guestAdditionsPath :=
         if c.guestAdditionsPath == "" then DEFAULT_GUEST_ADDITIONS_PATH else c.guestAdditionsPath,
       vmName := if c.vmName == "" then DefaultVMName(c.packerBuildName, initTime) else c.vmName,
       importFlags := if c.importOpts != "" then c.importFlags + ["--options", c.importOpts] else c.importFlags)
  }

  /**
    Builder.Prepare after the OVF settings gave `ovfWarnings` and `ovfErrs`,
    the sub-configurations gave `sub`, at template time `initTime`.
  */
  function PrepareConfig(c: Config, ovfWarnings: seq<string>, ovfErrs: seq<Error>,
                         sub: Section -> seq<string>, initTime: int): PreparedConfig
  {
    var d := Defaulted(c, initTime);
    PreparedConfig(
      d.(guestAdditionsSHA256 := Lower(c.guestAdditionsSHA256)),
      ovfWarnings + (if c.shutdownCommand == "" then [SHUTDOWN_WARNING] else []),
      ovfErrs + SubConfigErrors(sub, SECTIONS)
        + (if d.guestAdditionsMode in VALID_MODES then [] else [InvalidGuestAdditionsMode(VALID_MODES)]))
  }

  /** An opaque handle on something the builder passes through: the UI, hook, cache or driver. */
  datatype Handle = Handle(id: nat)

  /** What the VirtualBox driver constructor gives. */
  datatype DriverResult = DriverCreated(driver: Handle) | DriverFailed(cause: string)

  /** The steps of a build, with the settings each is given. */
  datatype Step =
    | StepOutputDir(force: bool, path: string)
    | StepSuppressMessages
    | StepCreateFloppy(files: seq<string>, directories: seq<string>)
    | StepHTTPServer(httpDir: string, portMin: int, portMax: int)
    | StepDownloadGuestAdditions(mode: string, url: string, sha256: string)
    | StepDownload(checksum: string, checksumType: string, description: string, extension: string,
                   resultKey: string, targetPath: string, urls: seq<string>)
    | StepImport(name: string, sourcePath: string, importFlags: seq<string>)
    | StepAttachGuestAdditions(mode: string)
    | StepConfigureVRDP(bindAddress: string, portMin: int, portMax: int)
    | StepAttachFloppy
    | StepForwardSSH(hostPortMin: int, hostPortMax: int, skipNatMapping: bool)
    | StepVBoxManage(commands: seq<seq<string>>)
    | StepRun(bootWait: int, headless: bool)
    | StepTypeBootCommand(bootCommand: seq<string>, vmName: string)
    | StepConnect(host: string)
    | StepUploadVersion(path: string)
    | StepUploadGuestAdditions(mode: string, path: string)
    | StepProvision
    | StepShutdown(command: string, timeout: int, delay: int)
    | StepRemoveDevices
    | StepExport(format: string, outputDir: string, exportOpts: seq<string>, skipNatMapping: bool)

  /** The step list of Run, built from the prepared settings. */
  function Steps(o: OvfState, c: Config): seq<Step> {
    [ StepOutputDir(c.packerForce, c.outputDir),
      StepSuppressMessages,
      StepCreateFloppy(c.floppyFiles, c.floppyDirectories),
      StepHTTPServer(c.httpDir, c.httpPortMin, c.httpPortMax),
      StepDownloadGuestAdditions(c.guestAdditionsMode, c.guestAdditionsURL, c.guestAdditionsSHA256),
      StepDownload(o.checksum, o.checksumType, "OVF/OVA", "ova", "vm_path", o.targetPath, [o.sourcePath]),
      StepImport(c.vmName, o.sourcePath, c.importFlags),
      StepAttachGuestAdditions(c.guestAdditionsMode),
      StepConfigureVRDP(c.vrdpBindAddress, c.vrdpPortMin, c.vrdpPortMax),
      StepAttachFloppy,
      StepForwardSSH(c.sshHostPortMin, c.sshHostPortMax, c.sshSkipNatMapping),
      StepVBoxManage(c.vboxManage),
      StepRun(c.bootWait, c.headless),
      StepTypeBootCommand(c.bootCommand, c.vmName),
      StepConnect(c.sshHost),
      StepUploadVersion(c.vboxVersionFile),
      StepUploadGuestAdditions(c.guestAdditionsMode, c.guestAdditionsPath),
      StepProvision,
      StepShutdown(c.shutdownCommand, c.shutdownTimeout, c.postShutdownDelay),
      StepRemoveDevices,
      StepVBoxManage(c.vboxManagePost),
      StepExport(c.format, c.outputDir, c.exportOpts, c.sshSkipNatMapping) ]
  }

  /** The values a build's state bag holds. */
  datatype Value =
    | ConfigValue(ovf: OvfState, config: Config)
    | DebugValue(debug: bool)
    | HandleValue(handle: Handle)
    | ErrorValue(message: string)
    | OtherValue(tag: string)  // whatever else a step stores

  type StateBag = map<string, Value>

  const CONFIG_KEY := "config"
  const DEBUG_KEY := "debug"
  const DRIVER_KEY := "driver"
  const CACHE_KEY := "cache"
  const HOOK_KEY := "hook"
  const UI_KEY := "ui"
  const ERROR_KEY := "error"
  const CANCELLED_KEY := "cancelled"
  const HALTED_KEY := "halted"
  const SIGNAL_KEYS := {ERROR_KEY, CANCELLED_KEY, HALTED_KEY}

  /** The state a run starts from. */
  function InitialState(o: OvfState, c: Config, driver: Handle, cache: Handle, hook: Handle, ui: Handle): (s: StateBag)
    ensures s.Keys == {CONFIG_KEY, DEBUG_KEY, DRIVER_KEY, CACHE_KEY, HOOK_KEY, UI_KEY}
    ensures s.Keys !! SIGNAL_KEYS
  {
    map[CONFIG_KEY := ConfigValue(o, c), DEBUG_KEY := DebugValue(c.packerDebug),
        DRIVER_KEY := HandleValue(driver), CACHE_KEY := HandleValue(cache),
        HOOK_KEY := HandleValue(hook), UI_KEY := HandleValue(ui)]
  }

  /** The packaged result of a build, or the error its constructor gave. */
  datatype ArtifactResult = Built(dir: string) | ArtifactFailed(cause: string)

  /** How a build ends. */
  datatype Outcome =
    | NoDriver(cause: string)       // "Failed creating VirtualBox driver: %s"
    | StepFailed(message: string)   // the error a step stored
    | Cancelled                     // "Build was cancelled."
    | Halted                        // "Build was halted."
    | Finished(artifact: ArtifactResult)
    | Crashed(panic: Panic)

  /** The outcome a final state gives: the error first, then cancellation, then halting, then the artifact. */
  function Classify(s: StateBag, artifact: ArtifactResult): Outcome {
    if ERROR_KEY in s then
      (match s[ERROR_KEY]
       case ErrorValue(message) => StepFailed(message)
       case _ => Crashed(NotAnError(ERROR_KEY)))
    else if CANCELLED_KEY in s then Cancelled
    else if HALTED_KEY in s then Halted
    else Finished(artifact)
  }

  /** The Go results (artifact, error) of an outcome; a panic returns neither. */
  function Returned(o: Outcome): (r: (Option<string>, Option<string>))
    ensures o.Crashed? <==> r.0.None? && r.1.None?
    ensures !(r.0.Some? && r.1.Some?)
    ensures r.0.Some? <==> o.Finished? && o.artifact.Built?
  {
    match o
    case NoDriver(cause) => (None, Some("Failed creating VirtualBox driver: " + cause))
    case StepFailed(message) => (None, Some(message))
    case Cancelled => (None, Some("Build was cancelled."))
    case Halted => (None, Some("Build was halted."))
    case Finished(Built(dir)) => (Some(dir), None)
    case Finished(ArtifactFailed(cause)) => (None, Some(cause))
    case Crashed(_) => (None, None)
  }

  /** The step runner Run creates; with debugging on it pauses between steps. */
  datatype Runner = Runner(steps: seq<Step>, pauses: bool)

  class Builder {
    var config: Config
    const ovf: OVFConfig
    var runner: Option<Runner>

    constructor (c: Config, o: OvfState)
      ensures config == c && ovf.State() == o && runner == None
      ensures fresh(ovf)
    {
      config := c;
      ovf := new OVFConfig(o);
      runner := None;
    }

    /**
      Prepare: prepare the OVF settings, collect the sub-configuration
      errors, fill in defaults, check the guest-additions mode and collect
      warnings. `err` is None when nothing went wrong.
    */
    method Prepare(env: Env, sub: Section -> seq<string>, initTime: int)
      returns (warnings: seq<string>, err: Option<seq<Error>>, crash: Option<Panic>)
      modifies this`config, ovf
      ensures var o := PrepareResult(old(ovf.State()), env);
              ovf.State() == o.state && crash == o.crash
      ensures var o := PrepareResult(old(ovf.State()), env);
              var p := PrepareConfig(old(config), o.warnings, o.errs, sub, initTime);
              crash.None? ==>
                && config == p.config && warnings == p.warnings
                && err == (if p.errs == [] then None else Some(p.errs))
      ensures crash.Some? ==> config == old(config) && warnings == [] && err == None
    {
      var ovfWarnings, ovfErrs;
      ovfWarnings, ovfErrs, crash := ovf.Prepare(env);
      if crash.Some? {
        return [], None, crash;
      }
      warnings, err := PrepareSettings(ovfWarnings, ovfErrs, sub, initTime);
    }

    /** The rest of Prepare, once the OVF settings gave `ovfWarnings` and `ovfErrs`. */
    method PrepareSettings(ovfWarnings: seq<string>, ovfErrs: seq<Error>, sub: Section -> seq<string>, initTime: int)
      returns (warnings: seq<string>, err: Option<seq<Error>>)
      modifies this`config
      ensures var p := PrepareConfig(old(config), ovfWarnings, ovfErrs, sub, initTime);
              && config == p.config && warnings == p.warnings
              && err == (if p.errs == [] then None else Some(p.errs))
    {
      warnings := ovfWarnings;
      var errs := ovfErrs;

      var subErrs := CollectErrors(sub, SECTIONS);
      errs := errs + subErrs;

      ApplyDefaults(initTime);

      var validModes := VALID_MODES;
      var validMode := IsValidMode(config.guestAdditionsMode, validModes);
      if !validMode {
        errs := errs + [InvalidGuestAdditionsMode(validModes)];
      }

      if config.guestAdditionsSHA256 != "" {
        config := config.(guestAdditionsSHA256 := Lower(config.guestAdditionsSHA256));
      }

      // the OVF warnings, then the shutdown one
      if config.shutdownCommand == "" {
        warnings := warnings + [SHUTDOWN_WARNING];
      }

      assert errs == PrepareConfig(old(config), ovfWarnings, ovfErrs, sub, initTime).errs;
      if |errs| > 0 {
        return warnings, Some(errs);
      }
      return warnings, None;
    }

    /** The defaults and the import options of Prepare. */
    method ApplyDefaults(initTime: int)
      modifies this`config
      ensures config == Defaulted(old(config), initTime)
    {
      var mode, path, name, flags :=
        config.guestAdditionsMode, config.guestAdditionsPath, config.vmName, config.importFlags;
      if mode == "" {
        mode := MODE_UPLOAD;
      }
      if path == "" {
        path := DEFAULT_GUEST_ADDITIONS_PATH;
      }
      if name == "" {
        name := DefaultVMName(config.packerBuildName, initTime);
      }
      if config.importOpts != "" {
        flags := flags + ["--options", config.importOpts];
      }
      config := config.(guestAdditionsMode := mode, guestAdditionsPath := path, vmName := name, importFlags := flags);
    }

    /**
      Run: create the driver, build the steps and the initial state, run
      the steps through `execute` and classify the state they leave.
      `newArtifact` packages the output directory.
    */
    method Run(ui: Handle, hook: Handle, cache: Handle, newDriver: DriverResult,
               execute: (seq<Step>, StateBag) -> StateBag, newArtifact: string -> ArtifactResult)
      returns (outcome: Outcome)
      modifies this`runner
      ensures newDriver.DriverFailed? ==> outcome == NoDriver(newDriver.cause) && runner == old(runner)
      ensures newDriver.DriverCreated? ==>
                var steps := Steps(ovf.State(), config);
                && runner == Some(Runner(steps, config.packerDebug))
                && outcome == Classify(execute(steps, InitialState(ovf.State(), config, newDriver.driver, cache, hook, ui)),
                                       newArtifact(config.outputDir))
    {
      // no driver: fail before any step or state exists
      if newDriver.DriverFailed? {
        return NoDriver(newDriver.cause);
      }
      var driver := newDriver.driver;

      // the fixed step list
      var steps := Steps(ovf.State(), config);

      // seed the state bag with its six keys
      var state: StateBag := map[];
      state := state[CONFIG_KEY := ConfigValue(ovf.State(), config)];
      state := state[DEBUG_KEY := DebugValue(config.packerDebug)];
      state := state[DRIVER_KEY := HandleValue(driver)];
      state := state[CACHE_KEY := HandleValue(cache)];
      state := state[HOOK_KEY := HandleValue(hook)];
      state := state[UI_KEY := HandleValue(ui)];

      // hand the steps to the runner
      runner := Some(Runner(steps, config.packerDebug));
      state := execute(runner.value.steps, state);

      // the outcome ladder: error first
      if ERROR_KEY in state {
        match state[ERROR_KEY]
        case ErrorValue(message) => return StepFailed(message);
        case _ => return Crashed(NotAnError(ERROR_KEY));
      }

      // then cancellation, then halt
      if CANCELLED_KEY in state {
        return Cancelled;
      }
      if HALTED_KEY in state {
        return Halted;
      }
      return Finished(newArtifact(config.outputDir));
    }
  }

  /** An unset guest-additions mode or path gets its default; a set one is kept. */
  lemma GuestAdditionsDefaults(c: Config, w: seq<string>, e: seq<Error>, sub: Section -> seq<string>, t: int)
    ensures var r := PrepareConfig(c, w, e, sub, t).config;
            && (c.guestAdditionsMode == "" ==> r.guestAdditionsMode == MODE_UPLOAD)
            && (c.guestAdditionsMode != "" ==> r.guestAdditionsMode == c.guestAdditionsMode)
            && (c.guestAdditionsPath == "" ==> r.guestAdditionsPath == DEFAULT_GUEST_ADDITIONS_PATH)
            && (c.guestAdditionsPath != "" ==> r.guestAdditionsPath == c.guestAdditionsPath)
            && r.guestAdditionsMode != "" && r.guestAdditionsPath != ""
  {
  }

  /**
    An unset VM name becomes `packer-<build name>-<time>`, from which the
    template time reads back; a set one is kept.
  */
  lemma VMNameDefault(c: Config, w: seq<string>, e: seq<Error>, sub: Section -> seq<string>, t: int)
    ensures var r := PrepareConfig(c, w, e, sub, t).config;
            var prefix := "packer-" + c.packerBuildName + "-";
            && (c.vmName != "" ==> r.vmName == c.vmName)
            && (c.vmName == "" ==>
                  && |prefix| < |r.vmName| && r.vmName[..|prefix|] == prefix
                  && IntValue(r.vmName[|prefix|..]) == t)
  {
    var prefix := "packer-" + c.packerBuildName + "-";
    if c.vmName == "" {
      var name := DefaultVMName(c.packerBuildName, t);
      assert name[..|prefix|] == prefix;
      assert name[|prefix|..] == IntString(t);
      IntStringRoundTrip(t);
    }
  }

  /** Import options are appended to the import flags as `--options <opts>`; the flags before them keep their order. */
  lemma ImportOptionsAppended(c: Config, w: seq<string>, e: seq<Error>, sub: Section -> seq<string>, t: int)
    ensures var r := PrepareConfig(c, w, e, sub, t).config.importFlags;
            && r[..|c.importFlags|] == c.importFlags
            && (c.importOpts == "" ==> r == c.importFlags)
            && (c.importOpts != "" ==> r[|c.importFlags|..] == ["--options", c.importOpts])
  {
  }

  /** The guest-additions checksum has no upper-case letter left, and a lower-case one is kept as it is. */
  lemma GuestAdditionsChecksumLowerCase(c: Config, w: seq<string>, e: seq<Error>, sub: Section -> seq<string>, t: int)
    ensures var r := PrepareConfig(c, w, e, sub, t).config.guestAdditionsSHA256;
            && |r| == |c.guestAdditionsSHA256|
            && (forall i :: 0 <= i < |r| ==> !IsUpper(r[i]))
            && ((forall i :: 0 <= i < |c.guestAdditionsSHA256| ==> !IsUpper(c.guestAdditionsSHA256[i]))
                ==> r == c.guestAdditionsSHA256)
  {
    if forall i :: 0 <= i < |c.guestAdditionsSHA256| ==> !IsUpper(c.guestAdditionsSHA256[i]) {
      LowerOfLowerCase(c.guestAdditionsSHA256);
    }
  }

  /** Of the settings held here, Prepare's own steps change only the five they default or normalise. */
  lemma OtherSettingsKept(c: Config, w: seq<string>, e: seq<Error>, sub: Section -> seq<string>, t: int)
    ensures var r := PrepareConfig(c, w, e, sub, t).config;
            r == c.(guestAdditionsMode := r.guestAdditionsMode, guestAdditionsPath := r.guestAdditionsPath,
                    vmName := r.vmName, importFlags := r.importFlags,
                    guestAdditionsSHA256 := r.guestAdditionsSHA256)
  {
  }

  /**
    The mode error is reported exactly when the mode, after defaulting, is
    none of the three; in particular an unset mode is never an error.
  */
  lemma ModeErrorIff(c: Config, w: seq<string>, e: seq<Error>, sub: Section -> seq<string>, t: int)
    requires forall x :: x in e ==> IsOwnError(x)
    ensures var r := PrepareConfig(c, w, e, sub, t);
            && ((InvalidGuestAdditionsMode(VALID_MODES) in r.errs) <==> r.config.guestAdditionsMode !in VALID_MODES)
            && (c.guestAdditionsMode == "" ==> forall x :: x in r.errs ==> !x.InvalidGuestAdditionsMode?)
  {
    var r := PrepareConfig(c, w, e, sub, t);
    var subErrs := SubConfigErrors(sub, SECTIONS);
    var modeErrs := if r.config.guestAdditionsMode in VALID_MODES then [] else [InvalidGuestAdditionsMode(VALID_MODES)];
    assert r.errs == e + subErrs + modeErrs;
    forall x | x in r.errs && x.InvalidGuestAdditionsMode?
      ensures x in modeErrs
    {
      assert x !in e;
      assert x !in subErrs;
    }
  }

  /**
    The warnings are the OVF warnings in order, then the shutdown warning
    exactly when no shutdown command is set.
  */
  lemma WarningsInOrder(c: Config, w: seq<string>, e: seq<Error>, sub: Section -> seq<string>, t: int)
    requires SHUTDOWN_WARNING !in w
    ensures var r := PrepareConfig(c, w, e, sub, t).warnings;
            && r[..|w|] == w
            && ((SHUTDOWN_WARNING in r) <==> c.shutdownCommand == "")
            && |r| == |w| + (if c.shutdownCommand == "" then 1 else 0)
  {
  }

  /**
    Prepare succeeds exactly when the OVF settings and every sub-configuration
    report nothing and the mode, after defaulting, is one of the three.
  */
  lemma PrepareSucceedsIff(c: Config, w: seq<string>, e: seq<Error>, sub: Section -> seq<string>, t: int)
    ensures PrepareConfig(c, w, e, sub, t).errs == [] <==>
              && e == []
              && (forall s :: s in SECTIONS ==> sub(s) == [])
              && PrepareConfig(c, w, e, sub, t).config.guestAdditionsMode in VALID_MODES
  {
  }

  /** The source path and the checksum the download step uses are the ones the OVF settings resolved. */
  lemma DownloadUsesPreparedSource(o: OvfState, env: Env, c: Config)
    ensures var r := PrepareResult(o, env).state;
            Steps(r, c)[5] == StepDownload(r.checksum, Lower(o.checksumType), "OVF/OVA", "ova", "vm_path",
                                           o.targetPath, [r.sourcePath])
  {
    var r := PrepareResult(o, env).state;
    PrepareKeepsSettings(o, env);
    DownloadStepOf(r, c);
  }

  lemma DownloadStepOf(r: OvfState, c: Config)
    ensures Steps(r, c)[5] == StepDownload(r.checksum, r.checksumType, "OVF/OVA", "ova", "vm_path",
                                           r.targetPath, [r.sourcePath])
  {
  }

  /**
    The step order: the output directory first, the one download right
    before the one import, the pre-boot VBoxManage commands before the VM
    starts, the post ones after shutdown, and the one export last.
  */
  lemma StepOrder(o: OvfState, c: Config)
    ensures var s := Steps(o, c);
            && |s| == 22 && s[0].StepOutputDir?
            && (forall i :: 0 <= i < |s| ==> (s[i].StepDownload? <==> i == 5))
            && (forall i :: 0 <= i < |s| ==> (s[i].StepImport? <==> i == 6))
            && (forall i :: 0 <= i < |s| ==> (s[i].StepExport? <==> i == |s| - 1))
            && (forall i :: 0 <= i < |s| ==> (s[i].StepRun? <==> i == 12))
            && (forall i :: 0 <= i < |s| ==> (s[i].StepShutdown? <==> i == 18))
            && s[11] == StepVBoxManage(c.vboxManage) && s[20] == StepVBoxManage(c.vboxManagePost)
            && (forall i :: 0 <= i < |s| && s[i].StepVBoxManage? ==> i == 11 || i == 20)
  {
  }

  /** A stored error decides the outcome, whatever else the state holds. */
  lemma ErrorWins(s: StateBag, message: string, a: ArtifactResult)
    ensures Classify(s[ERROR_KEY := ErrorValue(message)], a) == StepFailed(message)
  {
  }

  /** Without an error, cancellation decides, whatever its value and whether the build also halted. */
  lemma CancelledBeforeHalted(s: StateBag, v: Value, a: ArtifactResult)
    requires ERROR_KEY !in s
    ensures Classify(s[CANCELLED_KEY := v], a) == Cancelled
  {
  }

  /** Without an error or a cancellation, halting decides over the artifact. */
  lemma HaltedBeforeArtifact(s: StateBag, v: Value, a: ArtifactResult)
    requires ERROR_KEY !in s && CANCELLED_KEY !in s
    ensures Classify(s[HALTED_KEY := v], a) == Halted
  {
  }

  /** Only the error, cancelled and halted keys take part in the decision, and an artifact exactly when none is set. */
  lemma OnlySignalsDecide(s: StateBag, k: string, v: Value, a: ArtifactResult)
    requires k !in SIGNAL_KEYS
    ensures Classify(s[k := v], a) == Classify(s, a)
    ensures Classify(s, a).Finished? <==> s.Keys !! SIGNAL_KEYS
    ensures Classify(s, a).Finished? ==> Classify(s, a).artifact == a
  {
  }

  /** A lower signal is ignored once a higher one is set. */
  lemma LowerSignalIgnored(s: StateBag, v: Value, a: ArtifactResult)
    ensures ERROR_KEY in s ==> Classify(s[CANCELLED_KEY := v], a) == Classify(s, a)
    ensures (ERROR_KEY in s || CANCELLED_KEY in s) ==> Classify(s[HALTED_KEY := v], a) == Classify(s, a)
  {
  }

  /** Steps that leave the initial state as it is give the artifact. */
  lemma QuietRunFinishes(o: OvfState, c: Config, driver: Handle, cache: Handle, hook: Handle, ui: Handle, a: ArtifactResult)
    ensures Classify(InitialState(o, c, driver, cache, hook, ui), a) == Finished(a)
  {
  }
}
