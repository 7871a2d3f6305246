# VirtualBox OVF builder: checksum resolution and build preparation

A Dafny model of the core of packer's VirtualBox OVF builder
(`builder/virtualbox/ovf`). It covers four pieces:

- **OVF settings (`OVFConfig.Prepare`).** This validates and normalises the
  source path and the checksum settings. It lower-cases the checksum type and
  the checksum. It takes the checksum either inline or from a checksum
  manifest at a URL, fetched over HTTP(S) or read from a file.
- **Manifest scan (`parseCheckSumFile`).** This reads the manifest line by line
  and accepts two dialects. The BSD dialect looks like `MD5 (file) = hash`. The
  GNU dialect looks like `hash  file` or `hash *file`.
- **Builder preparation (`Builder.Prepare`).** This prepares the OVF settings
  and collects the sub-configurations' errors. It fills in the guest-additions
  mode and path and the VM name. It folds the import options into the import
  flags and checks the guest-additions mode. It collects the warnings.
- **The build (`Builder.Run`).** This creates the driver, builds the fixed step
  list and seeds the state bag. It runs the steps and then classifies the final
  state: a stored error, then a cancellation, then a halt, then the artifact.

The modules are:

- `Text`, for the Go string functions the core uses:
  - `strings.Fields` over Unicode white space;
  - `strings.ToLower`;
  - `filepath.Base`;
  - `%d`.
- `Errors`, for the error values and the two Go panics the code can reach.
- `Manifest`, for the manifest scan as functions.
- `OvfConfig`, with the class `OVFConfig`. Its `Prepare` and
  `ParseChecksumFile` methods update the fields in place. They are proved
  against the function `PrepareResult` and the function `ParseManifest`.
- `Builder`, with the class `Builder`. Its `Prepare` and `Run` methods are
  proved against `PrepareConfig`, `Steps`, `InitialState` and `Classify`.

The collaborators the core calls are parameters: `common.HashForType`,
`url.Parse`, `http.Get`, `os.Open` and `common.DownloadableURL`. The OVF
collaborators come in an `Env` record of functions.

A BSD line can name the file but have fewer than four fields, such as
`MD5 (the-OS.ova) =`. The Go code then indexes a missing fourth field and
panics. The model keeps this as an explicit outcome, `Crash(IndexOutOfRange(3, n))`.
`Prepare` passes that panic on through its `crash` result.

Two behaviours of the code are worth stating plainly:

- **A checksum URL with an empty scheme is accepted.** config.go:41-43 refuses
  to go on without a checksum, but a checksum URL with an empty scheme
  (config.go:82-83) fetches nothing and lets `Prepare` complete with an empty
  checksum and no error. `OvfConfig.SchemelessURLLeavesChecksumEmpty` states
  this case. `OvfConfig.ChecksumResolvedOrReported` states that otherwise the
  checksum is known, reported as failed, or the scan panicked.
- **Not all errors are reported together.** The returns at config.go:43, 47,
  55, 63, 69, 75, 80 and 86 skip the later OVF checks of that call.

## Model

| member | source | states |
|---|---|---|
| Text.Lower | builder/virtualbox/ovf/config.go:39 | lower-casing keeps the length and maps each character by itself; no upper-case letter is left |
| Text.Fields | builder/virtualbox/ovf/config.go:115 | every field is non-empty and free of white space |
| Text.FieldsOfJoin | builder/virtualbox/ovf/config.go:115 | splitting words joined by single spaces gives the words back |
| Text.Base | builder/virtualbox/ovf/config.go:109 | the base name is never empty, is `/` or holds no `/`, and is `.` for an empty path |
| Text.BaseOfPath | builder/virtualbox/ovf/config.go:121-131 | the base of `dir/name` is `name`, so a URL source path is matched by its file name |
| Text.IntStringRoundTrip | builder/virtualbox/ovf/builder.go:100 | the `%d` rendering of an integer reads back as that integer |
| Manifest.LinesCoverText | builder/virtualbox/ovf/config.go:110-114 | the lines `ReadString('\n')` returns, up to the empty read at the end, make up the whole text |
| Manifest.MatchLine | builder/virtualbox/ovf/config.go:115-135 | a line with fewer than two fields is skipped; a match gives the first or the fourth field; a panic happens only with fewer than four fields |
| Manifest.Scan | builder/virtualbox/ovf/config.go:110-137 | a found checksum is a non-empty word; a panic is the out-of-range read of the fourth field |
| Manifest.ScanAppend | builder/virtualbox/ovf/config.go:110-137 | once a line decides, later lines are never looked at |
| Manifest.ScanFirstDecisive | builder/virtualbox/ovf/config.go:110-137 | the result is that of the first line that matches or panics |
| Manifest.ScanNoMatch | builder/virtualbox/ovf/config.go:137 | nothing is found exactly when no line matches |
| Manifest.BsdLineMatches | builder/virtualbox/ovf/config.go:119-124 | `TYPE (name) = hash` gives `hash` for `name`, whatever the letter case of `TYPE` |
| Manifest.BsdLineOtherFile | builder/virtualbox/ovf/config.go:119-124 | a BSD line for another file is skipped, and the GNU reading is not tried |
| Manifest.GnuLineMatches | builder/virtualbox/ovf/config.go:125-134 | `hash  name` and `hash *name` give `hash` for `name`; the `*` is dropped once |
| Manifest.GnuLineShadowedByType | builder/virtualbox/ovf/config.go:119-134 | a GNU line whose hash reads as the checksum type is taken as BSD and skipped |
| Manifest.TruncatedBsdLineCrashes | builder/virtualbox/ovf/config.go:121-122 | a BSD line for the file without a hash makes the code read a fourth field of three |
| Manifest.TrailingNewlineIrrelevant | builder/virtualbox/ovf/config.go:111-114 | a manifest resolves the same with or without a final newline |
| Manifest.BsdManifestResolves | builder/virtualbox/ovf/config_test.go:18-30 | the BSD-dialect manifest shape of the tests gives the entry for the file, with or without a final newline |
| Manifest.GnuManifestResolves | builder/virtualbox/ovf/config_test.go:23-34 | the GNU-dialect manifest shape of the tests gives the binary-mode entry for the file, with or without a final newline |
| OvfConfig.OVFConfig.ParseChecksumFile | builder/virtualbox/ovf/config.go:108-138 | the loop sets the checksum to the manifest's entry; with none, the checksum stays unchanged and the error names the base file and the URL |
| OvfConfig.OVFConfig.Prepare | builder/virtualbox/ovf/config.go:26-106 | the new fields, warnings, errors and panic are those of `PrepareResult` on the old fields |
| OvfConfig.OVFConfig.FetchChecksum | builder/virtualbox/ovf/config.go:51-87 | dispatching on the URL's scheme gives `ChecksumFromURL` |
| OvfConfig.OVFConfig.Finish | builder/virtualbox/ovf/config.go:93-103 | the checksum is lower-cased, the source path normalised, and the warning added for `none` |
| OvfConfig.FromManifest | builder/virtualbox/ovf/config.go:66-81 | a checksum from a manifest is a non-empty word; otherwise the error names the base file and the URL |
| OvfConfig.ChecksumFromURL | builder/virtualbox/ovf/config.go:52-87 | every error it gives is a checksum failure; an empty checksum comes only from a URL without a scheme |
| OvfConfig.PrepareKeepsSettings | builder/virtualbox/ovf/config.go:39 | the type is stored lower-cased; the checksum URL and the target path are never changed |
| OvfConfig.SourcePathRequiredIff | builder/virtualbox/ovf/config.go:32-34 | the missing source path is reported exactly when the path is empty, and first |
| OvfConfig.ChecksumTypeRequiredIff | builder/virtualbox/ovf/config.go:36-37 | the missing type is reported exactly when the type is empty; it is then the only checksum error, and there is no warning |
| OvfConfig.NoneWarningIff | builder/virtualbox/ovf/config.go:100-103 | the warnings are the `none` warning exactly when the type is `none`, in any letter case, and nothing otherwise |
| OvfConfig.OvfErrorsAreOwn | builder/virtualbox/ovf/config.go:26-106 | the OVF settings never report a guest-additions or sub-configuration error |
| OvfConfig.MissingChecksumStops | builder/virtualbox/ovf/config.go:41-43 | with no checksum and no URL, Prepare returns at once; the source path is not normalised |
| OvfConfig.UnsupportedTypeStops | builder/virtualbox/ovf/config.go:45-48 | an unsupported type returns at once, even with an inline checksum, which then stays as written |
| OvfConfig.InlineChecksumWins | builder/virtualbox/ovf/config.go:50-93 | with an inline checksum the URL collaborators do not matter, and the checksum is stored lower-cased |
| OvfConfig.NoneTypeSkipsChecksum | builder/virtualbox/ovf/config.go:40-97 | for the type `none` no checksum setting is validated and no URL collaborator is consulted, and only source-path errors can arise |
| OvfConfig.ManifestGivesChecksum | builder/virtualbox/ovf/config.go:57-94 | a manifest entry, fetched or read, for the base of the source path as written becomes the checksum, lower-cased |
| OvfConfig.ManifestWithoutEntry | builder/virtualbox/ovf/config.go:66-80 | a manifest without an entry stops Prepare with the not-found error |
| OvfConfig.ManifestPanicPropagates | builder/virtualbox/ovf/config.go:66-81 | the index-out-of-range panic of the scan ends Prepare |
| OvfConfig.ChecksumSourceFailures | builder/virtualbox/ovf/config.go:52-86 | a URL that cannot be parsed, fetched or opened, or has another scheme, stops Prepare with its error |
| OvfConfig.SchemelessURLLeavesChecksumEmpty | builder/virtualbox/ovf/config.go:82-83 | a URL without a scheme fetches nothing, and Prepare completes with an empty checksum and no checksum error |
| OvfConfig.ChecksumResolvedOrReported | builder/virtualbox/ovf/config.go:36-93 | for a type other than `none`, the checksum is non-empty, reported as failed, or the run panics; the one exception is a URL without a scheme |
| OvfConfig.ChecksumLowerCase | builder/virtualbox/ovf/config.go:45-93 | no upper-case letter is left in the checksum, unless an unsupported type returned first |
| OvfConfig.ErrorsAccumulate | builder/virtualbox/ovf/config.go:32-37 | a missing source path and a missing type are both reported, in that order |
| Builder.SectionErrors | builder/virtualbox/ovf/builder.go:79-89 | one sub-configuration's errors, each tagged with its section, in order |
| Builder.SubConfigErrors | builder/virtualbox/ovf/builder.go:79-89 | every error comes from one of the sections; no error exactly when every section reports none |
| Builder.CollectErrors | builder/virtualbox/ovf/builder.go:79-89 | appending the sections' errors one after the other gives `SubConfigErrors` |
| Builder.IsValidMode | builder/virtualbox/ovf/builder.go:109-121 | the loop finds the mode exactly when it is in the list |
| Builder.Builder.Prepare | builder/virtualbox/ovf/builder.go:53-144 | the OVF fields are those of `PrepareResult`; without a panic, the settings, the warnings and the error are those of `PrepareConfig`, and the error is nil exactly when nothing was collected |
| Builder.Builder.PrepareSettings | builder/virtualbox/ovf/builder.go:76-143 | the settings, the warnings and the error are those of `PrepareConfig` |
| Builder.Builder.ApplyDefaults | builder/virtualbox/ovf/builder.go:91-107 | the settings become `Defaulted` of the old settings |
| Builder.Builder.Run | builder/virtualbox/ovf/builder.go:148-280 | a driver failure ends the run before any step or runner exists; otherwise the runner holds `Steps`, and the outcome is `Classify` of the state the steps leave from `InitialState` |
| Builder.InitialState | builder/virtualbox/ovf/builder.go:252-259 | the state starts with exactly the six keys config, debug, driver, cache, hook and ui, and none of the signal keys |
| Builder.Returned | builder/virtualbox/ovf/builder.go:148-279 | a build returns an artifact or an error, never both, and returns neither only on a panic |
| Builder.GuestAdditionsDefaults | builder/virtualbox/ovf/builder.go:91-97 | an unset mode becomes `upload` and an unset path `VBoxGuestAdditions.iso`; set values are kept |
| Builder.VMNameDefault | builder/virtualbox/ovf/builder.go:99-101 | an unset VM name becomes `packer-<build name>-<time>`, from which the time reads back; a set name is kept |
| Builder.ImportOptionsAppended | builder/virtualbox/ovf/builder.go:105-107 | import options add exactly `--options <opts>` after the existing flags, which keep their order; without options nothing changes |
| Builder.GuestAdditionsChecksumLowerCase | builder/virtualbox/ovf/builder.go:128-130 | the guest-additions checksum keeps its length and has no upper-case letter left; one already in lower case is unchanged |
| Builder.OtherSettingsKept | builder/virtualbox/ovf/builder.go:91-130 | of the settings the model holds, the builder's own steps change only the five they default or normalise |
| Builder.ModeErrorIff | builder/virtualbox/ovf/builder.go:109-126 | the mode error is reported exactly when the defaulted mode is none of the three; an unset mode never errors |
| Builder.WarningsInOrder | builder/virtualbox/ovf/builder.go:73-137 | the warnings are the OVF warnings in order, then the shutdown warning exactly when no shutdown command is set |
| Builder.PrepareSucceedsIff | builder/virtualbox/ovf/builder.go:139-143 | no error is collected exactly when the OVF settings and every section report none and the defaulted mode is valid |
| Builder.DownloadUsesPreparedSource | builder/virtualbox/ovf/builder.go:177-185 | the download step uses the checksum, the lower-cased type and the normalised source path that Prepare resolved |
| Builder.StepOrder | builder/virtualbox/ovf/builder.go:156-250 | the list has 22 steps; output directory first; one download, right before the one import; the pre-boot VBoxManage commands before the VM starts; the post ones after shutdown; one export, last |
| Builder.ErrorWins | builder/virtualbox/ovf/builder.go:266-268 | a stored error decides the outcome, whatever else the state holds |
| Builder.CancelledBeforeHalted | builder/virtualbox/ovf/builder.go:270-273 | without an error, a cancellation decides, whether or not the build also halted |
| Builder.HaltedBeforeArtifact | builder/virtualbox/ovf/builder.go:275-277 | without an error or a cancellation, a halt decides over the artifact |
| Builder.OnlySignalsDecide | builder/virtualbox/ovf/builder.go:266-279 | keys other than error, cancelled and halted never change the outcome; the artifact comes exactly when none of the three is set |
| Builder.LowerSignalIgnored | builder/virtualbox/ovf/builder.go:266-277 | a lower signal changes nothing once a higher one is set |
| Builder.QuietRunFinishes | builder/virtualbox/ovf/builder.go:252-279 | steps that leave the initial state as it is give the artifact |

## Left out

- Configuration decoding and template interpolation (`config.Decode`,
  builder.go:54-69) come from a library that is not part of this model.
  `Builder.Prepare` starts from settings already decoded, so its early return
  on a decoding error is not modelled.
- The sub-configurations' own `Prepare` functions (builder.go:79-89) are not
  part of this model. Their results are a parameter, a list of error messages
  per section, appended in call order. The eleven calls become a loop over
  the sections in that order.
- `Builder.OtherSettingsKept`: the sub-configurations' `Prepare` functions
  (builder.go:79-89) work on the builder's own embedded settings and can
  default or normalise them (output directory, format, boot wait, shutdown
  timeout, ports, version file). Those changes are not modelled. `Config`
  holds those settings as they are after preparation, and the lemma covers
  only the settings `Builder.Prepare` itself touches.
- Packer's `MultiError` is modelled as the flat list of the errors appended to it.
- `common.HashForType` and `common.DownloadableURL` are not part of this model.
  The first is a predicate on type names. The second is a function from a path
  to a normalised path plus an optional error.
- `url.Parse`, `http.Get` and `os.Open` are I/O and are parameters. A successful
  fetch gives the whole body as text. A fetch error gives its cause.
- The model does not read the HTTP status code; like the Go code, it does not check it.
- Read errors in the middle of a body are not modelled. `ReadString` fails
  here only at the end of the text.
- Closing the response body or the file is not modelled.
- Text is a sequence of characters, not UTF-8 bytes.
- `Text.Lower`: maps only the ASCII letters `A`-`Z`. `strings.ToLower` also
  lower-cases other Unicode letters. Checksums, types and hex digests are ASCII.
- `Text.Base`: follows `filepath.Base` on Unix, with `/` as the only separator.
- The `multistep` runner is a library that is not part of this model. That
  covers running the steps, their cleanup in reverse order, the pause between
  steps when debugging and its handling of cancellation. The model gives the
  runner as a function from the step list and initial state to the final state.
  Each step's own behaviour is not modelled.
- `vboxcommon.NewDriver` and `vboxcommon.NewArtifact` are not part of this model.
  Their results are parameters.
- Steps carry the settings that decide their behaviour. They do not carry the
  interpolation context or the SSH communicator configuration.
- `Builder.Cancel` (builder.go:283-288) is asynchronous cancellation from
  another goroutine. Concurrency is not modelled.
- The template's start time `interpolate.InitTime` is a parameter, `initTime`,
  in Unix seconds.
- `Builder.Builder.Prepare`: when the OVF settings panic, the Go process panics.
  The model returns the panic and leaves the builder settings as they were.
  What Go would do with its return values there is not modelled.
