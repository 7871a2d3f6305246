/**
  The values the OVF builder's preparation and run report: Go `error`
  values as a closed datatype with the data each message carries, and the
  run-time panics that the Go code can reach.
*/
module Errors {

  datatype Option<+T> = None | Some(value: T)

  /** A Go run-time panic: the program stops instead of returning. */
  datatype Panic =
    | IndexOutOfRange(index: nat, length: nat)  // `parts[index]` on a slice of `length` elements
    | NotAnError(key: string)                   // `rawErr.(error)` on a value that is no error

  /** The sub-configurations whose own Prepare the builder calls, in the order it calls them. */
  datatype Section =
    | ExportConfig | ExportOpts | FloppyConfig | HTTPConfig | OutputConfig | RunConfig
    | ShutdownConfig | SSHConfig | VBoxManageConfig | VBoxManagePostConfig | VBoxVersionConfig

  datatype Error =
    | SourcePathRequired                                // "The source_path must be specified."
    | ChecksumTypeRequired                              // "The checksum_type must be specified."
    | ChecksumRequired                                  // "Due to large file sizes, an checksum is required"
    | UnsupportedChecksumType(checksumType: string)     // "Unsupported checksum type: %s"
    | ChecksumURLParseError(cause: string)              // "Error parsing checksum: %s"
    | ChecksumFetchError(url: string)                   // "Error getting checksum from url: %s"
    | ChecksumOpenError(cause: string)                  // the error of opening the manifest file
    | ChecksumNotFound(file: string, url: string)       // "No checksum for %q found at: %s"
    | UnsupportedChecksumScheme(url: string, scheme: string)
                                                        // "Error parsing checksum url: %s, scheme not supported: %s"
    | SourcePathParseError(cause: string)               // "Failed to parse source_path: %s"
    | InvalidGuestAdditionsMode(validModes: seq<string>)
                                                        // "guest_additions_mode is invalid. Must be one of: %v"
    | SubConfigError(section: Section, cause: string)   // an error from a sub-configuration's Prepare
}
