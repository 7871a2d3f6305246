/**
  OVFConfig: the source, checksum and target settings of the OVF builder,
  and its Prepare, which validates and normalises them in place and
  resolves the checksum, from the inline value or from a checksum manifest
  fetched over HTTP(S) or read from a file.
*/
module OvfConfig {
  import opened Text
  import opened Errors
  import opened Manifest

  const NONE_TYPE := "none"
  const NONE_WARNING := "A checksum type of 'none' was specified. Since OVA files can be big,\na checksum is highly recommended."

  /** The five configuration fields, as a value. */
  datatype OvfState = OvfState(
    sourcePath: string,
    checksum: string,
    checksumURL: string,
    checksumType: string,
    targetPath: string)

  /** What url.Parse gives: the scheme and path of a URL, or a parse error. */
  datatype URL = URL(scheme: string, path: string)
  datatype URLParse = Parsed(url: URL) | Unparsable(cause: string)

  /** The body that http.Get or os.Open delivers, or the error that stopped it. */
  datatype Fetch = Fetched(body: string) | Unavailable(cause: string)

  /** What common.DownloadableURL gives: the path it stores and, possibly, an error. */
  datatype Normalized = Normalized(path: string, failure: Option<string>)

  /** The collaborators that Prepare calls. */
  datatype Env = Env(
    hashForType: string -> bool,           // common.HashForType returns a hash for this type
    parseURL: string -> URLParse,          // url.Parse
    httpGet: string -> Fetch,              // http.Get, then the response body
    openFile: string -> Fetch,             // os.Open, then the file's contents
    downloadableURL: string -> Normalized)  // common.DownloadableURL

  /** The outcome of Prepare: the new fields, the warnings and errors, and a panic if one occurred. */
  datatype Prepared = Prepared(state: OvfState, warnings: seq<string>, errs: seq<Error>, crash: Option<Panic>)

  /** An early return: no warnings, and the fields as they are at that point. */
  function Stopped(c: OvfState, errs: seq<Error>): Prepared {
    Prepared(c, [], errs, None)
  }

  /** The common end of Prepare: lower-case the checksum, normalise the source path, warn about `none`. */
  function Completed(c: OvfState, env: Env, errs: seq<Error>): Prepared {
    Prepared(
      c.(checksum := Lower(c.checksum), sourcePath := env.downloadableURL(c.sourcePath).path),
      if c.checksumType == NONE_TYPE then [NONE_WARNING] else [],
      errs + NormErrors(env, c.sourcePath),
      None)
  }

  /** The error reported first, for an empty source path. */
  function PathErrors(c: OvfState): seq<Error> {
    if c.sourcePath == "" then [SourcePathRequired] else []
  }

  /** The error reported last, when the source path cannot be made a URL. */
  function NormErrors(env: Env, path: string): seq<Error> {
    var n := env.downloadableURL(path);
    if n.failure.Some? then [SourcePathParseError(n.failure.value)] else []
  }

  /** The errors the OVF settings report, as against those of the rest of the builder. */
  predicate IsOwnError(e: Error) {
    !e.InvalidGuestAdditionsMode? && !e.SubConfigError?
  }

  /** The errors that say the checksum could not be resolved. */
  predicate IsChecksumFailure(e: Error) {
    || e.ChecksumTypeRequired? || e.ChecksumRequired? || e.UnsupportedChecksumType?
    || e.ChecksumURLParseError? || e.ChecksumFetchError? || e.ChecksumOpenError?
    || e.ChecksumNotFound? || e.UnsupportedChecksumScheme?
  }

  /** How the checksum URL resolves the checksum: to a value, to the error that stops Prepare, or to a panic. */
  datatype Resolution = Resolved(checksum: string) | Unresolved(err: Error) | Panicked(panic: Panic)

  /** The checksum a manifest body gives for the base name of the source path. */
  function FromManifest(c: OvfState, body: string): (r: Resolution)
    ensures r.Resolved? ==> IsWord(r.checksum)
    ensures r.Unresolved? ==> r.err == ChecksumNotFound(Base(c.sourcePath), c.checksumURL)
  {
    match ParseManifest(body, c.checksumType, Base(c.sourcePath))
    case Match(hash) => Resolved(hash)
    case NoMatch => Unresolved(ChecksumNotFound(Base(c.sourcePath), c.checksumURL))
    case Crash(p) => Panicked(p)
  }

  /**
    The checksum from the checksum URL, dispatched on its scheme: fetched
    over HTTP(S), read from a file, nothing at all for a URL without a
    scheme, and an error for any other scheme.
  */
  function ChecksumFromURL(c: OvfState, env: Env): (r: Resolution)
    ensures r.Unresolved? ==> IsChecksumFailure(r.err)
    ensures r.Resolved? && r.checksum == "" ==>
              env.parseURL(c.checksumURL).Parsed? && env.parseURL(c.checksumURL).url.scheme == ""
  {
    match env.parseURL(c.checksumURL)
    case Unparsable(cause) => Unresolved(ChecksumURLParseError(cause))
    case Parsed(u) =>
      if u.scheme == "http" || u.scheme == "https" then
        match env.httpGet(c.checksumURL)
        case Unavailable(_) => Unresolved(ChecksumFetchError(c.checksumURL))
        case Fetched(body) => FromManifest(c, body)
      else if u.scheme == "file" then
        match env.openFile(u.path)
        case Unavailable(cause) => Unresolved(ChecksumOpenError(cause))
        case Fetched(body) => FromManifest(c, body)
      else if u.scheme == "" then Resolved("")
      else Unresolved(UnsupportedChecksumScheme(c.checksumURL, u.scheme))
  }

  /** What OVFConfig.Prepare does to a configuration, as a function of the fields and the collaborators. */
  function PrepareResult(c: OvfState, env: Env): Prepared
  {
    var errs := PathErrors(c);
    if c.checksumType == "" then Completed(c, env, errs + [ChecksumTypeRequired])
    else
      var c1 := c.(checksumType := Lower(c.checksumType));
      if c1.checksumType == NONE_TYPE then Completed(c1, env, errs)
      else if c1.checksum == "" && c1.checksumURL == "" then Stopped(c1, errs + [ChecksumRequired])
      else if !env.hashForType(c1.checksumType) then Stopped(c1, errs + [UnsupportedChecksumType(c1.checksumType)])
      else if c1.checksum != "" then Completed(c1, env, errs)
      else
        match ChecksumFromURL(c1, env)
        case Resolved(hash) => Completed(c1.(checksum := hash), env, errs)
        case Unresolved(e) => Stopped(c1, errs + [e])
        case Panicked(p) => Prepared(c1, [], errs, Some(p))
  }

  class OVFConfig {
    var sourcePath: string
    var checksum: string
    var checksumURL: string
    var checksumType: string
    var targetPath: string

    constructor (s: OvfState)
      ensures State() == s
    {
      sourcePath, checksum, checksumURL, checksumType, targetPath :=
        s.sourcePath, s.checksum, s.checksumURL, s.checksumType, s.targetPath;
    }

    function State(): OvfState
      reads this
    {
      OvfState(sourcePath, checksum, checksumURL, checksumType, targetPath)
    }

    /**
      parseCheckSumFile: scan the manifest `rd` line by line; the first line
      naming the base of the source path sets the checksum. When no line
      does, the result is the not-found error and the checksum is untouched.
    */
    method ParseChecksumFile(rd: string) returns (err: Option<Error>, crash: Option<Panic>)
      modifies this`checksum
      ensures var v := ParseManifest(rd, checksumType, Base(sourcePath));
              && (v.Match? ==> checksum == v.hash && err == None && crash == None)
              && (v.NoMatch? ==> checksum == old(checksum) && crash == None
                                 && err == Some(ChecksumNotFound(Base(sourcePath), checksumURL)))
              && (v.Crash? ==> checksum == old(checksum) && err == None && crash == Some(v.panic))
    {
      var base := Base(sourcePath);
      var errNotFound := ChecksumNotFound(base, checksumURL);
      var pos := 0;
      while true
        invariant pos <= |rd|
        invariant ParseManifest(rd[pos..], checksumType, base) == ParseManifest(rd, checksumType, base)
        invariant checksum == old(checksum)
        decreases |rd| - pos
      {
        // rd.ReadString('\n'): the text up to and including the next newline;
        // an error accompanies it when no newline was found.
        var n := LineLen(rd[pos..]);
        var line := rd[pos..pos + n];
        var failed := pos + n == |rd| && (n == 0 || rd[pos + n - 1] != '\n');
        if failed && line == "" {
          break;
        }
        assert rd[pos..][n..] == rd[pos + n..];
        assert rd[pos..][..n] == line;
        pos := pos + n;
        var parts := Fields(line);
        if |parts| < 2 {
          continue;
        }
        if Lower(parts[0]) == checksumType {
          // the first field names the type: read the line as BSD
          if parts[1] == "(" + base + ")" {
            if |parts| <= 3 {
              return None, Some(IndexOutOfRange(3, |parts|));
            }
            checksum := parts[3];
            return None, None;
          }
        } else {
          // otherwise read it as GNU: hash, then name
          if parts[1][0] == '*' {
            // a leading `*` marks a binary-mode entry
            parts := parts[1 := parts[1][1..]];
          }
          if parts[1] == base {
            checksum := parts[0];
            return None, None;
          }
        }
      }
      assert rd[pos..] == [];
      return Some(errNotFound), None;
    }

    /**
      Prepare: validate and normalise the fields in place, accumulating
      errors, with an early return where the checksum cannot be resolved.
    */
    method Prepare(env: Env) returns (warnings: seq<string>, errs: seq<Error>, crash: Option<Panic>)
      modifies this
      ensures Prepared(State(), warnings, errs, crash) == PrepareResult(old(State()), env)
    {
      warnings, errs, crash := [], [], None;
      if sourcePath == "" {
        errs := errs + [SourcePathRequired];
      }
      if checksumType == "" {
        errs := errs + [ChecksumTypeRequired];
      } else {
        checksumType := Lower(checksumType);
        if checksumType != NONE_TYPE {
          if checksum == "" && checksumURL == "" {
            errs := errs + [ChecksumRequired];
            return;
          } else {
            if !env.hashForType(checksumType) {
              errs := errs + [UnsupportedChecksumType(checksumType)];
              return;
            }
            // no inline checksum: resolve it from the URL
            if checksum == "" {
              var err;
              err, crash := FetchChecksum(env);
              if crash.Some? {
                return;
              }
              if err.Some? {
                errs := errs + [err.value];
                return;
              }
            }
          }
        }
      }

      warnings, errs := Finish(env, errs);
    }

    /** The part of Prepare that uses the checksum URL, reached when no inline checksum is set. */
    method FetchChecksum(env: Env) returns (err: Option<Error>, crash: Option<Panic>)
      requires checksum == ""
      modifies this`checksum
      ensures match ChecksumFromURL(old(State()), env)
              case Resolved(hash) => checksum == hash && err == None && crash == None
              case Unresolved(e) => err == Some(e) && crash == None && checksum == ""
              case Panicked(p) => crash == Some(p) && err == None && checksum == ""
    {
      var u := env.parseURL(checksumURL);
      if u.Unparsable? {
        return Some(ChecksumURLParseError(u.cause)), None;
      }
      var scheme := u.url.scheme;
      if scheme == "http" || scheme == "https" {
        var res := env.httpGet(checksumURL);
        checksum := "";
        if res.Unavailable? {
          return Some(ChecksumFetchError(checksumURL)), None;
        }
        err, crash := ParseChecksumFile(res.body);
      } else if scheme == "file" {
        var file := env.openFile(u.url.path);
        if file.Unavailable? {
          return Some(ChecksumOpenError(file.cause)), None;
        }
        err, crash := ParseChecksumFile(file.body);
      } else if scheme == "" {
        return None, None;
      } else {
        return Some(UnsupportedChecksumScheme(checksumURL, scheme)), None;
      }
    }

    /** The end of Prepare reached by every path that does not return early. */
    method Finish(env: Env, errs0: seq<Error>) returns (warnings: seq<string>, errs: seq<Error>)
      modifies this
      ensures Prepared(State(), warnings, errs, None) == Completed(old(State()), env, errs0)
    {
      warnings, errs := [], errs0;
      checksum := Lower(checksum);
      var normalized := env.downloadableURL(sourcePath);
      sourcePath := normalized.path;
      if normalized.failure.Some? {
        errs := errs + [SourcePathParseError(normalized.failure.value)];
      }

      // the one warning, for the type `none`
      if checksumType == NONE_TYPE {
        warnings := warnings + [NONE_WARNING];
      }
    }
  }

  /** The type is stored lower-cased; the URL and the target path are never touched. */
  lemma PrepareKeepsSettings(c: OvfState, env: Env)
    ensures PrepareResult(c, env).state.checksumType == Lower(c.checksumType)
    ensures PrepareResult(c, env).state.checksumURL == c.checksumURL
    ensures PrepareResult(c, env).state.targetPath == c.targetPath
  {
  }

  /** An empty source path is reported, first, and only then. */
  lemma SourcePathRequiredIff(c: OvfState, env: Env)
    ensures (SourcePathRequired in PrepareResult(c, env).errs) <==> c.sourcePath == ""
    ensures c.sourcePath == "" ==> PrepareResult(c, env).errs[0] == SourcePathRequired
  {
  }

  /** A missing checksum type is reported, and only then; it is then the only checksum error and no warning is given. */
  lemma ChecksumTypeRequiredIff(c: OvfState, env: Env)
    ensures (ChecksumTypeRequired in PrepareResult(c, env).errs) <==> c.checksumType == ""
    ensures c.checksumType == "" ==> PrepareResult(c, env).warnings == [] && PrepareResult(c, env).crash == None
    ensures c.checksumType == "" ==>
              forall e :: e in PrepareResult(c, env).errs && IsChecksumFailure(e) ==> e == ChecksumTypeRequired
  {
  }

  /** The `none` warning is given exactly for the type `none`, in any letter case, and is the only warning. */
  lemma NoneWarningIff(c: OvfState, env: Env)
    ensures PrepareResult(c, env).warnings == if Lower(c.checksumType) == NONE_TYPE then [NONE_WARNING] else []
  {
  }

  /** Every error Prepare reports is one of the OVF settings' own. */
  lemma OvfErrorsAreOwn(c: OvfState, env: Env)
    ensures forall e :: e in PrepareResult(c, env).errs ==> IsOwnError(e)
  {
    var errs := PathErrors(c);
    if c.checksumType == "" {
      CompletedErrorsAreOwn(c, env, errs + [ChecksumTypeRequired]);
    } else {
      var c1 := c.(checksumType := Lower(c.checksumType));
      if c1.checksumType == NONE_TYPE || (c1.checksum != "" && env.hashForType(c1.checksumType)) {
        CompletedErrorsAreOwn(c1, env, errs);
      } else if (c1.checksum != "" || c1.checksumURL != "") && env.hashForType(c1.checksumType) {
        var r := ChecksumFromURL(c1, env);
        if r.Resolved? {
          CompletedErrorsAreOwn(c1.(checksum := r.checksum), env, errs);
        }
      }
    }
  }

  /** The common end of Prepare adds only the source-path error to what it is given. */
  lemma CompletedErrorsAreOwn(c: OvfState, env: Env, errs: seq<Error>)
    requires forall e :: e in errs ==> IsOwnError(e)
    ensures forall e :: e in Completed(c, env, errs).errs ==> IsOwnError(e)
  {
  }

  /** A checksum type is set, and it is not `none` in any letter case. */
  predicate TypeNeedsChecksum(c: OvfState) {
    c.checksumType != "" && Lower(c.checksumType) != NONE_TYPE
  }

  /** With neither an inline checksum nor a URL, Prepare stops before touching the checksum or the source path. */
  lemma MissingChecksumStops(c: OvfState, env: Env)
    requires TypeNeedsChecksum(c) && c.checksum == "" && c.checksumURL == ""
    ensures PrepareResult(c, env)
         == Stopped(c.(checksumType := Lower(c.checksumType)), PathErrors(c) + [ChecksumRequired])
  {
  }

  /**
    An unsupported type stops Prepare even when an inline checksum is given:
    the checksum is then kept as written, not lower-cased.
  */
  lemma UnsupportedTypeStops(c: OvfState, env: Env)
    requires TypeNeedsChecksum(c) && (c.checksum != "" || c.checksumURL != "")
    requires !env.hashForType(Lower(c.checksumType))
    ensures PrepareResult(c, env)
         == Stopped(c.(checksumType := Lower(c.checksumType)),
                    PathErrors(c) + [UnsupportedChecksumType(Lower(c.checksumType))])
  {
  }

  /**
    An inline checksum wins over the URL: the outcome does not depend on
    url.Parse, http.Get or os.Open, and the checksum is stored lower-cased.
  */
  lemma InlineChecksumWins(c: OvfState, env: Env, env': Env)
    requires c.checksum != ""
    requires env'.hashForType(Lower(c.checksumType)) == env.hashForType(Lower(c.checksumType))
    requires env'.downloadableURL(c.sourcePath) == env.downloadableURL(c.sourcePath)
    ensures PrepareResult(c, env') == PrepareResult(c, env)
    ensures TypeNeedsChecksum(c) && env.hashForType(Lower(c.checksumType)) ==>
              && PrepareResult(c, env).state.checksum == Lower(c.checksum)
              && PrepareResult(c, env).errs == PathErrors(c) + NormErrors(env, c.sourcePath)
              && PrepareResult(c, env).crash == None
  {
  }

  /** With the type `none` the checksum settings are not looked at. */
  lemma NoneTypeSkipsChecksum(c: OvfState, env: Env, env': Env)
    requires Lower(c.checksumType) == NONE_TYPE
    requires env'.downloadableURL(c.sourcePath) == env.downloadableURL(c.sourcePath)
    ensures PrepareResult(c, env') == PrepareResult(c, env)
    ensures PrepareResult(c, env).errs == PathErrors(c) + NormErrors(env, c.sourcePath)
    ensures PrepareResult(c, env).crash == None
  {
    assert c.checksumType != "" by {
      assert |Lower(c.checksumType)| == |c.checksumType|;
    }
  }

  /** The conditions under which Prepare reads a manifest from `body`. */
  predicate ReadsManifest(c: OvfState, env: Env, body: string) {
    && TypeNeedsChecksum(c) && env.hashForType(Lower(c.checksumType))
    && c.checksum == "" && c.checksumURL != ""
    && env.parseURL(c.checksumURL).Parsed?
    && var u := env.parseURL(c.checksumURL).url;
       || ((u.scheme == "http" || u.scheme == "https") && env.httpGet(c.checksumURL) == Fetched(body))
       || (u.scheme == "file" && env.openFile(u.path) == Fetched(body))
  }

  /**
    A manifest entry for the base name of the source path, as written
    before normalisation, gives the checksum, lower-cased.
  */
  lemma ManifestGivesChecksum(c: OvfState, env: Env, body: string, hash: string)
    requires ReadsManifest(c, env, body)
    requires ParseManifest(body, Lower(c.checksumType), Base(c.sourcePath)) == Match(hash)
    ensures PrepareResult(c, env).state.checksum == Lower(hash)
    ensures PrepareResult(c, env).state.checksum != ""
    ensures PrepareResult(c, env).state.sourcePath == env.downloadableURL(c.sourcePath).path
    ensures PrepareResult(c, env).errs == PathErrors(c) + NormErrors(env, c.sourcePath)
    ensures PrepareResult(c, env).crash == None
  {
    assert |Lower(hash)| == |hash|;
  }

  /** A manifest without an entry for the file is reported, naming the file and the URL. */
  lemma ManifestWithoutEntry(c: OvfState, env: Env, body: string)
    requires ReadsManifest(c, env, body)
    requires ParseManifest(body, Lower(c.checksumType), Base(c.sourcePath)) == NoMatch
    ensures PrepareResult(c, env)
         == Stopped(c.(checksumType := Lower(c.checksumType)),
                    PathErrors(c) + [ChecksumNotFound(Base(c.sourcePath), c.checksumURL)])
  {
  }

  /** A truncated BSD line for the file ends Prepare in the index-out-of-range panic. */
  lemma ManifestPanicPropagates(c: OvfState, env: Env, body: string)
    requires ReadsManifest(c, env, body)
    requires ParseManifest(body, Lower(c.checksumType), Base(c.sourcePath)).Crash?
    ensures PrepareResult(c, env).crash
         == Some(ParseManifest(body, Lower(c.checksumType), Base(c.sourcePath)).panic)
    ensures PrepareResult(c, env).crash.value.IndexOutOfRange?
  {
  }

  /** A URL that cannot be parsed, fetched or opened stops Prepare with the matching error. */
  lemma ChecksumSourceFailures(c: OvfState, env: Env)
    requires TypeNeedsChecksum(c) && env.hashForType(Lower(c.checksumType))
    requires c.checksum == "" && c.checksumURL != ""
    ensures var r := PrepareResult(c, env);
            var c1 := c.(checksumType := Lower(c.checksumType));
            match env.parseURL(c.checksumURL)
            case Unparsable(cause) => r == Stopped(c1, PathErrors(c) + [ChecksumURLParseError(cause)])
            case Parsed(u) =>
              && ((u.scheme == "http" || u.scheme == "https") && env.httpGet(c.checksumURL).Unavailable? ==>
                    r == Stopped(c1, PathErrors(c) + [ChecksumFetchError(c.checksumURL)]))
              && (u.scheme == "file" && env.openFile(u.path).Unavailable? ==>
                    r == Stopped(c1, PathErrors(c) + [ChecksumOpenError(env.openFile(u.path).cause)]))
              && (u.scheme !in {"http", "https", "file", ""} ==>
                    r == Stopped(c1, PathErrors(c) + [UnsupportedChecksumScheme(c.checksumURL, u.scheme)]))
  {
  }

  /**
    A URL without a scheme is accepted and fetches nothing: Prepare
    completes with no checksum and no checksum error.
  */
  lemma SchemelessURLLeavesChecksumEmpty(c: OvfState, env: Env)
    requires TypeNeedsChecksum(c) && env.hashForType(Lower(c.checksumType))
    requires c.checksum == "" && c.checksumURL != ""
    requires env.parseURL(c.checksumURL).Parsed? && env.parseURL(c.checksumURL).url.scheme == ""
    ensures PrepareResult(c, env).state.checksum == ""
    ensures PrepareResult(c, env).errs == PathErrors(c) + NormErrors(env, c.sourcePath)
    ensures PrepareResult(c, env).crash == None
  {
  }

  /**
    For a type other than `none`, Prepare either resolves a non-empty
    checksum, reports why it could not, or panics; the one exception is a
    checksum URL without a scheme.
  */
  lemma ChecksumResolvedOrReported(c: OvfState, env: Env)
    requires TypeNeedsChecksum(c)
    ensures var r := PrepareResult(c, env);
            || r.state.checksum != ""
            || (exists e :: e in r.errs && IsChecksumFailure(e))
            || r.crash.Some?
            || (c.checksum == "" && env.parseURL(c.checksumURL).Parsed?
                && env.parseURL(c.checksumURL).url.scheme == "")
  {
    var r := PrepareResult(c, env);
    var c1 := c.(checksumType := Lower(c.checksumType));
    if c.checksum != "" && env.hashForType(c1.checksumType) {
      assert |Lower(c.checksum)| == |c.checksum|;
    } else if c.checksum == "" && c.checksumURL != "" && env.hashForType(c1.checksumType)
              && env.parseURL(c.checksumURL).Parsed? {
      var u := env.parseURL(c.checksumURL).url;
      if (u.scheme == "http" || u.scheme == "https") && env.httpGet(c.checksumURL).Fetched? {
        var hv := ParseManifest(env.httpGet(c.checksumURL).body, c1.checksumType, Base(c.sourcePath));
        if hv.Match? {
          assert |Lower(hv.hash)| == |hv.hash|;
        } else if hv.NoMatch? {
          assert IsChecksumFailure(r.errs[|PathErrors(c)|]);
        }
      } else if u.scheme == "file" && env.openFile(u.path).Fetched? {
        var fv := ParseManifest(env.openFile(u.path).body, c1.checksumType, Base(c.sourcePath));
        if fv.Match? {
          assert |Lower(fv.hash)| == |fv.hash|;
        } else if fv.NoMatch? {
          assert IsChecksumFailure(r.errs[|PathErrors(c)|]);
        }
      } else if u.scheme != "" {
        assert IsChecksumFailure(r.errs[|PathErrors(c)|]);
      }
    } else {
      assert IsChecksumFailure(r.errs[|PathErrors(c)|]);
    }
  }

  /**
    Prepare leaves no upper-case letter in the checksum, except when an
    unsupported type makes it return before lower-casing.
  */
  lemma ChecksumLowerCase(c: OvfState, env: Env)
    requires UnsupportedChecksumType(Lower(c.checksumType)) !in PrepareResult(c, env).errs
    ensures forall i :: 0 <= i < |PrepareResult(c, env).state.checksum| ==>
              !IsUpper(PrepareResult(c, env).state.checksum[i])
  {
  }

  /** Errors accumulate: an empty source path and an empty type are both reported, in that order. */
  lemma ErrorsAccumulate(c: OvfState, env: Env)
    requires c.sourcePath == "" && c.checksumType == ""
    ensures PrepareResult(c, env).errs[..2] == [SourcePathRequired, ChecksumTypeRequired]
  {
  }
}
