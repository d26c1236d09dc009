/** `JobFailureReason`: why a job failed, the line it is displayed as, and how much the line tells. */
module JobFailures {
  import opened Wrappers
  import opened Texts
  import opened Messages
  import opened JobResults

  /** Rust's `u64`. */
  type U64 = n: int | 0 <= n < 0x1_0000_0000_0000_0000

  predicate IsU64(n: int) { 0 <= n < 0x1_0000_0000_0000_0000 }

  datatype JobFailureReason =
    | CommandNotFound(command: string)
    | PermissionDenied(path: string, operation: string)
    | FileNotFound(path: string)
    | ProcessSpawnFailed(message: string)
    | ExecutionTimeout(limitSecs: U64)
    | SignalReceived(signal: I32)
    | NonZeroExitCode(exitCode: I32)
    | InfrastructureError(message: string)
    | ValidationError(field: string, reason: string)
    | ConfigurationError(key: string, message: string)
    | SecretInjectionError(secretName: string, message: string)
    | IoError(operation: string, ioPath: Option<string>, message: string)
    | Unknown(message: string)

  datatype Kind =
    | CommandNotFoundKind
    | PermissionDeniedKind
    | FileNotFoundKind
    | ProcessSpawnFailedKind
    | ExecutionTimeoutKind
    | SignalReceivedKind
    | NonZeroExitCodeKind
    | InfrastructureErrorKind
    | ValidationErrorKind
    | ConfigurationErrorKind
    | SecretInjectionErrorKind
    | IoErrorKind
    | UnknownKind

  function KindOf(v: JobFailureReason): Kind {
    match v
    case CommandNotFound(_) => CommandNotFoundKind
    case PermissionDenied(_, _) => PermissionDeniedKind
    case FileNotFound(_) => FileNotFoundKind
    case ProcessSpawnFailed(_) => ProcessSpawnFailedKind
    case ExecutionTimeout(_) => ExecutionTimeoutKind
    case SignalReceived(_) => SignalReceivedKind
    case NonZeroExitCode(_) => NonZeroExitCodeKind
    case InfrastructureError(_) => InfrastructureErrorKind
    case ValidationError(_, _) => ValidationErrorKind
    case ConfigurationError(_, _) => ConfigurationErrorKind
    case SecretInjectionError(_, _) => SecretInjectionErrorKind
    case IoError(_, _, _) => IoErrorKind
    case Unknown(_) => UnknownKind
  }

  function Tag(k: Kind): string {
    match k
    case CommandNotFoundKind => "COMMAND_NOT_FOUND"
    case PermissionDeniedKind => "PERMISSION_DENIED"
    case FileNotFoundKind => "FILE_NOT_FOUND"
    case ProcessSpawnFailedKind => "PROCESS_SPAWN_FAILED"
    case ExecutionTimeoutKind => "EXECUTION_TIMEOUT"
    case SignalReceivedKind => "SIGNAL_RECEIVED"
    case NonZeroExitCodeKind => "NON_ZERO_EXIT_CODE"
    case InfrastructureErrorKind => "INFRASTRUCTURE_ERROR"
    case ValidationErrorKind => "VALIDATION_ERROR"
    case ConfigurationErrorKind => "CONFIGURATION_ERROR"
    case SecretInjectionErrorKind => "SECRET_INJECTION_ERROR"
    case IoErrorKind => "IO_ERROR"
    case UnknownKind => "UNKNOWN_ERROR"
  }

  function Body(v: JobFailureReason): string {
    match v
    case CommandNotFound(command) => command
    case PermissionDenied(path, operation) => operation + " on " + path
    case FileNotFound(path) => path
    case ProcessSpawnFailed(message) => message
    case ExecutionTimeout(limitSecs) => "exceeded " + ShowInt(limitSecs) + " seconds"
    case SignalReceived(signal) => "signal " + ShowInt(signal)
    case NonZeroExitCode(exitCode) => "exit code " + ShowInt(exitCode)
    case InfrastructureError(message) => message
    case ValidationError(field, reason) => field + " - " + reason
    case ConfigurationError(key, message) => key + " - " + message
    case SecretInjectionError(secretName, message) => secretName + " - " + message
    case IoError(operation, path, message) => JoinMiddle(operation, " on ", path, " - ", message)
    case Unknown(message) => message
  }

  /** The displayed line. */
  function Show(v: JobFailureReason): string {
    Line(Tag(KindOf(v)), Some(Body(v)))
  }

  /** The lines, variant by variant. */
  lemma Lines(v: JobFailureReason)
    ensures Show(v) ==
      match v
      case CommandNotFound(command) => "COMMAND_NOT_FOUND" + ": " + command
      case PermissionDenied(path, operation) => "PERMISSION_DENIED" + ": " + (operation + " on " + path)
      case FileNotFound(path) => "FILE_NOT_FOUND" + ": " + path
      case ProcessSpawnFailed(message) => "PROCESS_SPAWN_FAILED" + ": " + message
      case ExecutionTimeout(limitSecs) => "EXECUTION_TIMEOUT" + ": " + ("exceeded " + ShowInt(limitSecs) + " seconds")
      case SignalReceived(signal) => "SIGNAL_RECEIVED" + ": " + ("signal " + ShowInt(signal))
      case NonZeroExitCode(exitCode) => "NON_ZERO_EXIT_CODE" + ": " + ("exit code " + ShowInt(exitCode))
      case InfrastructureError(message) => "INFRASTRUCTURE_ERROR" + ": " + message
      case ValidationError(field, reason) => "VALIDATION_ERROR" + ": " + (field + " - " + reason)
      case ConfigurationError(key, message) => "CONFIGURATION_ERROR" + ": " + (key + " - " + message)
      case SecretInjectionError(secretName, message) => "SECRET_INJECTION_ERROR" + ": " + (secretName + " - " + message)
      case IoError(operation, Some(path), message) => "IO_ERROR" + ": " + (operation + " on " + (path + " - " + message))
      case IoError(operation, None, message) => "IO_ERROR" + ": " + (operation + " - " + message)
      case Unknown(message) => "UNKNOWN_ERROR" + ": " + message
  {
  }

  // ---------- reading a line back ----------

  function EarlyKindTagged(tag: string): Option<Kind> {
    if tag == "COMMAND_NOT_FOUND" then Some(CommandNotFoundKind)
    else if tag == "PERMISSION_DENIED" then Some(PermissionDeniedKind)
    else if tag == "FILE_NOT_FOUND" then Some(FileNotFoundKind)
    else if tag == "PROCESS_SPAWN_FAILED" then Some(ProcessSpawnFailedKind)
    else if tag == "EXECUTION_TIMEOUT" then Some(ExecutionTimeoutKind)
    else if tag == "SIGNAL_RECEIVED" then Some(SignalReceivedKind)
    else if tag == "NON_ZERO_EXIT_CODE" then Some(NonZeroExitCodeKind)
    else None
  }

  function LateKindTagged(tag: string): Option<Kind> {
    if tag == "INFRASTRUCTURE_ERROR" then Some(InfrastructureErrorKind)
    else if tag == "VALIDATION_ERROR" then Some(ValidationErrorKind)
    else if tag == "CONFIGURATION_ERROR" then Some(ConfigurationErrorKind)
    else if tag == "SECRET_INJECTION_ERROR" then Some(SecretInjectionErrorKind)
    else if tag == "IO_ERROR" then Some(IoErrorKind)
    else if tag == "UNKNOWN_ERROR" then Some(UnknownKind)
    else None
  }

  function KindTagged(tag: string): Option<Kind> {
    match EarlyKindTagged(tag)
    case Some(k) => Some(k)
    case None => LateKindTagged(tag)
  }

  function ReadBody(k: Kind, b: string): Option<JobFailureReason> {
    match k
    case CommandNotFoundKind => Some(CommandNotFound(b))
    case PermissionDeniedKind =>
      (match CutAtFirst(b, " on ")
       case None => None
       case Some((operation, path)) => Some(PermissionDenied(path, operation)))
    case FileNotFoundKind => Some(FileNotFound(b))
    case ProcessSpawnFailedKind => Some(ProcessSpawnFailed(b))
    case ExecutionTimeoutKind =>
      (match ReadBetween(b, "exceeded ", " seconds")
       case None => None
       case Some(n) => if IsU64(n) then Some(ExecutionTimeout(n)) else None)
    case SignalReceivedKind =>
      (match ReadAfter(b, "signal ")
       case None => None
       case Some(n) => if IsI32(n) then Some(SignalReceived(n)) else None)
    case NonZeroExitCodeKind =>
      (match ReadAfter(b, "exit code ")
       case None => None
       case Some(n) => if IsI32(n) then Some(NonZeroExitCode(n)) else None)
    case InfrastructureErrorKind => Some(InfrastructureError(b))
    case ValidationErrorKind =>
      (match CutAtFirst(b, " - ")
       case None => None
       case Some((field, reason)) => Some(ValidationError(field, reason)))
    case ConfigurationErrorKind =>
      (match CutAtFirst(b, " - ")
       case None => None
       case Some((key, message)) => Some(ConfigurationError(key, message)))
    case SecretInjectionErrorKind =>
      (match CutAtFirst(b, " - ")
       case None => None
       case Some((secretName, message)) => Some(SecretInjectionError(secretName, message)))
    case IoErrorKind =>
      (match CutMiddle(b, " on ", " - ")
       case None => None
       case Some((operation, path, message)) => Some(IoError(operation, path, message)))
    case UnknownKind => Some(Unknown(b))
  }

  /** Reads a displayed line, taking each separator at its first occurrence. */
  function Read(s: string): Option<JobFailureReason> {
    match ReadLine(s)
    case (_, None) => None
    case (tag, Some(b)) =>
      match KindTagged(tag)
      case None => None
      case Some(k) => ReadBody(k, b)
  }

  /** The fields in front of a separator do not hide it. */
  predicate Clean(v: JobFailureReason) {
    match v
    case PermissionDenied(_, operation) => !Hides(operation, " on ")
    case ValidationError(field, _) => !Hides(field, " - ")
    case ConfigurationError(key, _) => !Hides(key, " - ")
    case SecretInjectionError(secretName, _) => !Hides(secretName, " - ")
    case IoError(operation, path, _) =>
      && !Occurs(" on ", operation + " ")
      && !Occurs(" - ", operation + " ")
      && (path.Some? ==> !Hides(path.value, " - "))
    case _ => true
  }

  predicate IsEarly(k: Kind) {
    || k.CommandNotFoundKind? || k.PermissionDeniedKind? || k.FileNotFoundKind? || k.ProcessSpawnFailedKind?
    || k.ExecutionTimeoutKind? || k.SignalReceivedKind? || k.NonZeroExitCodeKind?
  }

  lemma EarlyTagHasNoColon(k: Kind)
    requires IsEarly(k)
    ensures ':' !in Tag(k)
  {
  }

  lemma LateTagHasNoColon(k: Kind)
    requires !IsEarly(k)
    ensures ':' !in Tag(k)
  {
  }

  lemma EarlyTagReads(k: Kind)
    ensures EarlyKindTagged(Tag(k)) == if IsEarly(k) then Some(k) else None
  {
  }

  lemma LateTagReads(k: Kind)
    requires !IsEarly(k)
    ensures LateKindTagged(Tag(k)) == Some(k)
  {
  }

  lemma TagReads(k: Kind)
    ensures ':' !in Tag(k) && KindTagged(Tag(k)) == Some(k)
  {
    EarlyTagReads(k);
    if IsEarly(k) {
      EarlyTagHasNoColon(k);
    } else {
      LateTagHasNoColon(k);
      LateTagReads(k);
    }
  }

  lemma EarlyKindSound(tag: string)
    ensures EarlyKindTagged(tag).Some? ==> Tag(EarlyKindTagged(tag).value) == tag
  {
  }

  lemma LateKindSound(tag: string)
    ensures LateKindTagged(tag).Some? ==> Tag(LateKindTagged(tag).value) == tag
  {
  }

  lemma KindTaggedSound(tag: string)
    ensures KindTagged(tag).Some? ==> Tag(KindTagged(tag).value) == tag
  {
    EarlyKindSound(tag);
    LateKindSound(tag);
  }

  lemma ReadShowIsReadBody(v: JobFailureReason)
    ensures Read(Show(v)) == ReadBody(KindOf(v), Body(v))
  {
    TagReads(KindOf(v));
    LineReads(Tag(KindOf(v)), Some(Body(v)));
  }

  /** The line determines the variant and the body, and nothing else. */
  lemma ShowDetermines(v: JobFailureReason, w: JobFailureReason)
    ensures Show(v) == Show(w) <==> KindOf(v) == KindOf(w) && Body(v) == Body(w)
  {
    TagReads(KindOf(v));
    TagReads(KindOf(w));
    LineReads(Tag(KindOf(v)), Some(Body(v)));
    LineReads(Tag(KindOf(w)), Some(Body(w)));
  }

  lemma IoSeparators()
    ensures Distinguishable(" on ", " - ")
  {
  }

  lemma PermissionReadsBack(v: JobFailureReason)
    requires v.PermissionDenied?
    ensures ReadBody(KindOf(v), Body(v)) == Some(v) <==> Clean(v)
  {
    CutJoined(v.operation, " on ", v.path);
  }

  lemma DashReadsBack(v: JobFailureReason)
    requires v.ValidationError? || v.ConfigurationError? || v.SecretInjectionError?
    ensures ReadBody(KindOf(v), Body(v)) == Some(v) <==> Clean(v)
  {
    match v
    case ValidationError(field, reason) => CutJoined(field, " - ", reason);
    case ConfigurationError(key, message) => CutJoined(key, " - ", message);
    case SecretInjectionError(secretName, message) => CutJoined(secretName, " - ", message);
  }

  lemma TimeLimitReadsBack(limitSecs: U64)
    ensures ReadBody(ExecutionTimeoutKind, Body(ExecutionTimeout(limitSecs))) == Some(ExecutionTimeout(limitSecs))
  {
    ReadBetweenShown(limitSecs, "exceeded ", " seconds");
  }

  lemma SignalReadsBack(signal: I32)
    ensures ReadBody(SignalReceivedKind, Body(SignalReceived(signal))) == Some(SignalReceived(signal))
  {
    ReadAfterShown(signal, "signal ");
  }

  lemma ExitCodeReadsBack(exitCode: I32)
    ensures ReadBody(NonZeroExitCodeKind, Body(NonZeroExitCode(exitCode))) == Some(NonZeroExitCode(exitCode))
  {
    ReadAfterShown(exitCode, "exit code ");
  }

  lemma IoReadsBack(v: JobFailureReason)
    requires v.IoError?
    ensures ReadBody(KindOf(v), Body(v)) == Some(v) <==> Clean(v)
  {
    IoSeparators();
    JoinMiddleReads(v.operation, " on ", v.ioPath, " - ", v.message);
  }

  lemma BodyReadsBack(v: JobFailureReason)
    ensures ReadBody(KindOf(v), Body(v)) == Some(v) <==> Clean(v)
  {
    match v
    case PermissionDenied(_, _) => PermissionReadsBack(v);
    case ValidationError(_, _) => DashReadsBack(v);
    case ConfigurationError(_, _) => DashReadsBack(v);
    case SecretInjectionError(_, _) => DashReadsBack(v);
    case ExecutionTimeout(limitSecs) => TimeLimitReadsBack(limitSecs);
    case SignalReceived(signal) => SignalReadsBack(signal);
    case NonZeroExitCode(exitCode) => ExitCodeReadsBack(exitCode);
    case IoError(_, _, _) => IoReadsBack(v);
    case _ =>
  }

  /** The reader recovers exactly the clean reasons: every variant, payload and number. */
  lemma ReadBack(v: JobFailureReason)
    ensures Read(Show(v)) == Some(v) <==> Clean(v)
  {
    ReadShowIsReadBody(v);
    BodyReadsBack(v);
  }

  /** Whatever the reader returns is displayed as the line it was read from. */
  lemma ReadSound(s: string)
    ensures Read(s).Some? ==> Show(Read(s).value) == s
  {
    if Read(s).Some? {
      ReadLineSound(s);
      var (tag, body) := ReadLine(s);
      KindTaggedSound(tag);
      ReadBodySound(KindTagged(tag).value, body.value);
    }
  }

  predicate BodyReadsSoundly(k: Kind, b: string) {
    match ReadBody(k, b)
    case None => true
    case Some(v) => KindOf(v) == k && Body(v) == b
  }

  predicate IsNumberKind(k: Kind) { k.ExecutionTimeoutKind? || k.SignalReceivedKind? || k.NonZeroExitCodeKind? }

  predicate IsDashKind(k: Kind) { k.ValidationErrorKind? || k.ConfigurationErrorKind? || k.SecretInjectionErrorKind? }

  lemma ReadNumberSound(k: Kind, b: string)
    requires IsNumberKind(k) && ReadBody(k, b).Some?
    ensures BodyReadsSoundly(k, b)
  {
    match k
    case ExecutionTimeoutKind => ReadBetweenSound(b, "exceeded ", " seconds");
    case SignalReceivedKind => ReadAfterSound(b, "signal ");
    case NonZeroExitCodeKind => ReadAfterSound(b, "exit code ");
  }

  lemma ReadDashSound(k: Kind, b: string)
    requires IsDashKind(k)
    ensures BodyReadsSoundly(k, b)
  {
    CutSound(b, " - ");
  }

  lemma ReadPermissionSound(b: string)
    ensures BodyReadsSoundly(PermissionDeniedKind, b)
  {
    CutSound(b, " on ");
  }

  lemma ReadIoSound(b: string)
    ensures BodyReadsSoundly(IoErrorKind, b)
  {
    CutMiddleSound(b, " on ", " - ");
    match CutMiddle(b, " on ", " - ")
    case None =>
    case Some((operation, path, message)) => assert ReadBody(IoErrorKind, b) == Some(IoError(operation, path, message));
  }

  lemma ReadPlainSound(k: Kind, b: string)
    requires !IsNumberKind(k) && !IsDashKind(k) && !k.PermissionDeniedKind? && !k.IoErrorKind?
    ensures BodyReadsSoundly(k, b)
  {
  }

  lemma ReadBodySound(k: Kind, b: string)
    ensures BodyReadsSoundly(k, b)
  {
    if IsNumberKind(k) {
      if ReadBody(k, b).Some? { ReadNumberSound(k, b); }
    } else if IsDashKind(k) {
      ReadDashSound(k, b);
    } else if k.PermissionDeniedKind? {
      ReadPermissionSound(b);
    } else if k.IoErrorKind? {
      ReadIoSound(b);
    } else {
      ReadPlainSound(k, b);
    }
  }

  lemma SpaceFreeOperation(operation: string)
    requires ' ' !in operation
    ensures !Occurs(" on ", operation + " ") && !Occurs(" - ", operation + " ")
  {
    FreshFirstCharHidesNothing(operation, " on ");
    FreshFirstCharHidesNothing(operation, " - ");
    HidesMeans(operation, " on ", " ");
    StartsInside(operation, " on  ", " on ");
    assert operation + " on " + " " == operation + " on  ";
    HidesMeans(operation, " - ", " ");
    StartsInside(operation, " -  ", " - ");
    assert operation + " - " + " " == operation + " -  ";
  }

  /** Fields that hold no space in front of a separator are clean, so the reason is recovered from its line. */
  lemma SpaceFreeIsClean(v: JobFailureReason)
    requires match v
             case PermissionDenied(_, operation) => ' ' !in operation
             case ValidationError(field, _) => ' ' !in field
             case ConfigurationError(key, _) => ' ' !in key
             case SecretInjectionError(secretName, _) => ' ' !in secretName
             case IoError(operation, path, _) => ' ' !in operation && (path.Some? ==> ' ' !in path.value)
             case _ => true
    ensures Clean(v) && Read(Show(v)) == Some(v)
  {
    ReadBack(v);
    match v
    case PermissionDenied(_, operation) => FreshFirstCharHidesNothing(operation, " on ");
    case ValidationError(field, _) => FreshFirstCharHidesNothing(field, " - ");
    case ConfigurationError(key, _) => FreshFirstCharHidesNothing(key, " - ");
    case SecretInjectionError(secretName, _) => FreshFirstCharHidesNothing(secretName, " - ");
    case IoError(operation, path, _) =>
      SpaceFreeOperation(operation);
      if path.Some? { FreshFirstCharHidesNothing(path.value, " - "); }
    case _ =>
  }

  // ---------- when a line has one reading ----------

  /** No other reason is displayed as the same line. */
  ghost predicate Unambiguous(v: JobFailureReason) {
    forall w | Show(w) == Show(v) :: w == v
  }

  /** The separators of the line occur only where the format put them, and no path was written. */
  ghost predicate SeparatorsUnique(v: JobFailureReason) {
    match v
    case PermissionDenied(path, operation) => OnlyAtJoin(operation, " on ", path)
    case ValidationError(field, reason) => OnlyAtJoin(field, " - ", reason)
    case ConfigurationError(key, message) => OnlyAtJoin(key, " - ", message)
    case SecretInjectionError(secretName, message) => OnlyAtJoin(secretName, " - ", message)
    case IoError(operation, path, message) =>
      path.None? && OnlyAtJoin(operation, " - ", message) && !Occurs(" on ", operation)
    case _ => true
  }

  /** A line written for an I/O error with a path is also the line of one without. */
  lemma IoPathIsNeverTold(operation: string, path: string, message: string)
    ensures Show(IoError(operation, Some(path), message)) == Show(IoError(operation + " on " + path, None, message))
    ensures !Unambiguous(IoError(operation, Some(path), message))
  {
    MiddleInFront(operation, " on ", path, " - ", message);
    assert IoError(operation, Some(path), message) != IoError(operation + " on " + path, None, message);
  }

  lemma NumbersTold(v: JobFailureReason, w: JobFailureReason)
    requires Show(v) == Show(w) && (v.ExecutionTimeout? || v.SignalReceived? || v.NonZeroExitCode?)
    ensures v == w
  {
    ReadBack(v);
    ReadBack(w);
    ShowDetermines(v, w);
  }

  lemma UniqueSeparatorsSuffice(v: JobFailureReason, w: JobFailureReason)
    requires SeparatorsUnique(v) && Show(w) == Show(v)
    ensures w == v
  {
    ShowDetermines(v, w);
    match v
    case PermissionDenied(path, operation) => SingleReading(operation, " on ", path);
    case ValidationError(field, reason) => SingleReading(field, " - ", reason);
    case ConfigurationError(key, message) => SingleReading(key, " - ", message);
    case SecretInjectionError(secretName, message) => SingleReading(secretName, " - ", message);
    case IoError(operation, _, message) =>
      SingleReading(operation, " - ", message);
      if w.ioPath.Some? {
        MiddleInFront(w.operation, " on ", w.ioPath.value, " - ", w.message);
        OccursAtJoin(w.operation, " on ", w.ioPath.value);
      }
    case ExecutionTimeout(_) => NumbersTold(v, w);
    case SignalReceived(_) => NumbersTold(v, w);
    case NonZeroExitCode(_) => NumbersTold(v, w);
    case _ =>
  }

  /** A second separator gives a second reading. */
  lemma OtherReading(v: JobFailureReason) returns (w: JobFailureReason)
    requires !SeparatorsUnique(v)
    ensures w != v && Show(w) == Show(v)
  {
    match v
    case PermissionDenied(path, operation) =>
      SingleReading(operation, " on ", path);
      var c, d :| c + " on " + d == operation + " on " + path && !(c == operation && d == path);
      w := PermissionDenied(d, c);
    case ValidationError(field, reason) =>
      SingleReading(field, " - ", reason);
      var c, d :| c + " - " + d == field + " - " + reason && !(c == field && d == reason);
      w := ValidationError(c, d);
    case ConfigurationError(key, message) =>
      SingleReading(key, " - ", message);
      var c, d :| c + " - " + d == key + " - " + message && !(c == key && d == message);
      w := ConfigurationError(c, d);
    case SecretInjectionError(secretName, message) =>
      SingleReading(secretName, " - ", message);
      var c, d :| c + " - " + d == secretName + " - " + message && !(c == secretName && d == message);
      w := SecretInjectionError(c, d);
    case IoError(operation, Some(path), message) =>
      IoPathIsNeverTold(operation, path, message);
      w := IoError(operation + " on " + path, None, message);
    case IoError(operation, None, message) =>
      if Occurs(" on ", operation) {
        var i: nat :| i <= |operation| && OccursAt(" on ", operation, i);
        SplitAtOccurrence(" on ", operation, i);
        MiddleInFront(operation[..i], " on ", operation[i + 4..], " - ", message);
        w := IoError(operation[..i], Some(operation[i + 4..]), message);
      } else {
        SingleReading(operation, " - ", message);
        var c, d :| c + " - " + d == operation + " - " + message && !(c == operation && d == message);
        w := IoError(c, None, d);
      }
  }

  /** For every reason: its line has no other reading exactly when its separators are unique. */
  lemma UnambiguousExactly(v: JobFailureReason)
    ensures Unambiguous(v) <==> SeparatorsUnique(v)
  {
    if SeparatorsUnique(v) {
      forall w | Show(w) == Show(v) ensures w == v {
        UniqueSeparatorsSuffice(v, w);
      }
    } else {
      var w := OtherReading(v);
    }
  }

  /** On clean reasons the display is injective: the line determines variant, fields, path and numbers. */
  lemma CleanShowInjective(v: JobFailureReason, w: JobFailureReason)
    requires Clean(v) && Clean(w) && Show(v) == Show(w)
    ensures v == w
  {
    ReadBack(v);
    ReadBack(w);
  }
}
