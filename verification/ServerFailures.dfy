/** Why the scheduler, the dispatcher or the provisioner failed, and how much the displayed line tells. */
module DispatchFailures {
  import opened Wrappers
  import opened Texts
  import opened Messages
  import opened JobFailures

  datatype DispatchFailureReason =
    | WorkerNotReady(currentState: string)
    | CommunicationTimeout(timeoutMs: U64)
    | WorkerCrashed
    | ChannelClosed
    | ProtocolError(message: string)
    | NetworkError(message: string)

  datatype DispatchKind =
    | WorkerNotReadyKind
    | CommunicationTimeoutKind
    | WorkerCrashedKind
    | ChannelClosedKind
    | ProtocolErrorKind
    | NetworkErrorKind

  function DispatchKindOf(v: DispatchFailureReason): DispatchKind {
    match v
    case WorkerNotReady(_) => WorkerNotReadyKind
    case CommunicationTimeout(_) => CommunicationTimeoutKind
    case WorkerCrashed => WorkerCrashedKind
    case ChannelClosed => ChannelClosedKind
    case ProtocolError(_) => ProtocolErrorKind
    case NetworkError(_) => NetworkErrorKind
  }

  function DispatchTag(k: DispatchKind): string {
    match k
    case WorkerNotReadyKind => "WORKER_NOT_READY"
    case CommunicationTimeoutKind => "COMMUNICATION_TIMEOUT"
    case WorkerCrashedKind => "WORKER_CRASHED"
    case ChannelClosedKind => "CHANNEL_CLOSED"
    case ProtocolErrorKind => "PROTOCOL_ERROR"
    case NetworkErrorKind => "NETWORK_ERROR"
  }

  function DispatchBody(v: DispatchFailureReason): Option<string> {
    match v
    case WorkerNotReady(currentState) => Some("worker in state " + currentState)
    case CommunicationTimeout(timeoutMs) => Some("exceeded " + ShowInt(timeoutMs) + "ms")
    case WorkerCrashed => None
    case ChannelClosed => None
    case ProtocolError(message) => Some(message)
    case NetworkError(message) => Some(message)
  }

  function ShowDispatch(v: DispatchFailureReason): string {
    Line(DispatchTag(DispatchKindOf(v)), DispatchBody(v))
  }

  lemma DispatchTagHasNoColon(k: DispatchKind)
    ensures ':' !in DispatchTag(k)
  {
  }

  lemma DispatchTagTellsKind(k: DispatchKind, l: DispatchKind)
    requires DispatchTag(k) == DispatchTag(l)
    ensures k == l
  {
  }

  lemma DispatchShowDetermines(v: DispatchFailureReason, w: DispatchFailureReason)
    requires ShowDispatch(v) == ShowDispatch(w)
    ensures DispatchKindOf(v) == DispatchKindOf(w) && DispatchBody(v) == DispatchBody(w)
  {
    DispatchTagHasNoColon(DispatchKindOf(v));
    DispatchTagHasNoColon(DispatchKindOf(w));
    LineReads(DispatchTag(DispatchKindOf(v)), DispatchBody(v));
    LineReads(DispatchTag(DispatchKindOf(w)), DispatchBody(w));
    DispatchTagTellsKind(DispatchKindOf(v), DispatchKindOf(w));
  }

  lemma SameAfterPrefix(prefix: string, a: string, b: string)
    requires prefix + a == prefix + b
    ensures a == b
  {
    assert a == (prefix + a)[|prefix|..];
    assert b == (prefix + b)[|prefix|..];
  }

  lemma SameBetween(before: string, m: int, n: int, after: string)
    requires before + ShowInt(m) + after == before + ShowInt(n) + after
    ensures m == n
  {
    ReadBetweenShown(m, before, after);
    ReadBetweenShown(n, before, after);
  }

  /** Different reasons are displayed differently: the line tells variant, text and number. */
  lemma DispatchShowInjective(v: DispatchFailureReason, w: DispatchFailureReason)
    requires ShowDispatch(v) == ShowDispatch(w)
    ensures v == w
  {
    DispatchShowDetermines(v, w);
    if v.WorkerNotReady? {
      SameAfterPrefix("worker in state ", v.currentState, w.currentState);
    } else if v.CommunicationTimeout? {
      SameBetween("exceeded ", v.timeoutMs, w.timeoutMs, "ms");
    }
  }

  /** The lines, variant by variant. */
  lemma DispatchLines(v: DispatchFailureReason)
    ensures ShowDispatch(v) ==
      match v
      case WorkerNotReady(currentState) => "WORKER_NOT_READY" + ": " + ("worker in state " + currentState)
      case CommunicationTimeout(timeoutMs) => "COMMUNICATION_TIMEOUT" + ": " + ("exceeded " + ShowInt(timeoutMs) + "ms")
      case WorkerCrashed => "WORKER_CRASHED"
      case ChannelClosed => "CHANNEL_CLOSED"
      case ProtocolError(message) => "PROTOCOL_ERROR" + ": " + message
      case NetworkError(message) => "NETWORK_ERROR" + ": " + message
  {
  }

  // ---------- reading a line back ----------

  /** What follows a prefix. */
  function After(s: string, prefix: string): Option<string> {
    if prefix <= s then Some(s[|prefix|..]) else None
  }

  function ReadBareDispatch(tag: string): Option<DispatchFailureReason> {
    if tag == "WORKER_CRASHED" then Some(WorkerCrashed)
    else if tag == "CHANNEL_CLOSED" then Some(ChannelClosed)
    else None
  }

  function ReadTaggedDispatch(tag: string, body: string): Option<DispatchFailureReason> {
    if tag == "WORKER_NOT_READY" then
      match After(body, "worker in state ")
      case None => None
      case Some(currentState) => Some(WorkerNotReady(currentState))
    else if tag == "COMMUNICATION_TIMEOUT" then
      match ReadBetween(body, "exceeded ", "ms")
      case None => None
      case Some(n) => if IsU64(n) then Some(CommunicationTimeout(n)) else None
    else if tag == "PROTOCOL_ERROR" then Some(ProtocolError(body))
    else if tag == "NETWORK_ERROR" then Some(NetworkError(body))
    else None
  }

  function ReadDispatch(s: string): Option<DispatchFailureReason> {
    match ReadLine(s)
    case (tag, None) => ReadBareDispatch(tag)
    case (tag, Some(body)) => ReadTaggedDispatch(tag, body)
  }

  lemma PartsReadBack(v: DispatchFailureReason)
    ensures match DispatchBody(v)
            case None => ReadBareDispatch(DispatchTag(DispatchKindOf(v))) == Some(v)
            case Some(body) => ReadTaggedDispatch(DispatchTag(DispatchKindOf(v)), body) == Some(v)
  {
    match v
    case WorkerNotReady(currentState) =>
      assert ("worker in state " + currentState)[|"worker in state "|..] == currentState;
    case CommunicationTimeout(timeoutMs) => ReadBetweenShown(timeoutMs, "exceeded ", "ms");
    case _ =>
  }

  /** Every line reads back to the reason it was written for. */
  lemma DispatchReadsBack(v: DispatchFailureReason)
    ensures ReadDispatch(ShowDispatch(v)) == Some(v)
  {
    DispatchTagHasNoColon(DispatchKindOf(v));
    LineReads(DispatchTag(DispatchKindOf(v)), DispatchBody(v));
    PartsReadBack(v);
  }

  lemma BareDispatchSound(tag: string)
    ensures ReadBareDispatch(tag).Some? ==>
              var v := ReadBareDispatch(tag).value; DispatchTag(DispatchKindOf(v)) == tag && DispatchBody(v) == None
  {
  }

  lemma TaggedDispatchSound(tag: string, body: string)
    ensures ReadTaggedDispatch(tag, body).Some? ==>
              var v := ReadTaggedDispatch(tag, body).value; DispatchTag(DispatchKindOf(v)) == tag && DispatchBody(v) == Some(body)
  {
    if tag == "WORKER_NOT_READY" && "worker in state " <= body {
      assert body == "worker in state " + body[|"worker in state "|..];
    } else if tag == "COMMUNICATION_TIMEOUT" && ReadBetween(body, "exceeded ", "ms").Some? {
      ReadBetweenSound(body, "exceeded ", "ms");
    }
  }

  /** And whatever a text reads as is displayed as that text. */
  lemma DispatchReadSound(s: string)
    ensures ReadDispatch(s).Some? ==> ShowDispatch(ReadDispatch(s).value) == s
  {
    ReadLineSound(s);
    match ReadLine(s)
    case (tag, None) => BareDispatchSound(tag);
    case (tag, Some(body)) => TaggedDispatchSound(tag, body);
  }
}

module ProvisioningFailures {
  import opened Wrappers
  import opened Texts
  import opened Messages

  datatype ProvisioningFailureReason =
    | ImagePullFailed(image: string, message: string)
    | ResourceAllocationFailed(resource: string, message: string)
    | NetworkSetupFailed(message: string)
    | AuthenticationFailed(message: string)
    | Timeout
    | ProviderUnavailable
    | InternalError(message: string)
    | InvalidConfiguration(field: string, reason: string)

  datatype ProvisioningKind =
    | ImagePullFailedKind
    | ResourceAllocationFailedKind
    | NetworkSetupFailedKind
    | AuthenticationFailedKind
    | TimeoutKind
    | ProviderUnavailableKind
    | InternalErrorKind
    | InvalidConfigurationKind

  function ProvisioningKindOf(v: ProvisioningFailureReason): ProvisioningKind {
    match v
    case ImagePullFailed(_, _) => ImagePullFailedKind
    case ResourceAllocationFailed(_, _) => ResourceAllocationFailedKind
    case NetworkSetupFailed(_) => NetworkSetupFailedKind
    case AuthenticationFailed(_) => AuthenticationFailedKind
    case Timeout => TimeoutKind
    case ProviderUnavailable => ProviderUnavailableKind
    case InternalError(_) => InternalErrorKind
    case InvalidConfiguration(_, _) => InvalidConfigurationKind
  }

  function ProvisioningTag(k: ProvisioningKind): string {
    match k
    case ImagePullFailedKind => "IMAGE_PULL_FAILED"
    case ResourceAllocationFailedKind => "RESOURCE_ALLOCATION_FAILED"
    case NetworkSetupFailedKind => "NETWORK_SETUP_FAILED"
    case AuthenticationFailedKind => "AUTHENTICATION_FAILED"
    case TimeoutKind => "PROVISIONING_TIMEOUT"
    case ProviderUnavailableKind => "PROVIDER_UNAVAILABLE"
    case InternalErrorKind => "INTERNAL_ERROR"
    case InvalidConfigurationKind => "INVALID_CONFIGURATION"
  }

  function ProvisioningBody(v: ProvisioningFailureReason): Option<string> {
    match v
    case ImagePullFailed(image, message) => Some(image + " - " + message)
    case ResourceAllocationFailed(resource, message) => Some(resource + " - " + message)
    case NetworkSetupFailed(message) => Some(message)
    case AuthenticationFailed(message) => Some(message)
    case Timeout => None
    case ProviderUnavailable => None
    case InternalError(message) => Some(message)
    case InvalidConfiguration(field, reason) => Some(field + " - " + reason)
  }

  function ShowProvisioning(v: ProvisioningFailureReason): string {
    Line(ProvisioningTag(ProvisioningKindOf(v)), ProvisioningBody(v))
  }

  /** The two fields a line joins with `" - "`, for the variants that have two. */
  function Halves(v: ProvisioningFailureReason): Option<(string, string)> {
    match v
    case ImagePullFailed(image, message) => Some((image, message))
    case ResourceAllocationFailed(resource, message) => Some((resource, message))
    case InvalidConfiguration(field, reason) => Some((field, reason))
    case _ => None
  }

  function WithHalves(v: ProvisioningFailureReason, a: string, b: string): ProvisioningFailureReason {
    match v
    case ImagePullFailed(_, _) => ImagePullFailed(a, b)
    case ResourceAllocationFailed(_, _) => ResourceAllocationFailed(a, b)
    case InvalidConfiguration(_, _) => InvalidConfiguration(a, b)
    case _ => v
  }

  lemma KindAndBodyTell(v: ProvisioningFailureReason, w: ProvisioningFailureReason)
    requires ProvisioningKindOf(v) == ProvisioningKindOf(w)
    ensures Halves(v).Some? <==> Halves(w).Some?
    ensures Halves(v).None? && ProvisioningBody(v) == ProvisioningBody(w) ==> v == w
    ensures Halves(v).Some? && Halves(v) == Halves(w) ==> v == w
  {
  }

  predicate IsEarlyProvisioning(k: ProvisioningKind) {
    k.ImagePullFailedKind? || k.ResourceAllocationFailedKind? || k.NetworkSetupFailedKind? || k.AuthenticationFailedKind?
  }

  lemma EarlyProvisioningTagHasNoColon(k: ProvisioningKind)
    requires IsEarlyProvisioning(k)
    ensures ':' !in ProvisioningTag(k)
  {
  }

  lemma LateProvisioningTagHasNoColon(k: ProvisioningKind)
    requires !IsEarlyProvisioning(k)
    ensures ':' !in ProvisioningTag(k)
  {
  }

  lemma ProvisioningTagHasNoColon(k: ProvisioningKind)
    ensures ':' !in ProvisioningTag(k)
  {
    if IsEarlyProvisioning(k) { EarlyProvisioningTagHasNoColon(k); } else { LateProvisioningTagHasNoColon(k); }
  }

  lemma ProvisioningTagTellsKind(k: ProvisioningKind, l: ProvisioningKind)
    requires ProvisioningTag(k) == ProvisioningTag(l)
    ensures k == l
  {
  }

  /** Equal lines come from the same variant and carry the same body. */
  lemma ProvisioningShowDetermines(v: ProvisioningFailureReason, w: ProvisioningFailureReason)
    ensures ShowProvisioning(v) == ShowProvisioning(w)
       <==> ProvisioningKindOf(v) == ProvisioningKindOf(w) && ProvisioningBody(v) == ProvisioningBody(w)
  {
    ProvisioningTagHasNoColon(ProvisioningKindOf(v));
    ProvisioningTagHasNoColon(ProvisioningKindOf(w));
    LineReads(ProvisioningTag(ProvisioningKindOf(v)), ProvisioningBody(v));
    LineReads(ProvisioningTag(ProvisioningKindOf(w)), ProvisioningBody(w));
    if ShowProvisioning(v) == ShowProvisioning(w) {
      ProvisioningTagTellsKind(ProvisioningKindOf(v), ProvisioningKindOf(w));
    }
  }

  /**
   For every reason: no other reason has its line exactly when it has one field or none, or the
   separator of its two fields occurs only between them.
   */
  lemma ProvisioningUnambiguousExactly(v: ProvisioningFailureReason)
    ensures (forall w | ShowProvisioning(w) == ShowProvisioning(v) :: w == v)
       <==> (Halves(v).Some? ==> OnlyAtJoin(Halves(v).value.0, " - ", Halves(v).value.1))
  {
    if Halves(v).Some? {
      var (a, b) := Halves(v).value;
      SingleReading(a, " - ", b);
      if OnlyAtJoin(a, " - ", b) {
        forall w | ShowProvisioning(w) == ShowProvisioning(v) ensures w == v {
          ProvisioningShowDetermines(v, w);
          KindAndBodyTell(v, w);
        }
      } else {
        var c, d :| c + " - " + d == a + " - " + b && !(c == a && d == b);
        var w := WithHalves(v, c, d);
        assert ShowProvisioning(w) == ShowProvisioning(v) && w != v;
      }
    } else {
      forall w | ShowProvisioning(w) == ShowProvisioning(v) ensures w == v {
        ProvisioningShowDetermines(v, w);
        KindAndBodyTell(v, w);
      }
    }
  }

  /** When no first field hides the separator, the line determines the reason. */
  lemma ProvisioningCleanInjective(v: ProvisioningFailureReason, w: ProvisioningFailureReason)
    requires ShowProvisioning(v) == ShowProvisioning(w)
    requires Halves(v).Some? ==> !Hides(Halves(v).value.0, " - ")
    requires Halves(w).Some? ==> !Hides(Halves(w).value.0, " - ")
    ensures v == w
  {
    ProvisioningShowDetermines(v, w);
    KindAndBodyTell(v, w);
    if Halves(v).Some? {
      JoinedPartsAgree(Halves(v).value.0, Halves(v).value.1, Halves(w).value.0, Halves(w).value.1, " - ");
    }
  }

  /** The lines, variant by variant. */
  lemma ProvisioningLines(v: ProvisioningFailureReason)
    ensures ShowProvisioning(v) ==
      match v
      case ImagePullFailed(image, message) => "IMAGE_PULL_FAILED" + ": " + (image + " - " + message)
      case ResourceAllocationFailed(resource, message) => "RESOURCE_ALLOCATION_FAILED" + ": " + (resource + " - " + message)
      case NetworkSetupFailed(message) => "NETWORK_SETUP_FAILED" + ": " + message
      case AuthenticationFailed(message) => "AUTHENTICATION_FAILED" + ": " + message
      case Timeout => "PROVISIONING_TIMEOUT"
      case ProviderUnavailable => "PROVIDER_UNAVAILABLE"
      case InternalError(message) => "INTERNAL_ERROR" + ": " + message
      case InvalidConfiguration(field, reason) => "INVALID_CONFIGURATION" + ": " + (field + " - " + reason)
  {
  }

  // ---------- reading a line back ----------

  function ReadBareProvisioning(tag: string): Option<ProvisioningFailureReason> {
    if tag == "PROVISIONING_TIMEOUT" then Some(Timeout)
    else if tag == "PROVIDER_UNAVAILABLE" then Some(ProviderUnavailable)
    else None
  }

  function ReadWholeProvisioning(tag: string, body: string): Option<ProvisioningFailureReason> {
    if tag == "NETWORK_SETUP_FAILED" then Some(NetworkSetupFailed(body))
    else if tag == "AUTHENTICATION_FAILED" then Some(AuthenticationFailed(body))
    else if tag == "INTERNAL_ERROR" then Some(InternalError(body))
    else None
  }

  function ReadHalvedProvisioning(tag: string, a: string, b: string): Option<ProvisioningFailureReason> {
    if tag == "IMAGE_PULL_FAILED" then Some(ImagePullFailed(a, b))
    else if tag == "RESOURCE_ALLOCATION_FAILED" then Some(ResourceAllocationFailed(a, b))
    else if tag == "INVALID_CONFIGURATION" then Some(InvalidConfiguration(a, b))
    else None
  }

  function ReadTaggedProvisioning(tag: string, body: string): Option<ProvisioningFailureReason> {
    match ReadWholeProvisioning(tag, body)
    case Some(v) => Some(v)
    case None =>
      match CutAtFirst(body, " - ")
      case None => None
      case Some((a, b)) => ReadHalvedProvisioning(tag, a, b)
  }

  function ReadProvisioning(s: string): Option<ProvisioningFailureReason> {
    match ReadLine(s)
    case (tag, None) => ReadBareProvisioning(tag)
    case (tag, Some(body)) => ReadTaggedProvisioning(tag, body)
  }

  lemma HalvesReadBack(v: ProvisioningFailureReason, a: string, b: string)
    requires Halves(v).Some?
    ensures var tag := ProvisioningTag(ProvisioningKindOf(v));
            && ReadHalvedProvisioning(tag, a, b) == Some(WithHalves(v, a, b))
            && ReadWholeProvisioning(tag, a + " - " + b) == None
  {
  }

  lemma WholeReadsBack(v: ProvisioningFailureReason)
    requires Halves(v).None?
    ensures match ProvisioningBody(v)
            case None => ReadBareProvisioning(ProvisioningTag(ProvisioningKindOf(v))) == Some(v)
            case Some(body) => ReadWholeProvisioning(ProvisioningTag(ProvisioningKindOf(v)), body) == Some(v)
  {
  }

  /** A line reads back to its reason exactly when the first of two fields does not hide the separator. */
  lemma ProvisioningReadsBack(v: ProvisioningFailureReason)
    ensures ReadProvisioning(ShowProvisioning(v)) == Some(v)
       <==> (Halves(v).Some? ==> !Hides(Halves(v).value.0, " - "))
  {
    ProvisioningTagHasNoColon(ProvisioningKindOf(v));
    LineReads(ProvisioningTag(ProvisioningKindOf(v)), ProvisioningBody(v));
    if Halves(v).Some? {
      var (a, b) := Halves(v).value;
      HalvesReadBack(v, a, b);
      CutJoined(a, " - ", b);
      var (x, y) := CutAtFirst(a + " - " + b, " - ").value;
      HalvesReadBack(v, x, y);
      WithHalvesTells(v, x, y);
    } else {
      WholeReadsBack(v);
    }
  }

  lemma WithHalvesTells(v: ProvisioningFailureReason, x: string, y: string)
    requires Halves(v).Some?
    ensures WithHalves(v, x, y) == v <==> Halves(v).value == (x, y)
    ensures ProvisioningBody(v) == Some(Halves(v).value.0 + " - " + Halves(v).value.1)
  {
  }

  lemma BareProvisioningSound(tag: string)
    ensures ReadBareProvisioning(tag).Some? ==>
              var v := ReadBareProvisioning(tag).value; ProvisioningTag(ProvisioningKindOf(v)) == tag && ProvisioningBody(v) == None
  {
  }

  lemma WholeProvisioningSound(tag: string, body: string)
    ensures ReadWholeProvisioning(tag, body).Some? ==>
              var v := ReadWholeProvisioning(tag, body).value;
              ProvisioningTag(ProvisioningKindOf(v)) == tag && ProvisioningBody(v) == Some(body)
  {
  }

  lemma HalvedProvisioningSound(tag: string, a: string, b: string)
    ensures ReadHalvedProvisioning(tag, a, b).Some? ==>
              var v := ReadHalvedProvisioning(tag, a, b).value;
              ProvisioningTag(ProvisioningKindOf(v)) == tag && ProvisioningBody(v) == Some(a + " - " + b)
  {
  }

  /** And whatever a text reads as is displayed as that text. */
  lemma ProvisioningReadSound(s: string)
    ensures ReadProvisioning(s).Some? ==> ShowProvisioning(ReadProvisioning(s).value) == s
  {
    ReadLineSound(s);
    match ReadLine(s)
    case (tag, None) => BareProvisioningSound(tag);
    case (tag, Some(body)) =>
      WholeProvisioningSound(tag, body);
      CutSound(body, " - ");
      match CutAtFirst(body, " - ")
      case None =>
      case Some((a, b)) => HalvedProvisioningSound(tag, a, b);
  }
}

module SchedulingFailures {
  import opened Wrappers
  import opened Texts
  import opened Messages

  datatype SchedulingFailureReason =
    | NoProvidersAvailable
    | NoMatchingProviders(requirement: string)
    | ProviderOverloaded
    | ProviderUnhealthy(providerId: string)
    | ResourceConstraintsNotMet(resource: string, required: string, available: string)
    | InternalError(message: string)
    | JobCancelled
    | JobExpired

  datatype SchedulingKind =
    | NoProvidersAvailableKind
    | NoMatchingProvidersKind
    | ProviderOverloadedKind
    | ProviderUnhealthyKind
    | ResourceConstraintsNotMetKind
    | InternalErrorKind
    | JobCancelledKind
    | JobExpiredKind

  function SchedulingKindOf(v: SchedulingFailureReason): SchedulingKind {
    match v
    case NoProvidersAvailable => NoProvidersAvailableKind
    case NoMatchingProviders(_) => NoMatchingProvidersKind
    case ProviderOverloaded => ProviderOverloadedKind
    case ProviderUnhealthy(_) => ProviderUnhealthyKind
    case ResourceConstraintsNotMet(_, _, _) => ResourceConstraintsNotMetKind
    case InternalError(_) => InternalErrorKind
    case JobCancelled => JobCancelledKind
    case JobExpired => JobExpiredKind
  }

  function SchedulingTag(k: SchedulingKind): string {
    match k
    case NoProvidersAvailableKind => "NO_PROVIDERS_AVAILABLE"
    case NoMatchingProvidersKind => "NO_MATCHING_PROVIDERS"
    case ProviderOverloadedKind => "PROVIDER_OVERLOADED"
    case ProviderUnhealthyKind => "PROVIDER_UNHEALTHY"
    case ResourceConstraintsNotMetKind => "RESOURCE_CONSTRAINTS_NOT_MET"
    case InternalErrorKind => "INTERNAL_ERROR"
    case JobCancelledKind => "JOB_CANCELLED"
    case JobExpiredKind => "JOB_EXPIRED"
  }

  function SchedulingBody(v: SchedulingFailureReason): Option<string> {
    match v
    case NoMatchingProviders(requirement) => Some(requirement)
    case ProviderUnhealthy(providerId) => Some(providerId)
    case ResourceConstraintsNotMet(resource, required, available) =>
      Some(resource + " required=" + required + ", available=" + available)
    case InternalError(message) => Some(message)
    case _ => None
  }

  function ShowScheduling(v: SchedulingFailureReason): string {
    Line(SchedulingTag(SchedulingKindOf(v)), SchedulingBody(v))
  }

  predicate IsEarlyScheduling(k: SchedulingKind) {
    k.NoProvidersAvailableKind? || k.NoMatchingProvidersKind? || k.ProviderOverloadedKind? || k.ProviderUnhealthyKind?
  }

  lemma EarlySchedulingTagHasNoColon(k: SchedulingKind)
    requires IsEarlyScheduling(k)
    ensures ':' !in SchedulingTag(k)
  {
  }

  lemma LateSchedulingTagHasNoColon(k: SchedulingKind)
    requires !IsEarlyScheduling(k)
    ensures ':' !in SchedulingTag(k)
  {
  }

  lemma SchedulingTagHasNoColon(k: SchedulingKind)
    ensures ':' !in SchedulingTag(k)
  {
    if IsEarlyScheduling(k) { EarlySchedulingTagHasNoColon(k); } else { LateSchedulingTagHasNoColon(k); }
  }

  lemma SchedulingTagTellsKind(k: SchedulingKind, l: SchedulingKind)
    requires SchedulingTag(k) == SchedulingTag(l)
    ensures k == l
  {
  }

  lemma SchedulingShowDetermines(v: SchedulingFailureReason, w: SchedulingFailureReason)
    ensures ShowScheduling(v) == ShowScheduling(w)
       <==> SchedulingKindOf(v) == SchedulingKindOf(w) && SchedulingBody(v) == SchedulingBody(w)
  {
    SchedulingTagHasNoColon(SchedulingKindOf(v));
    SchedulingTagHasNoColon(SchedulingKindOf(w));
    LineReads(SchedulingTag(SchedulingKindOf(v)), SchedulingBody(v));
    LineReads(SchedulingTag(SchedulingKindOf(w)), SchedulingBody(w));
    if ShowScheduling(v) == ShowScheduling(w) {
      SchedulingTagTellsKind(SchedulingKindOf(v), SchedulingKindOf(w));
    }
  }

  lemma SchedulingKindAndBodyTell(v: SchedulingFailureReason, w: SchedulingFailureReason)
    requires SchedulingKindOf(v) == SchedulingKindOf(w)
    ensures !v.ResourceConstraintsNotMet? && SchedulingBody(v) == SchedulingBody(w) ==> v == w
  {
  }

  /**
   For every reason: no other reason has its line exactly when it is not a resource shortage, or
   each of its two separators occurs only once in the fields it separates.
   */
  lemma SchedulingUnambiguousExactly(v: SchedulingFailureReason)
    ensures (forall w | ShowScheduling(w) == ShowScheduling(v) :: w == v)
       <==> (v.ResourceConstraintsNotMet? ==>
               && OnlyAtJoin(v.resource, " required=", v.required)
               && OnlyAtJoin(v.required, ", available=", v.available))
  {
    if v.ResourceConstraintsNotMet? {
      SingleTripleReading(v.resource, " required=", v.required, ", available=", v.available);
      if OnlyAtJoin(v.resource, " required=", v.required) && OnlyAtJoin(v.required, ", available=", v.available) {
        forall w | ShowScheduling(w) == ShowScheduling(v) ensures w == v {
          SchedulingShowDetermines(v, w);
          SchedulingKindAndBodyTell(v, w);
        }
      } else {
        var a, b, c :| a + " required=" + b + ", available=" + c == SchedulingBody(v).value
                    && !(a == v.resource && b == v.required && c == v.available);
        var w := ResourceConstraintsNotMet(a, b, c);
        assert ShowScheduling(w) == ShowScheduling(v) && w != v;
      }
    } else {
      forall w | ShowScheduling(w) == ShowScheduling(v) ensures w == v {
        SchedulingShowDetermines(v, w);
        SchedulingKindAndBodyTell(v, w);
      }
    }
  }

  /** When neither front field hides its separator, the line determines all three fields. */
  lemma SchedulingCleanInjective(v: SchedulingFailureReason, w: SchedulingFailureReason)
    requires ShowScheduling(v) == ShowScheduling(w)
    requires forall x | x in {v, w} && x.ResourceConstraintsNotMet? ::
               !Hides(x.resource, " required=") && !Hides(x.required, ", available=")
    ensures v == w
  {
    SchedulingShowDetermines(v, w);
    SchedulingKindAndBodyTell(v, w);
    if v.ResourceConstraintsNotMet? {
      var x, y := v.required + ", available=" + v.available, w.required + ", available=" + w.available;
      assert SchedulingBody(v).value == v.resource + " required=" + x;
      assert SchedulingBody(w).value == w.resource + " required=" + y;
      assert v in {v, w} && w in {v, w};
      JoinedPartsAgree(v.resource, x, w.resource, y, " required=");
      JoinedPartsAgree(v.required, v.available, w.required, w.available, ", available=");
    }
  }

  /** A resource name without spaces and a requirement without commas hide nothing. */
  lemma PlainFieldsHideNothing(v: SchedulingFailureReason)
    requires v.ResourceConstraintsNotMet? && ' ' !in v.resource && ',' !in v.required
    ensures !Hides(v.resource, " required=") && !Hides(v.required, ", available=")
  {
    FreshFirstCharHidesNothing(v.resource, " required=");
    FreshFirstCharHidesNothing(v.required, ", available=");
  }

  /** The lines, variant by variant. */
  lemma SchedulingLines(v: SchedulingFailureReason)
    ensures ShowScheduling(v) ==
      match v
      case NoProvidersAvailable => "NO_PROVIDERS_AVAILABLE"
      case NoMatchingProviders(requirement) => "NO_MATCHING_PROVIDERS" + ": " + requirement
      case ProviderOverloaded => "PROVIDER_OVERLOADED"
      case ProviderUnhealthy(providerId) => "PROVIDER_UNHEALTHY" + ": " + providerId
      case ResourceConstraintsNotMet(resource, required, available) =>
        "RESOURCE_CONSTRAINTS_NOT_MET" + ": " + (resource + " required=" + required + ", available=" + available)
      case InternalError(message) => "INTERNAL_ERROR" + ": " + message
      case JobCancelled => "JOB_CANCELLED"
      case JobExpired => "JOB_EXPIRED"
  {
  }

  // ---------- reading a line back ----------

  function ReadBareScheduling(tag: string): Option<SchedulingFailureReason> {
    if tag == "NO_PROVIDERS_AVAILABLE" then Some(NoProvidersAvailable)
    else if tag == "PROVIDER_OVERLOADED" then Some(ProviderOverloaded)
    else if tag == "JOB_CANCELLED" then Some(JobCancelled)
    else if tag == "JOB_EXPIRED" then Some(JobExpired)
    else None
  }

  /** `resource required=required, available=available`, cut at the first separators. */
  function ReadShortage(body: string): Option<SchedulingFailureReason> {
    match CutAtFirst(body, " required=")
    case None => None
    case Some((resource, rest)) =>
      match CutAtFirst(rest, ", available=")
      case None => None
      case Some((required, available)) => Some(ResourceConstraintsNotMet(resource, required, available))
  }

  function ReadTaggedScheduling(tag: string, body: string): Option<SchedulingFailureReason> {
    if tag == "NO_MATCHING_PROVIDERS" then Some(NoMatchingProviders(body))
    else if tag == "PROVIDER_UNHEALTHY" then Some(ProviderUnhealthy(body))
    else if tag == "INTERNAL_ERROR" then Some(InternalError(body))
    else if tag == "RESOURCE_CONSTRAINTS_NOT_MET" then ReadShortage(body)
    else None
  }

  function ReadScheduling(s: string): Option<SchedulingFailureReason> {
    match ReadLine(s)
    case (tag, None) => ReadBareScheduling(tag)
    case (tag, Some(body)) => ReadTaggedScheduling(tag, body)
  }

  lemma ShortageReadsBack(resource: string, required: string, available: string)
    ensures ReadShortage(resource + " required=" + required + ", available=" + available)
              == Some(ResourceConstraintsNotMet(resource, required, available))
       <==> !Hides(resource, " required=") && !Hides(required, ", available=")
  {
    var rest := required + ", available=" + available;
    var body := resource + " required=" + required + ", available=" + available;
    ShortageJoins(resource, required, available);
    CutJoined(resource, " required=", rest);
    CutJoined(required, ", available=", available);
    CutSound(body, " required=");
    var (x, y) := CutAtFirst(body, " required=").value;
    if x == resource { SameRest(x, " required=", y, rest); }
  }

  lemma SameRest(a: string, sep: string, b: string, c: string)
    requires a + sep + b == a + sep + c
    ensures b == c
  {
    assert b == (a + sep + b)[|a| + |sep|..] == (a + sep + c)[|a| + |sep|..] == c;
  }

  lemma SchedulingPartsReadBack(v: SchedulingFailureReason)
    requires !v.ResourceConstraintsNotMet?
    ensures match SchedulingBody(v)
            case None => ReadBareScheduling(SchedulingTag(SchedulingKindOf(v))) == Some(v)
            case Some(body) => ReadTaggedScheduling(SchedulingTag(SchedulingKindOf(v)), body) == Some(v)
  {
  }

  lemma ShortageIsRead(body: string)
    ensures ReadTaggedScheduling(SchedulingTag(ResourceConstraintsNotMetKind), body) == ReadShortage(body)
  {
  }

  /** A line reads back to its reason exactly when the front fields of a resource shortage hide no separator. */
  lemma SchedulingReadsBack(v: SchedulingFailureReason)
    ensures ReadScheduling(ShowScheduling(v)) == Some(v)
       <==> (v.ResourceConstraintsNotMet? ==> !Hides(v.resource, " required=") && !Hides(v.required, ", available="))
  {
    SchedulingTagHasNoColon(SchedulingKindOf(v));
    LineReads(SchedulingTag(SchedulingKindOf(v)), SchedulingBody(v));
    if v.ResourceConstraintsNotMet? {
      ShortageIsRead(SchedulingBody(v).value);
      ShortageReadsBack(v.resource, v.required, v.available);
    } else {
      SchedulingPartsReadBack(v);
    }
  }

  lemma ShortageJoins(resource: string, required: string, available: string)
    ensures resource + " required=" + required + ", available=" + available
         == resource + " required=" + (required + ", available=" + available)
  {
  }

  lemma ShortageSound(body: string)
    ensures ReadShortage(body).Some? ==> SchedulingBody(ReadShortage(body).value) == Some(body)
    ensures ReadShortage(body).Some? ==> ReadShortage(body).value.ResourceConstraintsNotMet?
  {
    CutSound(body, " required=");
    match CutAtFirst(body, " required=")
    case None =>
    case Some((resource, rest)) =>
      CutSound(rest, ", available=");
      match CutAtFirst(rest, ", available=")
      case None =>
      case Some((required, available)) =>
        ShortageJoins(resource, required, available);
  }

  lemma BareSchedulingSound(tag: string)
    ensures ReadBareScheduling(tag).Some? ==>
              var v := ReadBareScheduling(tag).value; SchedulingTag(SchedulingKindOf(v)) == tag && SchedulingBody(v) == None
  {
  }

  lemma TaggedSchedulingSound(tag: string, body: string)
    ensures ReadTaggedScheduling(tag, body).Some? ==>
              var v := ReadTaggedScheduling(tag, body).value;
              SchedulingTag(SchedulingKindOf(v)) == tag && SchedulingBody(v) == Some(body)
  {
    ShortageSound(body);
  }

  /** And whatever a text reads as is displayed as that text. */
  lemma SchedulingReadSound(s: string)
    ensures ReadScheduling(s).Some? ==> ShowScheduling(ReadScheduling(s).value) == s
  {
    ReadLineSound(s);
    match ReadLine(s)
    case (tag, None) => BareSchedulingSound(tag);
    case (tag, Some(body)) => TaggedSchedulingSound(tag, body);
  }
}
