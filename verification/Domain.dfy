/** The rows and rules every component shares (internal/domain/domain.go). */
module Domain {

  datatype Option<+T> = None | Some(value: T)

  datatype RuntimeMode = LongRunning | OnDemand | ScaleToZero

  datatype Status = Starting | Running | Degraded | Stopped | Failed

  /** What the supervisor reads of a service row. A mode of None is the empty string. */
  datatype Service = Service(mode: Option<RuntimeMode>, nodeEntry: string)

  /**
   * An instance row. Config and secret stand for their own SHA-256: the hash is taken
   * to be injective, so comparing contents is comparing hashes.
   */
  datatype Row = Row(
    service: string,
    name: string,
    nodeEntry: string,
    config: string,
    secret: string,
    mode: Option<RuntimeMode>,
    enabled: bool,
    status: Status,
    pid: Option<int>,
    addr: string)

  function EffectiveRuntimeMode(service: Service, override: Option<RuntimeMode>): RuntimeMode {
    match override
    case Some(m) => m
    case None =>
      match service.mode
      case Some(m) => m
      case None => LongRunning
  }

  predicate ResidentMode(mode: RuntimeMode) {
    mode == LongRunning || mode == ScaleToZero
  }

  predicate ClaimsLiveness(status: Status) {
    status == Starting || status == Running || status == Degraded || status == Failed
  }

  predicate IsLetter(c: char) {
    'a' <= c <= 'z' || 'A' <= c <= 'Z'
  }

  predicate IsIdChar(c: char) {
    IsLetter(c) || '0' <= c <= '9' || c == '_' || c == '-'
  }

  /** ^[a-zA-Z][a-zA-Z0-9_-]{0,62}$ */
  predicate ValidId(id: string) {
    1 <= |id| <= 63 && IsLetter(id[0]) && forall k :: 1 <= k < |id| ==> IsIdChar(id[k])
  }
}
