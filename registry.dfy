/** The resource registry of flowthings_io_services.h: the nine service
    kinds, the table giving each its name, base path and allowed verbs, and the
    per-kind convenience macros layered over the generic service functions. */
module Registry {
  import opened Text

  /** `flowthings_io_service_type`: the generic functions index the table with
      it unchecked, so only the nine defined kinds are meaningful. */
  type ServiceType = i: int | 0 <= i < 9

  const FLOW: ServiceType := 0
  const DROP: ServiceType := 1
  const IDENTITY: ServiceType := 2
  const GROUP: ServiceType := 3
  const TRACK: ServiceType := 4
  const API_TASK: ServiceType := 5
  const MQTT_TASK: ServiceType := 6
  const TOKEN: ServiceType := 7
  const SHARE: ServiceType := 8

  const ACTION_READ: bv8 := 0x01
  const ACTION_CREATE: bv8 := 0x02
  const ACTION_UPDATE: bv8 := 0x04
  const ACTION_DELETE: bv8 := 0x08

  /** The generic operations of the service layer. */
  datatype Verb = Read | Create | Update | Delete | Find | FindMany {
    /** The four verbs the action mask speaks about. */
    predicate Masked() {
      this in {Read, Create, Update, Delete}
    }
  }

  /** The action bit of a masked verb. */
  function ActionBit(v: Verb): bv8
    requires v.Masked()
  {
    match v
    case Read => ACTION_READ
    case Create => ACTION_CREATE
    case Update => ACTION_UPDATE
    case Delete => ACTION_DELETE
  }

  /** `struct __flowthings_io_service_info_item`. */
  datatype ServiceInfo = ServiceInfo(id: int, name: CString, basePath: CString, actions: bv8)

  const ALL_ACTIONS: bv8 := ACTION_READ | ACTION_CREATE | ACTION_UPDATE | ACTION_DELETE

  /** `__flowthings_io_service_info`. */
  const Table: seq<ServiceInfo> := [
    ServiceInfo(0, "flow", "/flow", ALL_ACTIONS),
    ServiceInfo(1, "drop", "/drop", ALL_ACTIONS),
    ServiceInfo(2, "identity", "/identity", ACTION_READ | ACTION_UPDATE),
    ServiceInfo(3, "group", "/group", ALL_ACTIONS),
    ServiceInfo(4, "track", "/track", ALL_ACTIONS),
    ServiceInfo(5, "api-task", "/api-task", ALL_ACTIONS),
    ServiceInfo(6, "mqtt", "/mqtt", ALL_ACTIONS),
    ServiceInfo(7, "token", "/token", ACTION_READ | ACTION_CREATE | ACTION_DELETE),
    ServiceInfo(8, "share", "/share", ACTION_READ | ACTION_CREATE | ACTION_DELETE)
  ]

  /** `&__flowthings_io_service_info[svc]`: the entry of a kind is the one
      whose id is that kind, and its base path is "/" and its name. */
  function Info(svc: ServiceType): (r: ServiceInfo)
    ensures r.id == svc
    ensures r.basePath == "/" + r.name
    ensures |r.name| > 0
  {
    Table[svc]
  }

  /** The table declares `verb` for `svc`. */
  predicate Allows(svc: ServiceType, v: Verb)
    requires v.Masked()
  {
    Info(svc).actions & ActionBit(v) != 0
  }

  /** The action bits are four distinct single bits, so a mask records each
      verb independently. */
  lemma ActionBitsDistinct(v: Verb, w: Verb)
    requires v.Masked() && w.Masked()
    ensures ActionBit(v) & (ActionBit(v) - 1) == 0 && ActionBit(v) != 0
    ensures v != w ==> ActionBit(v) & ActionBit(w) == 0
  {
  }

  /** The verb masks: identity reads and updates, token and share read,
      create and delete, every other kind has all four. */
  lemma Masks(svc: ServiceType, v: Verb)
    requires v.Masked()
    ensures svc == IDENTITY ==> (Allows(svc, v) <==> v in {Read, Update})
    ensures svc == TOKEN || svc == SHARE ==> (Allows(svc, v) <==> v in {Read, Create, Delete})
    ensures svc !in {IDENTITY, TOKEN, SHARE} ==> Allows(svc, v)
  {
  }

  /** How a convenience macro fills the `path_ext` argument. */
  datatype ExtArg = Forwarded | NullExt

  /** The convenience macro `flowthings_io_<kind>_<verb>`, if it is defined:
      the drop macros forward the caller's `path_ext` (except
      `drop_find_many`, which passes NULL), the other kinds pass NULL, and
      find and find_many exist for drops only. */
  function Macro(svc: ServiceType, v: Verb): Option<ExtArg> {
    match v
    case Read => Some(if svc == DROP then Forwarded else NullExt)
    case Create => if svc == IDENTITY then None else Some(if svc == DROP then Forwarded else NullExt)
    case Update => if svc == TOKEN || svc == SHARE then None else Some(if svc == DROP then Forwarded else NullExt)
    case Delete => if svc == IDENTITY then None else Some(if svc == DROP then Forwarded else NullExt)
    case Find => if svc == DROP then Some(Forwarded) else None
    case FindMany => if svc == DROP then Some(NullExt) else None
  }

  /** A read, create, update or delete macro exists exactly for the verbs in
      the kind's mask. */
  lemma MacrosFollowMask(svc: ServiceType, v: Verb)
    requires v.Masked()
    ensures Macro(svc, v).Some? <==> Allows(svc, v)
  {
    Masks(svc, v);
  }

  /** Only drop macros forward a path extension. */
  lemma OnlyDropForwards(svc: ServiceType, v: Verb)
    requires Macro(svc, v) == Some(Forwarded)
    ensures svc == DROP && v != FindMany
  {
  }
}
