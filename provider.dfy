/**
  The location provider (expo-location) as App.tsx sees it. The provider's
  internals are not modelled: each call is replaced by the reply it gives, and
  a fetch attempt is a function of those replies.
 */
module LocationProvider {
  import opened Wrappers

  /** The two fields of a sample's `coords` that the screen reads (App.tsx:8-16). */
  datatype Coords = Coords(latitude: real, longitude: real)

  /** A position sample, `ILocationProps` in App.tsx:18-21, reduced to the coordinates the screen reads. */
  datatype Sample = Sample(coords: Coords)

  /** The `status` field of a permission response. */
  datatype PermissionStatus = Granted | Denied | Undetermined

  /** What `requestForegroundPermissionsAsync` does: resolve with a status or reject. */
  datatype PermissionReply =
    | Status(status: PermissionStatus)
    | PermissionThrew(message: Option<string>)

  /** What `getCurrentPositionAsync` does: resolve with a sample or reject. */
  datatype PositionReply =
    | Position(sample: Sample)
    | PositionThrew(message: Option<string>)

  /**
    The provider's answers for one fetch attempt. The position reply is the
    answer the provider would give if asked; it is only consulted when
    permission is granted.
   */
  datatype Replies = Replies(permission: PermissionReply, position: PositionReply)

  /** A request the screen makes to the provider. */
  datatype Call = RequestPermission | GetCurrentPosition

  /**
    How one attempt ends: with a sample, or with the `message` of the error
    that reached the catch block (`None` when the error carries none).
   */
  datatype Outcome = Located(sample: Sample) | Failed(message: Option<string>)

  /** The message of the error thrown when permission is not granted (App.tsx:39). */
  const DeniedMessage: string := "Permissão para acessar localização foi negada."

  predicate PermissionGranted(p: PermissionReply) {
    p == Status(Granted)
  }

  /** The requests one attempt makes, in the order it makes them. */
  function Calls(r: Replies): (calls: seq<Call>)
    ensures 1 <= |calls| <= 2
    ensures calls[0] == RequestPermission
    ensures GetCurrentPosition in calls <==> PermissionGranted(r.permission)
    ensures |calls| == 2 ==> calls[1] == GetCurrentPosition
  {
    if PermissionGranted(r.permission) then [RequestPermission, GetCurrentPosition]
    else [RequestPermission]
  }

  /** How one attempt ends, given the provider's replies. */
  function Result(r: Replies): (o: Outcome)
    ensures o.Located? <==> PermissionGranted(r.permission) && r.position.Position?
    ensures o.Located? ==> o.sample == r.position.sample
    ensures r.permission.PermissionThrew? ==> o == Failed(r.permission.message)
    ensures r.permission.Status? && r.permission.status != Granted ==> o == Failed(Some(DeniedMessage))
    ensures PermissionGranted(r.permission) && r.position.PositionThrew? ==> o == Failed(r.position.message)
  {
    match r.permission
    case PermissionThrew(m) => Failed(m)
    case Status(s) =>
      if s != Granted then Failed(Some(DeniedMessage))
      else
        match r.position
        case Position(sample) => Located(sample)
        case PositionThrew(m) => Failed(m)
  }

  /** Without a grant, the position reply neither is requested nor influences the outcome. */
  lemma PositionIgnoredWithoutGrant(r1: Replies, r2: Replies)
    requires r1.permission == r2.permission
    requires !PermissionGranted(r1.permission)
    ensures Calls(r1) == Calls(r2) == [RequestPermission]
    ensures Result(r1) == Result(r2)
  {
  }
}
