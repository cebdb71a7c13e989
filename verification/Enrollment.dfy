/** Enrollment identifiers as requests carry them, and the ids the services derive from them. */
module Enrollment {
  import opened Options

  /** The identifying fields of a request; an absent field is empty. */
  datatype Fields = Fields(
    udid: string,
    userId: string,
    userShortName: string,
    enrollmentId: string,
    enrollmentUserId: string
  )

  datatype EnrollType = Device | User | UserEnrollmentDevice | UserEnrollment | SharediPad

  datatype Resolved = Resolved(kind: EnrollType, device: string, user: Option<string>)

  const SHARED_IPAD_USER_ID := "FFFFFFFF-FFFF-FFFF-FFFF-FFFFFFFFFFFF"

  function Resolve(e: Fields): Option<Resolved> {
    if e.udid != "" then
      if e.userId == "" then Some(Resolved(Device, e.udid, None))
      else if e.userId == SHARED_IPAD_USER_ID then Some(Resolved(SharediPad, e.udid, Some(e.userShortName)))
      else Some(Resolved(User, e.udid, Some(e.userId)))
    else if e.enrollmentId != "" then
      if e.enrollmentUserId == "" then Some(Resolved(UserEnrollmentDevice, e.enrollmentId, None))
      else Some(Resolved(UserEnrollment, e.enrollmentId, Some(e.enrollmentUserId)))
    else None
  }

  /** An enrollment id; `parent` is empty for a device channel. */
  datatype EnrollId = EnrollId(kind: EnrollType, id: string, parent: string)

  /** The id the main service and the storage use: a user channel is named after its device. */
  function Normalize(e: Fields): Option<EnrollId> {
    match Resolve(e)
    case None => None
    case Some(r) =>
      Some(match r.user
           case None => EnrollId(r.kind, r.device, "")
           case Some(u) => EnrollId(r.kind, r.device + ":" + u, r.device))
  }

  /** The id certificate bindings use: the device's, for every channel. */
  function NormalizeDevice(e: Fields): Option<string> {
    match Resolve(e)
    case None => None
    case Some(r) => Some(r.device)
  }

  /** What the services make of the fields of a request, field by field: the UDID comes before the
      enrollment id, and a Shared iPad's users go by their short names. */
  lemma NormalizeByFields(e: Fields)
    ensures Normalize(e).None? <==> e.udid == "" && e.enrollmentId == ""
    ensures e.udid != "" && e.userId == "" ==> Normalize(e) == Some(EnrollId(Device, e.udid, ""))
    ensures e.udid != "" && e.userId != "" && e.userId != "FFFFFFFF-FFFF-FFFF-FFFF-FFFFFFFFFFFF" ==>
              Normalize(e) == Some(EnrollId(User, e.udid + ":" + e.userId, e.udid))
    ensures e.udid != "" && e.userId == "FFFFFFFF-FFFF-FFFF-FFFF-FFFFFFFFFFFF" ==>
              Normalize(e) == Some(EnrollId(SharediPad, e.udid + ":" + e.userShortName, e.udid))
    ensures e.udid == "" && e.enrollmentId != "" && e.enrollmentUserId == "" ==>
              Normalize(e) == Some(EnrollId(UserEnrollmentDevice, e.enrollmentId, ""))
    ensures e.udid == "" && e.enrollmentId != "" && e.enrollmentUserId != "" ==>
              Normalize(e) == Some(EnrollId(UserEnrollment, e.enrollmentId + ":" + e.enrollmentUserId, e.enrollmentId))
  {
  }

  /** Certificates are bound to the device whatever the user fields say. */
  lemma NormalizeDeviceByFields(e: Fields)
    ensures e.udid != "" ==> NormalizeDevice(e) == Some(e.udid)
    ensures e.udid == "" && e.enrollmentId != "" ==> NormalizeDevice(e) == Some(e.enrollmentId)
    ensures e.udid == "" && e.enrollmentId == "" ==> NormalizeDevice(e) == None
  {
  }
}
