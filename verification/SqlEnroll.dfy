/** The relational enrollment tables: upserts, a guarded disable that cascades to user channels, and
    the tally they keep. */
module SqlEnroll {
  import opened Options
  import opened Enrollment
  import opened EnrollKeys
  import opened KvEnroll
  import opened KvLifecycle

  datatype EnrollmentRow = EnrollmentRow(device: string, enabled: bool, tally: nat)

  /** Ids with a devices row, user rows by id and device, and the enrollments table. */
  datatype Tables = Tables(
    devices: set<string>,
    users: set<(string, string)>,
    enrollments: map<string, EnrollmentRow>
  )

  const NO_ROWS := Tables({}, {}, map[])

  /** UPDATE ... SET enabled = 0, tally = 0 WHERE device_id = d AND enabled = 1. */
  function RowsDisabled(rows: map<string, EnrollmentRow>, d: string): map<string, EnrollmentRow> {
    map id | id in rows ::
      if rows[id].device == d && rows[id].enabled then rows[id].(enabled := false, tally := 0) else rows[id]
  }

  /** The same statement without the guard on enabled. */
  function RowsDisabledUnguarded(rows: map<string, EnrollmentRow>, d: string): map<string, EnrollmentRow> {
    map id | id in rows :: if rows[id].device == d then rows[id].(enabled := false, tally := 0) else rows[id]
  }

  /** INSERT ... ON DUPLICATE KEY UPDATE: a first token enrolls with tally 1, a later one counts on. */
  function Upserted(rows: map<string, EnrollmentRow>, id: string, d: string): map<string, EnrollmentRow> {
    rows[id := EnrollmentRow(d, true, if id in rows then rows[id].tally + 1 else 1)]
  }

  function OwnerDevice(id: EnrollId): string {
    if id.parent == "" then id.id else id.parent
  }

  /** A check-in message against the tables. An Authenticate on a user channel still writes a devices
      row before the queue is refused; tokens need the device's row; only devices can be disabled. */
  function SqlServed(t: Tables, r: Request): Tables {
    match Normalize(r.msg.e)
    case None => t
    case Some(id) =>
      match r.msg
      case Authenticate(_, _) =>
        var t' := t.(devices := t.devices + {id.id});
        if id.parent != "" then t' else t'.(enrollments := RowsDisabled(t.enrollments, id.id))
      case TokenUpdate(_, _, _, _, _) =>
        if OwnerDevice(id) !in t.devices then t
        else
          Tables(t.devices,
                 if id.parent != "" then t.users + {(id.id, id.parent)} else t.users,
                 Upserted(t.enrollments, id.id, OwnerDevice(id)))
      case CheckOut(_) => if id.parent != "" then t else t.(enrollments := RowsDisabled(t.enrollments, id.id))
      case UserAuthenticate(_, _) =>
        if id.parent !in t.devices then t else t.(users := t.users + {(id.id, id.parent)})
      case _ => t
  }

  function SqlRun(t: Tables, rs: seq<Request>): Tables {
    if rs == [] then t else SqlServed(SqlRun(t, rs[..|rs| - 1]), rs[|rs| - 1])
  }

  // ---------- what the messages say ----------

  predicate Authenticated(ms: seq<Checkin>, d: string) {
    exists i :: 0 <= i < |ms| && ms[i].Authenticate? && From(ms[i], d)
  }

  /** The message disables device `d` and with it all its channels. */
  predicate Disables(m: Checkin, d: string) {
    (m.Authenticate? || m.CheckOut?) && From(m, d) && OnDevice(m)
  }

  /** The accepted TokenUpdates of an enrollment since its device was last disabled. */
  function TokensSinceDisabled(ms: seq<Checkin>, id: string): nat {
    if ms == [] then 0
    else
      var m, before := ms[|ms| - 1], ms[..|ms| - 1];
      if Disables(m, DeviceOf(id)) then 0
      else TokensSinceDisabled(before, id)
           + if m.TokenUpdate? && From(m, id) && Authenticated(before, DeviceOf(id)) then 1 else 0
  }

  // ---------- every run ----------

  /** The tables say of an enrollment what its messages and its device's say. */
  ghost predicate Tells(t: Tables, ms: seq<Checkin>, id: string) {
    && (DeviceOf(id) in t.devices <==> Authenticated(ms, DeviceOf(id)))
    && (id in t.enrollments ==>
          && t.enrollments[id].device == DeviceOf(id)
          && t.enrollments[id].tally == TokensSinceDisabled(ms, id)
          && (t.enrollments[id].enabled <==> t.enrollments[id].tally >= 1))
    && (id !in t.enrollments ==> TokensSinceDisabled(ms, id) == 0)
  }

  lemma AuthenticatedStep(ms: seq<Checkin>, m: Checkin, d: string)
    ensures Authenticated(ms + [m], d) <==> Authenticated(ms, d) || (m.Authenticate? && From(m, d))
  {
    hide From;
    assert (ms + [m])[|ms|] == m;
    if Authenticated(ms, d) {
      var i :| 0 <= i < |ms| && ms[i].Authenticate? && From(ms[i], d);
      assert (ms + [m])[i] == ms[i];
    }
  }

  lemma SenderDevice(r: Request, id: string)
    requires ValidRequest(r) && ValidId(id) && Normalize(r.msg.e).Some?
    ensures var sender := Normalize(r.msg.e).value;
            && DeviceOf(sender.id) == OwnerDevice(sender)
            && (sender.id == DeviceOf(id) ==> sender.parent == "")
            && ValidId(sender.id)
  {
    NormalizeValid(r);
    DeviceOfValidId(id);
    var sender := Normalize(r.msg.e).value;
    if sender.parent == "" {
      DeviceIsValid(sender.id);
    }
  }

  lemma DeviceOfValidId(id: string)
    requires ValidId(id)
    ensures ValidDevice(DeviceOf(id))
  {
    SplitJoins(id);
  }

  lemma TellsStep(t: Tables, ms: seq<Checkin>, r: Request, id: string)
    requires Tells(t, ms, id) && ValidRequest(r) && ValidId(id)
    ensures Tells(SqlServed(t, r), ms + [r.msg], id)
  {
    hide Normalize, DeviceOf, ValidId, ValidRequest, Authenticated;
    AuthenticatedStep(ms, r.msg, DeviceOf(id));
    assert (ms + [r.msg])[..|ms|] == ms;
    if Normalize(r.msg.e).Some? {
      SenderDevice(r, id);
    }
  }

  lemma {:induction false} RunTells(rs: seq<Request>, id: string)
    requires ValidRun(rs) && ValidId(id)
    ensures Tells(SqlRun(NO_ROWS, rs), Messages(rs), id)
  {
    if rs != [] {
      var n := |rs| - 1;
      RunTells(rs[..n], id);
      TellsStep(SqlRun(NO_ROWS, rs[..n]), Messages(rs[..n]), rs[n], id);
      MessagesInit(rs);
      assert Messages(rs) == Messages(rs[..n]) + [rs[n].msg];
    }
  }

  /** Over every run: an enrollment is enabled exactly when its tally is at least 1, and the tally counts
      its TokenUpdates since its device was last disabled, on the user channels too. */
  lemma Lifecycle(rs: seq<Request>, id: string)
    requires ValidRun(rs) && ValidId(id) && id in SqlRun(NO_ROWS, rs).enrollments
    ensures var row := SqlRun(NO_ROWS, rs).enrollments[id];
            && row.tally == TokensSinceDisabled(Messages(rs), id)
            && (row.enabled <==> row.tally >= 1)
            && row.device == DeviceOf(id)
  {
    RunTells(rs, id);
  }

  // ---------- which rows there are ----------

  /** A token of the enrollment was accepted. */
  predicate Enrolled(ms: seq<Checkin>, id: string) {
    ms != [] &&
    var m, before := ms[|ms| - 1], ms[..|ms| - 1];
    Enrolled(before, id) || (m.TokenUpdate? && From(m, id) && Authenticated(before, DeviceOf(id)))
  }

  /** A token or a first message of a user channel was accepted. */
  predicate UserKnown(ms: seq<Checkin>, u: string, d: string) {
    ms != [] &&
    var m, before := ms[|ms| - 1], ms[..|ms| - 1];
    || UserKnown(before, u, d)
    || ((m.TokenUpdate? || m.UserAuthenticate?) && From(m, u) && !OnDevice(m) && d == DeviceOf(u) && Authenticated(before, d))
  }

  /** The tables hold rows for exactly these. */
  ghost predicate RowsAre(t: Tables, ms: seq<Checkin>, id: string, d: string) {
    && (id in t.devices <==> Authenticated(ms, id))
    && (ValidId(id) ==> (id in t.enrollments <==> Enrolled(ms, id)))
    && ((id, d) in t.users <==> UserKnown(ms, id, d))
  }

  lemma RowsAreStep(t: Tables, ms: seq<Checkin>, r: Request, id: string, d: string)
    requires ValidRequest(r)
    requires RowsAre(t, ms, id, d) && "" !in t.devices
    requires DeviceOf(id) in t.devices <==> Authenticated(ms, DeviceOf(id))
    ensures RowsAre(SqlServed(t, r), ms + [r.msg], id, d)
  {
    hide Normalize, DeviceOf, ValidId, ValidDevice, ValidRequest, Authenticated;
    assert (ms + [r.msg])[..|ms|] == ms;
    AuthenticatedStep(ms, r.msg, id);
    if Normalize(r.msg.e).Some? {
      SenderOwner(r);
    }
  }

  lemma SenderOwner(r: Request)
    requires ValidRequest(r) && Normalize(r.msg.e).Some?
    ensures var i := Normalize(r.msg.e).value;
            ValidId(i.id) && DeviceOf(i.id) == if i.parent == "" then i.id else i.parent
  {
    NormalizeValid(r);
    var i := Normalize(r.msg.e).value;
    if i.parent == "" {
      DeviceIsValid(i.id);
    }
  }

  /** Over every run: a devices row for each id that sent an Authenticate, an enrollments row for each
      whose token was accepted, which takes a devices row, a users row for each user channel whose token or
      first message was. */
  lemma {:induction false} RowsExactly(rs: seq<Request>, id: string, d: string)
    requires ValidRun(rs)
    ensures RowsAre(SqlRun(NO_ROWS, rs), Messages(rs), id, d)
  {
    if rs != [] {
      var n := |rs| - 1;
      var ms := Messages(rs[..n]);
      hide RowsAre, SqlServed, ValidRequest;
      RowsExactly(rs[..n], id, d);
      DevicesAre(rs[..n], "", d);
      DevicesAre(rs[..n], DeviceOf(id), d);
      NobodyAuthenticated(rs[..n]);
      MessagesInit(rs);
      assert Messages(rs) == ms + [rs[n].msg];
      RowsAreStep(SqlRun(NO_ROWS, rs[..n]), ms, rs[n], id, d);
    }
  }

  lemma {:induction false} DevicesAre(rs: seq<Request>, id: string, d: string)
    requires ValidRun(rs)
    ensures id in SqlRun(NO_ROWS, rs).devices <==> Authenticated(Messages(rs), id)
  {
    if rs != [] {
      var n := |rs| - 1;
      DevicesAre(rs[..n], id, d);
      MessagesInit(rs);
      assert Messages(rs) == Messages(rs[..n]) + [rs[n].msg];
      AuthenticatedStep(Messages(rs[..n]), rs[n].msg, id);
      hide Normalize, Authenticated, Messages, Upserted, RowsDisabled, OwnerDevice;
    }
  }

  lemma NobodyAuthenticated(rs: seq<Request>)
    requires ValidRun(rs)
    ensures !Authenticated(Messages(rs), "")
  {
    if Authenticated(Messages(rs), "") {
      var i :| 0 <= i < |rs| && rs[i].msg.Authenticate? && From(rs[i].msg, "");
      NormalizeByFields(rs[i].msg.e);
    }
  }

  predicate RowsValid(t: Tables) {
    forall id :: id in t.enrollments ==> ValidId(id)
  }

  lemma {:induction false} RunRowsValid(rs: seq<Request>)
    requires ValidRun(rs)
    ensures RowsValid(SqlRun(NO_ROWS, rs))
  {
    if rs != [] {
      var n := |rs| - 1;
      RunRowsValid(rs[..n]);
      if Normalize(rs[n].msg.e).Some? {
        NormalizeValid(rs[n]);
      }
      hide Normalize, ValidId;
    }
  }

  /** In every reachable state the guard on `enabled` loses nothing, and disabling a device leaves no
      channel of it enabled or with a tally. */
  lemma GuardLosesNothing(rs: seq<Request>, d: string)
    requires ValidRun(rs)
    ensures var rows := SqlRun(NO_ROWS, rs).enrollments;
            && RowsDisabled(rows, d) == RowsDisabledUnguarded(rows, d)
            && forall id :: id in rows && rows[id].device == d ==> !RowsDisabled(rows, d)[id].enabled && RowsDisabled(rows, d)[id].tally == 0
  {
    hide SqlRun, ValidRun, ValidId, RowsDisabled, RowsDisabledUnguarded;
    RunRowsValid(rs);
    var rows := SqlRun(NO_ROWS, rs).enrollments;
    forall id | id in rows ensures rows[id].enabled <==> rows[id].tally >= 1 {
      Lifecycle(rs, id);
    }
    TalliesGuard(rows, d);
  }

  lemma TalliesGuard(rows: map<string, EnrollmentRow>, d: string)
    requires forall id :: id in rows ==> (rows[id].enabled <==> rows[id].tally >= 1)
    ensures RowsDisabled(rows, d) == RowsDisabledUnguarded(rows, d)
    ensures forall id :: id in rows && rows[id].device == d ==> !RowsDisabled(rows, d)[id].enabled && RowsDisabled(rows, d)[id].tally == 0
  {
  }

  // ---------- the storage as the program runs it ----------

  class MySQLStorage {
    var t: Tables

    constructor ()
      ensures t == NO_ROWS
    {
      t := NO_ROWS;
    }

    method StoreAuthenticate(id: EnrollId)
      modifies this
      ensures t == old(t).(devices := old(t).devices + {id.id})
    {
      t := t.(devices := t.devices + {id.id});
    }

    /** The user row first, then the enrollment row; both need the device's row. */
    method StoreTokenUpdate(id: EnrollId) returns (ok: bool)
      modifies this
      ensures ok <==> OwnerDevice(id) in old(t).devices
      ensures !ok ==> t == old(t)
      ensures ok ==> t == Tables(old(t).devices,
                                 if id.parent != "" then old(t).users + {(id.id, id.parent)} else old(t).users,
                                 Upserted(old(t).enrollments, id.id, OwnerDevice(id)))
    {
      if id.parent != "" {
        if id.parent !in t.devices {
          return false;
        }
        t := t.(users := t.users + {(id.id, id.parent)});
      }
      if OwnerDevice(id) !in t.devices {
        return false;
      }
      t := t.(enrollments := Upserted(t.enrollments, id.id, OwnerDevice(id)));
      return true;
    }

    method Disable(id: EnrollId) returns (ok: bool)
      modifies this
      ensures ok <==> id.parent == ""
      ensures t == if ok then old(t).(enrollments := RowsDisabled(old(t).enrollments, id.id)) else old(t)
      ensures t.enrollments.Keys == old(t).enrollments.Keys
      ensures ok ==> forall e :: e in t.enrollments && t.enrollments[e].device == id.id ==> !t.enrollments[e].enabled
      ensures forall e :: e in t.enrollments && !(ok && t.enrollments[e].device == id.id) ==> t.enrollments[e] == old(t).enrollments[e]
    {
      if id.parent != "" {
        return false;
      }
      t := t.(enrollments := RowsDisabled(t.enrollments, id.id));
      return true;
    }

    method StoreUserAuthenticate(id: EnrollId) returns (ok: bool)
      modifies this
      ensures ok <==> id.parent in old(t).devices
      ensures t == if ok then old(t).(users := old(t).users + {(id.id, id.parent)}) else old(t)
    {
      if id.parent !in t.devices {
        return false;
      }
      t := t.(users := t.users + {(id.id, id.parent)});
      return true;
    }

    method RetrieveTokenUpdateTally(id: string) returns (r: Option<nat>)
      ensures r == if id in t.enrollments then Some(t.enrollments[id].tally) else None
    {
      r := if id in t.enrollments then Some(t.enrollments[id].tally) else None;
    }

    method Serve(r: Request) returns (ok: bool)
      modifies this
      ensures t == SqlServed(old(t), r)
      ensures var e := r.msg.e;
              var device, user := if e.udid != "" then e.udid else e.enrollmentId, if e.udid != "" then e.userId else e.enrollmentUserId;
              ok <==> device != "" && match r.msg
                                      case Authenticate(_, _) => user == ""
                                      case CheckOut(_) => user == ""
                                      case TokenUpdate(_, _, _, _, _) => device in old(t).devices
                                      case UserAuthenticate(_, _) => (if user == "" then "" else device) in old(t).devices
                                      case _ => true
    {
      NormalizeByFields(r.msg.e);
      var n := Normalize(r.msg.e);
      if n.None? {
        return false;
      }
      var id := n.value;
      match r.msg
      case Authenticate(_, _) =>
        StoreAuthenticate(id);
        if id.parent != "" {
          return false;
        }
        ok := Disable(id);
      case TokenUpdate(_, _, _, _, _) => ok := StoreTokenUpdate(id);
      case CheckOut(_) => ok := Disable(id);
      case UserAuthenticate(_, _) => ok := StoreUserAuthenticate(id);
      case _ => ok := true;
    }
  }
}
