/** Binding enrollments to the certificates they present: a two-way index in a key-value bucket and
    the policy that decides when it may grow. */
module CertAuth {
  import opened Strings
  import opened Options
  import opened Enrollment

  type Store = map<string, string>

  // ---------- the index ----------

  function CertKey(id: string): string {
    Key(id, "cert_hash")
  }

  function HashKey(hash: string): string {
    Key(hash, "hash_cert")
  }

  /** The certificate hash an enrollment is bound to. */
  function CertOf(m: Store, id: string): Option<string> {
    if CertKey(id) in m then Some(m[CertKey(id)]) else None
  }

  /** The enrollment a hash was last associated with. */
  function Owner(m: Store, hash: string): Option<string> {
    if HashKey(hash) in m then Some(m[HashKey(hash)]) else None
  }

  function Associated(m: Store, id: string, hash: string): Store {
    m[CertKey(id) := hash][HashKey(hash) := id]
  }

  lemma AssociatedLookups(m: Store, id: string, hash: string, id': string, hash': string)
    ensures var m' := Associated(m, id, hash);
            && CertOf(m', id') == (if id' == id then Some(hash) else CertOf(m, id'))
            && Owner(m', hash') == (if hash' == hash then Some(id) else Owner(m, hash'))
  {
    KeyInjective(id, "cert_hash", id', "cert_hash");
    KeyInjective(hash, "hash_cert", id', "cert_hash");
    KeyInjective(hash, "hash_cert", hash', "hash_cert");
    KeyInjective(id, "cert_hash", hash', "hash_cert");
    hide Key;
  }

  // ---------- the policy ----------

  datatype Config = Config(allowDup: bool, allowRetroactive: bool, warnOnly: bool)

  datatype Verdict = Accepted | MissingCert | InvalidId | NoCertReuse | NoCertAssoc

  /** A request that reaches the middleware: who sends it, with which certificate hash, and whether
      it is an Authenticate message. */
  datatype Request = Request(enrollment: Fields, cert: Option<string>, authenticate: bool)

  /** A new enrollment takes a certificate never seen before, or the one it already has. */
  function NewEnrollment(m: Store, c: Config, id: string, hash: string): (Store, Verdict) {
    if Owner(m, hash).Some? && !c.allowDup && CertOf(m, id) == Some(hash) then (m, Accepted)
    else if Owner(m, hash).Some? && !c.allowDup && !c.warnOnly then (m, NoCertReuse)
    else (Associated(m, id, hash), Accepted)
  }

  /** An existing enrollment shows the certificate it has; only in retroactive mode may it take a
      first one. */
  function ExistingEnrollment(m: Store, c: Config, id: string, hash: string): (Store, Verdict) {
    if CertOf(m, id) == Some(hash) then (m, Accepted)
    else if !c.allowRetroactive && !c.warnOnly then (m, NoCertAssoc)
    else if CertOf(m, id).Some? && !c.warnOnly then (m, NoCertReuse)
    else if Owner(m, hash).Some? && !c.warnOnly then (m, NoCertReuse)
    else if c.warnOnly then (m, Accepted)
    else (Associated(m, id, hash), Accepted)
  }

  function Handled(m: Store, c: Config, r: Request): (Store, Verdict) {
    if r.cert.None? then (m, MissingCert)
    else match NormalizeDevice(r.enrollment)
      case None => (m, InvalidId)
      case Some(id) =>
        if r.authenticate then NewEnrollment(m, c, id, r.cert.value)
        else ExistingEnrollment(m, c, id, r.cert.value)
  }

  function Run(m: Store, c: Config, rs: seq<Request>): Store {
    if rs == [] then m else Handled(Run(m, c, rs[..|rs| - 1]), c, rs[|rs| - 1]).0
  }

  /** The configuration every constructor option leaves: duplicates refused, nothing only warned. */
  predicate Strict(c: Config) {
    !c.allowDup && !c.warnOnly
  }

  // ---------- what the index keeps ----------

  /** An enrollment owns the certificate it is bound to. */
  ghost predicate Owned(m: Store) {
    forall id :: CertOf(m, id).Some? ==> Owner(m, CertOf(m, id).value) == Some(id)
  }

  /** The hash index only grows, and no hash is ever re-pointed. */
  ghost predicate Grows(m: Store, m': Store) {
    forall h :: Owner(m, h).Some? ==> Owner(m', h) == Owner(m, h)
  }

  ghost predicate KeepsBindings(m: Store, m': Store) {
    forall id :: CertOf(m, id).Some? ==> CertOf(m', id) == CertOf(m, id)
  }

  predicate NoAuthenticate(rs: seq<Request>) {
    forall i :: 0 <= i < |rs| ==> !rs[i].authenticate
  }

  /** Some other enrollment is bound to the hash. */
  ghost predicate TakenFrom(m: Store, id: string, hash: string) {
    exists id' :: id' != id && CertOf(m, id') == Some(hash)
  }

  lemma AssociateOwned(m: Store, id: string, hash: string)
    requires Owned(m)
    ensures Owned(Associated(m, id, hash)) <==> !TakenFrom(m, id, hash)
  {
    hide CertKey, HashKey, CertOf, Owner, Associated;
    var m' := Associated(m, id, hash);
    forall x, h { AssociatedLookups(m, id, hash, x, h); }
    if TakenFrom(m, id, hash) {
      var id' :| id' != id && CertOf(m, id') == Some(hash);
      assert CertOf(m', id') == Some(hash) && Owner(m', hash) == Some(id);
    }
  }

  /** Exactly when an Authenticate keeps the index consistent, under any configuration: it fails only
      if the request is let through by allowDup or warnOnly and its hash is bound elsewhere. */
  lemma NewEnrollmentOwned(m: Store, c: Config, id: string, hash: string)
    requires Owned(m)
    ensures Owned(NewEnrollment(m, c, id, hash).0) <==> Strict(c) || !TakenFrom(m, id, hash)
  {
    AssociateOwned(m, id, hash);
    if TakenFrom(m, id, hash) {
      TakenIsOwned(m, id, hash);
    }
    hide CertOf, Owner, Associated, TakenFrom, Owned;
  }

  lemma TakenIsOwned(m: Store, id: string, hash: string)
    requires Owned(m) && TakenFrom(m, id, hash)
    ensures Owner(m, hash).Some? && CertOf(m, id) != Some(hash)
  {
    hide CertOf, Owner;
  }

  // ---------- strict runs ----------

  lemma StrictStep(m: Store, c: Config, r: Request)
    requires Owned(m) && Strict(c)
    ensures Owned(Handled(m, c, r).0) && Grows(m, Handled(m, c, r).0)
    ensures !r.authenticate ==> KeepsBindings(m, Handled(m, c, r).0)
  {
    hide CertKey, HashKey, CertOf, Owner, Associated, TakenFrom;
    if r.cert.Some? && NormalizeDevice(r.enrollment).Some? {
      var id, hash := NormalizeDevice(r.enrollment).value, r.cert.value;
      forall x, h { AssociatedLookups(m, id, hash, x, h); }
      if r.authenticate {
        NewEnrollmentOwned(m, c, id, hash);
      } else {
        AssociateOwned(m, id, hash);
        if TakenFrom(m, id, hash) {
          TakenIsOwned(m, id, hash);
        }
      }
    }
  }

  lemma {:induction false} RunOwned(m: Store, c: Config, rs: seq<Request>)
    requires Owned(m) && Strict(c)
    ensures Owned(Run(m, c, rs))
    decreases |rs|
  {
    if rs != [] {
      RunOwned(m, c, rs[..|rs| - 1]);
      StrictStep(Run(m, c, rs[..|rs| - 1]), c, rs[|rs| - 1]);
    }
  }

  /** Over every strict run from an empty store, no two enrollments are bound to the same
      certificate, and each enrollment owns the one it is bound to. */
  lemma BindingsUnique(c: Config, rs: seq<Request>, id1: string, id2: string)
    requires Strict(c)
    ensures var m := Run(map[], c, rs);
            && (CertOf(m, id1).Some? ==> Owner(m, CertOf(m, id1).value) == Some(id1))
            && (CertOf(m, id1).Some? && CertOf(m, id1) == CertOf(m, id2) ==> id1 == id2)
  {
    hide CertKey, HashKey;
    RunOwned(map[], c, rs);
  }

  /** Over the rest of a run, the hash index only grows; without Authenticate messages, bindings stay
      as they are. */
  lemma {:induction false} BindingsKept(c: Config, rs: seq<Request>, more: seq<Request>)
    requires Strict(c)
    ensures var m, m' := Run(map[], c, rs), Run(map[], c, rs + more);
            && Grows(m, m')
            && (NoAuthenticate(more) ==> KeepsBindings(m, m'))
    decreases |more|
  {
    if more == [] {
      assert rs + more == rs;
    } else {
      var n := |more| - 1;
      BindingsKept(c, rs, more[..n]);
      assert (rs + more)[..|rs| + n] == rs + more[..n];
      var m, m1 := Run(map[], c, rs), Run(map[], c, rs + more[..n]);
      RunOwned(map[], c, rs + more[..n]);
      StrictStep(m1, c, more[n]);
      assert Run(map[], c, rs + more) == Handled(m1, c, more[n]).0;
      assert NoAuthenticate(more) ==> NoAuthenticate(more[..n]) && !more[n].authenticate;
      hide CertOf, Owner, Handled, Owned, Run, NoAuthenticate;
    }
  }

  /** The verdict on every request under every configuration, by the fields of the request and the
      bindings before, and what it leaves bound. A refused request and one let through with a warning
      for an existing enrollment change nothing. */
  lemma HandledExactly(m: Store, c: Config, r: Request)
    ensures var (m', v) := Handled(m, c, r);
            && (v == MissingCert <==> r.cert.None?)
            && (v == InvalidId <==> r.cert.Some? && r.enrollment.udid == "" && r.enrollment.enrollmentId == "")
            && (v == MissingCert || v == InvalidId ==> m' == m)
    ensures r.cert.Some? && (r.enrollment.udid != "" || r.enrollment.enrollmentId != "") ==>
              var (m', v) := Handled(m, c, r);
              var id := if r.enrollment.udid != "" then r.enrollment.udid else r.enrollment.enrollmentId;
              var hash := r.cert.value;
              var own, seen, bound := CertOf(m, id) == Some(hash), Owner(m, hash).Some?, CertOf(m, id).Some?;
              var binds := if r.authenticate then !seen || c.allowDup || (!own && c.warnOnly)
                           else !own && !c.warnOnly && c.allowRetroactive && !bound && !seen;
              && (v == NoCertReuse <==>
                    !own && !c.warnOnly &&
                    if r.authenticate then seen && !c.allowDup else c.allowRetroactive && (bound || seen))
              && (v == NoCertAssoc <==> !r.authenticate && !own && !c.warnOnly && !c.allowRetroactive)
              && (if binds then v == Accepted && CertOf(m', id) == Some(hash) && Owner(m', hash) == Some(id)
                  else m' == m)
  {
    hide CertKey, HashKey, CertOf, Owner, Associated, NormalizeDevice;
    NormalizeDeviceByFields(r.enrollment);
    if r.cert.Some? && NormalizeDevice(r.enrollment).Some? {
      AssociatedLookups(m, NormalizeDevice(r.enrollment).value, r.cert.value, NormalizeDevice(r.enrollment).value, r.cert.value);
    }
  }

  // ---------- one certificate for all channels of a device ----------

  /** A request from the device `d` or one of its users. */
  predicate ChannelOf(e: Fields, d: string) {
    d != "" && d == if e.udid != "" then e.udid else e.enrollmentId
  }

  /** The device enrolls anew only with the same certificate. */
  predicate KeepsCertificate(rs: seq<Request>, d: string, hash: string) {
    forall i :: 0 <= i < |rs| && rs[i].authenticate && ChannelOf(rs[i].enrollment, d) ==> rs[i].cert == Some(hash)
  }

  lemma BindingStep(m: Store, c: Config, r: Request, d: string, hash: string)
    requires Owned(m) && Strict(c) && CertOf(m, d) == Some(hash)
    requires r.authenticate && ChannelOf(r.enrollment, d) ==> r.cert == Some(hash)
    ensures d != "" ==> CertOf(Handled(m, c, r).0, d) == Some(hash)
  {
    hide CertKey, HashKey, CertOf, Owner, Associated, NormalizeDevice, Owned;
    NormalizeDeviceByFields(r.enrollment);
    if r.cert.Some? && NormalizeDevice(r.enrollment).Some? {
      AssociatedLookups(m, NormalizeDevice(r.enrollment).value, r.cert.value, d, hash);
    }
  }

  lemma {:induction false} BindingRun(m: Store, c: Config, rs: seq<Request>, d: string, hash: string)
    requires Owned(m) && Strict(c) && d != "" && CertOf(m, d) == Some(hash) && KeepsCertificate(rs, d, hash)
    ensures Owned(Run(m, c, rs)) && CertOf(Run(m, c, rs), d) == Some(hash)
    decreases |rs|
  {
    hide CertOf, Owned, Handled, ChannelOf;
    if rs != [] {
      var n := |rs| - 1;
      BindingRun(m, c, rs[..n], d, hash);
      BindingStep(Run(m, c, rs[..n]), c, rs[n], d, hash);
      StrictStep(Run(m, c, rs[..n]), c, rs[n]);
    }
  }

  /** Once the Authenticate of a device is accepted, every channel of the device that shows the same
      certificate is accepted, until the device authenticates with another. */
  lemma ChannelsAccepted(c: Config, rs: seq<Request>, first: Request, more: seq<Request>, r: Request, d: string, hash: string)
    requires Strict(c)
    requires first.authenticate && ChannelOf(first.enrollment, d) && first.cert == Some(hash)
    requires var m := Run(map[], c, rs); Handled(m, c, first).1 == Accepted
    requires KeepsCertificate(more, d, hash)
    requires ChannelOf(r.enrollment, d) && r.cert == Some(hash)
    ensures var m := Handled(Run(map[], c, rs), c, first).0;
            Handled(Run(m, c, more), c, r) == (Run(m, c, more), Accepted)
  {
    RunOwned(map[], c, rs);
    hide CertOf, Owner, Owned, Handled, Run, NormalizeDevice;
    var m0 := Run(map[], c, rs);
    var m := Handled(m0, c, first).0;
    StrictStep(m0, c, first);
    AcceptedExactly(m0, c, first, d, hash);
    BindingRun(m, c, more, d, hash);
    BoundIsAccepted(Run(m, c, more), c, r, d, hash);
  }

  lemma BoundIsAccepted(m: Store, c: Config, r: Request, d: string, hash: string)
    requires Owned(m) && Strict(c) && CertOf(m, d) == Some(hash) && ChannelOf(r.enrollment, d) && r.cert == Some(hash)
    ensures Handled(m, c, r) == (m, Accepted)
  {
    hide CertKey, HashKey, CertOf, Owner, NormalizeDevice;
    NormalizeDeviceByFields(r.enrollment);
  }

  /** Who gets through. Without retroactive mode a message other than Authenticate is accepted exactly
      from the enrollment bound to the certificate it shows; in retroactive mode also from an
      enrollment with no binding showing a certificate never seen. An Authenticate is accepted
      exactly if its certificate is unseen or already its own. */
  lemma AcceptedExactly(m: Store, c: Config, r: Request, id: string, hash: string)
    requires Owned(m) && Strict(c)
    requires r.enrollment.udid != "" || r.enrollment.enrollmentId != ""
    requires id == (if r.enrollment.udid != "" then r.enrollment.udid else r.enrollment.enrollmentId)
    requires r.cert == Some(hash)
    ensures Handled(m, c, r).1 == Accepted <==>
              || CertOf(m, id) == Some(hash)
              || (Owner(m, hash).None? && (r.authenticate || (c.allowRetroactive && CertOf(m, id).None?)))
    ensures Handled(m, c, r).1 == Accepted <==> CertOf(Handled(m, c, r).0, id) == Some(hash)
    ensures Handled(m, c, r).1 != Accepted ==> Handled(m, c, r).0 == m
  {
    hide CertKey, HashKey, CertOf, Owner, Associated, NormalizeDevice;
    NormalizeDeviceByFields(r.enrollment);
    AssociatedLookups(m, id, hash, id, hash);
  }

  /** A certificate given up by moving to a new one cannot be taken back, not even by the enrollment
      that still owns it in the hash index. */
  lemma OldCertificateRefused(m: Store, c: Config, id: string, old1: string, new1: string)
    requires Owned(m) && Strict(c)
    requires CertOf(m, id) == Some(old1) && Owner(m, new1).None?
    ensures var m' := NewEnrollment(m, c, id, new1).0;
            && CertOf(m', id) == Some(new1) && Owner(m', old1) == Some(id)
            && NewEnrollment(m', c, id, old1) == (m', NoCertReuse)
  {
    hide CertKey, HashKey, CertOf, Owner, Associated;
    AssociatedLookups(m, id, new1, id, new1);
    AssociatedLookups(m, id, new1, id, old1);
    assert old1 != new1;
  }

  // ---------- the store and the middleware as the program runs them ----------

  class CertAuthBucket {
    var m: Store

    constructor ()
      ensures m == map[]
    {
      m := map[];
    }

    method HasCertHash(hash: string) returns (r: bool)
      ensures r <==> Owner(m, hash).Some?
    {
      r := HashKey(hash) in m;
    }

    method EnrollmentHasCertHash(id: string) returns (r: bool)
      ensures r <==> CertOf(m, id).Some?
    {
      r := CertKey(id) in m;
    }

    method IsCertHashAssociated(id: string, hash: string) returns (r: bool)
      ensures r <==> CertOf(m, id) == Some(hash)
    {
      r := CertKey(id) in m && m[CertKey(id)] == hash;
    }

    method AssociateCertHash(id: string, hash: string)
      modifies this
      ensures m == Associated(old(m), id, hash)
      ensures CertOf(m, id) == Some(hash) && Owner(m, hash) == Some(id)
      ensures forall id' :: id' != id ==> CertOf(m, id') == CertOf(old(m), id')
      ensures forall hash' :: hash' != hash ==> Owner(m, hash') == Owner(old(m), hash')
    {
      hide CertOf, Owner;
      AssociatedLookups(m, id, hash, id, hash);
      forall id' | id' != id ensures CertOf(Associated(m, id, hash), id') == CertOf(m, id') {
        AssociatedLookups(m, id, hash, id', hash);
      }
      forall hash' | hash' != hash ensures Owner(Associated(m, id, hash), hash') == Owner(m, hash') {
        AssociatedLookups(m, id, hash, id, hash');
      }
      m := m[CertKey(id) := hash][HashKey(hash) := id];
    }
  }

  class Middleware {
    const storage: CertAuthBucket
    const config: Config

    constructor (storage: CertAuthBucket, config: Config)
      ensures this.storage == storage && this.config == config
    {
      this.storage := storage;
      this.config := config;
    }

    method AssociateNewEnrollment(cert: Option<string>, id: Option<string>) returns (v: Verdict)
      modifies storage
      ensures (storage.m, v) == if cert.None? then (old(storage.m), MissingCert)
                                else if id.None? then (old(storage.m), InvalidId)
                                else NewEnrollment(old(storage.m), config, id.value, cert.value)
    {
      hide CertKey, HashKey, CertOf, Owner, Associated;
      if cert.None? {
        return MissingCert;
      }
      if id.None? {
        return InvalidId;
      }
      var hasHash := storage.HasCertHash(cert.value);
      if hasHash && !config.allowDup {
        var isAssoc := storage.IsCertHashAssociated(id.value, cert.value);
        if isAssoc {
          return Accepted;
        }
        if !config.warnOnly {
          return NoCertReuse;
        }
      }
      storage.AssociateCertHash(id.value, cert.value);
      return Accepted;
    }

    method ValidateAssociateExistingEnrollment(cert: Option<string>, id: Option<string>) returns (v: Verdict)
      modifies storage
      ensures (storage.m, v) == if cert.None? then (old(storage.m), MissingCert)
                                else if id.None? then (old(storage.m), InvalidId)
                                else ExistingEnrollment(old(storage.m), config, id.value, cert.value)
    {
      hide CertKey, HashKey, CertOf, Owner, Associated;
      if cert.None? {
        return MissingCert;
      }
      if id.None? {
        return InvalidId;
      }
      var isAssoc := storage.IsCertHashAssociated(id.value, cert.value);
      if isAssoc {
        return Accepted;
      }
      if !config.allowRetroactive && !config.warnOnly {
        return NoCertAssoc;
      }
      var hasBinding := storage.EnrollmentHasCertHash(id.value);
      if hasBinding && !config.warnOnly {
        return NoCertReuse;
      }
      var hasHash := storage.HasCertHash(cert.value);
      if hasHash && !config.warnOnly {
        return NoCertReuse;
      }
      if config.warnOnly {
        return Accepted;
      }
      storage.AssociateCertHash(id.value, cert.value);
      return Accepted;
    }

    method Handle(r: Request) returns (v: Verdict)
      modifies storage
      ensures (storage.m, v) == Handled(old(storage.m), config, r)
    {
      var id := NormalizeDevice(r.enrollment);
      if r.authenticate {
        v := AssociateNewEnrollment(r.cert, id);
      } else {
        v := ValidateAssociateExistingEnrollment(r.cert, id);
      }
    }
  }
}
