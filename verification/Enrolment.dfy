/**
  Enrolment by invite (bnp_enrol.rs): a transaction over two files, each
  rewritten whole, that may stop before, between or after the writes.
 */
module Enrolment {
  import opened Words

  /** Digests, fingerprints and participants as numbers. */
  datatype Invite = Invite(digest: nat, participant: nat, expires: Option<nat>, used: bool)

  datatype Entry = Entry(fingerprint: nat, participant: nat)

  type Roster = map<nat, Entry>

  datatype Refusal =
    | UnknownInvite
    | InviteUsed
    | InviteExpired
    | AlreadyEnrolled
    | LimitReached
    | BadRequest
    | WriteFailed

  datatype Answer = Issued(participant: nat, fingerprint: nat) | Refused(reason: Refusal)

  /** Which of the two file writes take effect. */
  datatype Writes = NoWrite | EnrolledOnly | BothWrites

  /** One request: the secret's digest, the time, the certificate it would earn if well formed. */
  datatype Request = Request(digest: nat, now: nat, certificate: Option<nat>)

  /** The first invite with this digest, or the number of invites. */
  function Find(invites: seq<Invite>, digest: nat): (i: nat)
    ensures i <= |invites|
    ensures i < |invites| ==> invites[i].digest == digest
    ensures forall j | 0 <= j < i :: invites[j].digest != digest
  {
    if invites == [] || invites[0].digest == digest then 0 else 1 + Find(invites[1..], digest)
  }

  predicate Enrolled(entries: seq<Entry>, participant: nat) {
    exists i | 0 <= i < |entries| :: entries[i].participant == participant
  }

  /** Why a request is refused before anything is written, if it is. */
  function Check(invites: seq<Invite>, entries: seq<Entry>, limit: nat, r: Request): Option<Refusal> {
    var i := Find(invites, r.digest);
    if i == |invites| then Some(UnknownInvite)
    else if invites[i].used then Some(InviteUsed)
    else if invites[i].expires.Some? && r.now >= invites[i].expires.value then Some(InviteExpired)
    else if Enrolled(entries, invites[i].participant) then Some(AlreadyEnrolled)
    else if |entries| >= limit then Some(LimitReached)
    else if r.certificate.None? then Some(BadRequest)
    else None
  }

  /** The two files and the roster sessions are checked against. */
  datatype Store = Store(invites: seq<Invite>, enrolled: seq<Entry>, roster: Roster)

  function Attempted(s: Store, limit: nat, r: Request, writes: Writes): (Store, Answer) {
    var refusal := Check(s.invites, s.enrolled, limit, r);
    if refusal.Some? then (s, Refused(refusal.value))
    else
      var i := Find(s.invites, r.digest);
      var entry := Entry(r.certificate.value, s.invites[i].participant);
      match writes
      case NoWrite => (s, Refused(WriteFailed))
      case EnrolledOnly => (s.(enrolled := s.enrolled + [entry]), Refused(WriteFailed))
      case BothWrites =>
        (Store(s.invites[i := s.invites[i].(used := true)], s.enrolled + [entry], s.roster[entry.fingerprint := entry]),
         Issued(entry.participant, entry.fingerprint))
  }

  /** The roster a start reads: the configured entries, then the enrolled file in order. */
  function Load(base: Roster, entries: seq<Entry>): Roster {
    if entries == [] then base
    else var e := entries[|entries| - 1]; Load(base, entries[..|entries| - 1])[e.fingerprint := e]
  }

  // ----- The authority object ----------------------------------------------

  class EnrolmentAuthority {
    const limit: nat
    var invites: seq<Invite>
    var enrolled: seq<Entry>
    var roster: Roster

    function Value(): Store
      reads this
    {
      Store(invites, enrolled, roster)
    }

    /** A start: the roster is rebuilt from the enrolled file. */
    constructor (limit: nat, base: Roster, invites: seq<Invite>, enrolled: seq<Entry>)
      ensures this.limit == limit && Value() == Store(invites, enrolled, Load(base, enrolled))
    {
      this.limit := limit;
      this.invites := invites;
      this.enrolled := enrolled;
      var r := LoadRoster(base, enrolled);
      roster := r;
    }

    /** Spends an invite on a request; the certificate is recorded before the invite is marked. */
    method Enroll(r: Request, writes: Writes) returns (answer: Answer)
      modifies this`invites, this`enrolled, this`roster
      ensures (Value(), answer) == Attempted(old(Value()), limit, r, writes)
    {
      var i := FindInvite(invites, r.digest);
      if i == |invites| {
        return Refused(UnknownInvite);
      }
      var invite := invites[i];
      if invite.used {
        return Refused(InviteUsed);
      }
      if invite.expires.Some? && r.now >= invite.expires.value {
        return Refused(InviteExpired);
      }
      var known := AnyEnrolled(enrolled, invite.participant);
      if known {
        return Refused(AlreadyEnrolled);
      }
      if |enrolled| >= limit {
        return Refused(LimitReached);
      }
      if r.certificate.None? {
        return Refused(BadRequest);
      }
      var entry := Entry(r.certificate.value, invite.participant);
      if writes.NoWrite? {
        return Refused(WriteFailed);
      }
      enrolled := enrolled + [entry];
      if writes.EnrolledOnly? {
        return Refused(WriteFailed);
      }
      invites := invites[i := invite.(used := true)];
      roster := roster[entry.fingerprint := entry];
      answer := Issued(entry.participant, entry.fingerprint);
    }
  }

  method LoadRoster(base: Roster, entries: seq<Entry>) returns (roster: Roster)
    ensures roster == Load(base, entries)
  {
    roster := base;
    for i := 0 to |entries|
      invariant roster == Load(base, entries[..i])
    {
      assert entries[..i + 1][..i] == entries[..i];
      roster := roster[entries[i].fingerprint := entries[i]];
    }
    assert entries[..|entries|] == entries;
  }

  method FindInvite(invites: seq<Invite>, digest: nat) returns (i: nat)
    ensures i == Find(invites, digest)
  {
    i := 0;
    while i < |invites| && invites[i].digest != digest
      invariant i <= |invites| && forall j | 0 <= j < i :: invites[j].digest != digest
    {
      i := i + 1;
    }
  }

  method AnyEnrolled(entries: seq<Entry>, participant: nat) returns (found: bool)
    ensures found == Enrolled(entries, participant)
  {
    for i := 0 to |entries|
      invariant forall j | 0 <= j < i :: entries[j].participant != participant
    {
      if entries[i].participant == participant {
        return true;
      }
    }
    found := false;
  }

  // ----- Every run of attempts and restarts --------------------------------

  /** `answers` records what clients were told. */
  datatype System = System(store: Store, answers: seq<Answer>)

  /** A crash is an attempt whose writes stop early, then a restart. */
  datatype Step = Attempt(request: Request, writes: Writes) | Restart

  function Next(s: System, base: Roster, limit: nat, step: Step): System {
    match step
    case Restart => s.(store := s.store.(roster := Load(base, s.store.enrolled)))
    case Attempt(r, writes) => var (t, a) := Attempted(s.store, limit, r, writes); System(t, s.answers + [a])
  }

  function Run(s: System, base: Roster, limit: nat, steps: seq<Step>): System
    decreases |steps|
  {
    if steps == [] then s else Run(Next(s, base, limit, steps[0]), base, limit, steps[1..])
  }

  ghost predicate OnePerParticipant(entries: seq<Entry>) {
    forall i, j | 0 <= i < j < |entries| :: entries[i].participant != entries[j].participant
  }

  /** Every certificate told to a client is in the enrolled file, and in the roster. */
  ghost predicate Recorded(s: System) {
    forall p, f | Issued(p, f) in s.answers :: Entry(f, p) in s.store.enrolled && f in s.store.roster
  }

  ghost predicate Inv(s: System, limit: nat) {
    OnePerParticipant(s.store.enrolled) && |s.store.enrolled| <= limit && Recorded(s)
  }

  lemma {:induction false} LoadHolds(base: Roster, entries: seq<Entry>)
    ensures forall e :: e in entries ==> e.fingerprint in Load(base, entries)
    ensures forall f :: f in base ==> f in Load(base, entries)
  {
    if entries != [] {
      LoadHolds(base, entries[..|entries| - 1]);
      assert entries == entries[..|entries| - 1] + [entries[|entries| - 1]];
    }
  }

  lemma AttemptKeeps(s: System, base: Roster, limit: nat, r: Request, writes: Writes)
    requires Inv(s, limit)
    ensures var t := Next(s, base, limit, Attempt(r, writes)); Inv(t, limit)
  {
    var t := Next(s, base, limit, Attempt(r, writes));
    var (u, a) := Attempted(s.store, limit, r, writes);
    forall p, f | Issued(p, f) in t.answers ensures Entry(f, p) in u.enrolled && f in u.roster {
      if Issued(p, f) != a {
        assert Issued(p, f) in s.answers;
      }
    }
  }

  lemma NextKeeps(s: System, base: Roster, limit: nat, step: Step)
    requires Inv(s, limit)
    ensures var t := Next(s, base, limit, step); Inv(t, limit)
  {
    if step.Restart? {
      LoadHolds(base, s.store.enrolled);
    } else {
      AttemptKeeps(s, base, limit, step.request, step.writes);
    }
  }

  /**
    Over every run: at most one enrolled entry per participant, never more than
    the limit, and every certificate a client was given is enrolled and on the
    roster, after any restart too.
   */
  lemma {:induction false} EnrolmentKeeps(s: System, base: Roster, limit: nat, steps: seq<Step>)
    requires Inv(s, limit)
    ensures var t := Run(s, base, limit, steps); Inv(t, limit)
    decreases |steps|
  {
    if steps != [] {
      NextKeeps(s, base, limit, steps[0]);
      EnrolmentKeeps(Next(s, base, limit, steps[0]), base, limit, steps[1..]);
    }
  }

  // ----- The roster identifies each certificate ----------------------------

  ghost predicate DifferentCertificates(entries: seq<Entry>) {
    forall i, j | 0 <= i < j < |entries| :: entries[i].fingerprint != entries[j].fingerprint
  }

  ghost predicate Identified(s: System) {
    && Recorded(s)
    && (DifferentCertificates(s.store.enrolled) ==>
          forall p, f | Issued(p, f) in s.answers :: f in s.store.roster && s.store.roster[f] == Entry(f, p))
  }

  lemma {:induction false} LoadIdentifies(base: Roster, entries: seq<Entry>, e: Entry)
    requires e in entries && DifferentCertificates(entries)
    ensures e.fingerprint in Load(base, entries) && Load(base, entries)[e.fingerprint] == e
  {
    var front, last := entries[..|entries| - 1], entries[|entries| - 1];
    assert entries == front + [last];
    if e != last {
      assert e in front;
      LoadIdentifies(base, front, e);
    }
  }

  lemma NextIdentifies(s: System, base: Roster, limit: nat, step: Step)
    requires Identified(s)
    ensures var t := Next(s, base, limit, step); Identified(t)
  {
    var t := Next(s, base, limit, step);
    if step.Restart? {
      LoadHolds(base, s.store.enrolled);
      if DifferentCertificates(t.store.enrolled) {
        forall p, f | Issued(p, f) in t.answers ensures f in t.store.roster && t.store.roster[f] == Entry(f, p) {
          LoadIdentifies(base, s.store.enrolled, Entry(f, p));
        }
      }
    } else {
      AttemptIdentifies(s, base, limit, step.request, step.writes);
    }
  }

  lemma AttemptIdentifies(s: System, base: Roster, limit: nat, r: Request, writes: Writes)
    requires Identified(s)
    ensures var t := Next(s, base, limit, Attempt(r, writes)); Identified(t)
  {
    var t := Next(s, base, limit, Attempt(r, writes));
    var (u, a) := Attempted(s.store, limit, r, writes);
    forall p, f | Issued(p, f) in t.answers
      ensures Entry(f, p) in u.enrolled && f in u.roster
          && (DifferentCertificates(u.enrolled) ==> u.roster[f] == Entry(f, p))
    {
      if Issued(p, f) != a {
        assert Issued(p, f) in s.answers && Entry(f, p) in s.store.enrolled;
        assert s.store.enrolled <= u.enrolled;
        var i :| 0 <= i < |s.store.enrolled| && s.store.enrolled[i] == Entry(f, p);
        assert u.enrolled[i] == Entry(f, p);
        assert DifferentCertificates(u.enrolled) ==> DifferentCertificates(s.store.enrolled);
        if a.Issued? {
          assert u.enrolled[|s.store.enrolled|].fingerprint == a.fingerprint;
          assert DifferentCertificates(u.enrolled)
            ==> u.enrolled[i].fingerprint != u.enrolled[|s.store.enrolled|].fingerprint;
        }
      }
    }
  }

  /**
    A certificate given to a client names its participant on the roster, over
    every run, as long as no two certificates collide.
   */
  lemma {:induction false} CertificatesKeepTheirIdentity(s: System, base: Roster, limit: nat, steps: seq<Step>)
    requires Identified(s)
    ensures var t := Run(s, base, limit, steps); Identified(t)
    decreases |steps|
  {
    if steps != [] {
      NextIdentifies(s, base, limit, steps[0]);
      CertificatesKeepTheirIdentity(Next(s, base, limit, steps[0]), base, limit, steps[1..]);
    }
  }

  // ----- One certificate per invite ----------------------------------------

  /** Invites keep their place, digest and participant; only the mark changes. */
  ghost predicate SameInvites(a: seq<Invite>, b: seq<Invite>) {
    |a| == |b| && forall i | 0 <= i < |a| :: a[i].digest == b[i].digest && a[i].participant == b[i].participant
  }

  lemma NextKeepsInvites(s: System, base: Roster, limit: nat, step: Step)
    ensures var t := Next(s, base, limit, step);
      SameInvites(s.store.invites, t.store.invites) && s.store.enrolled <= t.store.enrolled
  {
  }

  lemma SameFind(a: seq<Invite>, b: seq<Invite>, digest: nat)
    requires SameInvites(a, b)
    ensures Find(a, digest) == Find(b, digest)
  {
    var i, j := Find(a, digest), Find(b, digest);
    assert i < |a| ==> a[i].digest == b[i].digest;
    assert j < |b| ==> a[j].digest == b[j].digest;
  }

  /** The invite this digest names, if its participant is enrolled. */
  predicate Spent(s: Store, digest: nat) {
    var i := Find(s.invites, digest);
    i < |s.invites| && Enrolled(s.enrolled, s.invites[i].participant)
  }

  lemma SpentStays(s: System, base: Roster, limit: nat, step: Step, digest: nat)
    requires Spent(s.store, digest)
    ensures Spent(Next(s, base, limit, step).store, digest)
  {
    var t := Next(s, base, limit, step);
    NextKeepsInvites(s, base, limit, step);
    SameFind(s.store.invites, t.store.invites, digest);
    var p := s.store.invites[Find(s.store.invites, digest)].participant;
    var i :| 0 <= i < |s.store.enrolled| && s.store.enrolled[i].participant == p;
    assert t.store.enrolled[i].participant == p;
  }

  /**
    An invite earns at most one recorded certificate: once its participant is
    enrolled, every later attempt with it is refused and writes nothing.
   */
  lemma {:induction false} SpentInviteIsRefused(s: System, base: Roster, limit: nat, steps: seq<Step>, r: Request,
      writes: Writes)
    requires Spent(s.store, r.digest)
    ensures var t := Run(s, base, limit, steps);
      Attempted(t.store, limit, r, writes).1.Refused? && Attempted(t.store, limit, r, writes).0 == t.store
    decreases |steps|
  {
    if steps != [] {
      SpentStays(s, base, limit, steps[0], r.digest);
      SpentInviteIsRefused(Next(s, base, limit, steps[0]), base, limit, steps[1..], r, writes);
    }
  }

  /**
    The one loss: when the enrolled file is written and the invites file is not,
    the client is refused, and so is every later attempt with its invite, though
    the invite is not marked used and no certificate was handed out.
   */
  lemma StoppedBetweenWritesLocksOut(s: System, base: Roster, limit: nat, r: Request, steps: seq<Step>, again: Request,
      writes: Writes)
    requires Check(s.store.invites, s.store.enrolled, limit, r).None? && again.digest == r.digest
    ensures var t := Next(s, base, limit, Attempt(r, EnrolledOnly));
      && t.answers == s.answers + [Refused(WriteFailed)]
      && !t.store.invites[Find(t.store.invites, r.digest)].used
      && Attempted(Run(t, base, limit, steps).store, limit, again, writes).1.Refused?
  {
    var t := Next(s, base, limit, Attempt(r, EnrolledOnly));
    var i := Find(s.store.invites, r.digest);
    assert t.store.enrolled[|s.store.enrolled|].participant == s.store.invites[i].participant;
    assert Spent(t.store, r.digest);
    SpentInviteIsRefused(t, base, limit, steps, again, writes);
  }

  /** The invite a secret names: the first with its digest, unspent, unexpired, for somebody not yet enrolled. */
  ghost predicate Names(s: Store, r: Request, i: nat) {
    && i < |s.invites| && s.invites[i].digest == r.digest && (forall j | 0 <= j < i :: s.invites[j].digest != r.digest)
    && !s.invites[i].used && (s.invites[i].expires.Some? ==> r.now < s.invites[i].expires.value)
    && (forall e :: e in s.enrolled ==> e.participant != s.invites[i].participant)
  }

  /** A certificate is issued exactly for such an invite, with room, a well-formed request and both writes done. */
  lemma IssuedIff(s: Store, limit: nat, r: Request, writes: Writes)
    ensures Attempted(s, limit, r, writes).1.Issued?
       <==> |s.enrolled| < limit && r.certificate.Some? && writes.BothWrites? && exists i :: Names(s, r, i)
    ensures Attempted(s, limit, r, writes).1.Issued? ==> Spent(Attempted(s, limit, r, writes).0, r.digest)
  {
    var (t, a) := Attempted(s, limit, r, writes);
    var i := Find(s.invites, r.digest);
    if i < |s.invites| {
      NotEnrolled(s.enrolled, s.invites[i].participant);
    }
    if a.Issued? {
      assert Names(s, r, i);
      SameFind(s.invites, t.invites, r.digest);
      assert t.enrolled[|s.enrolled|].participant == t.invites[Find(t.invites, r.digest)].participant;
    }
    forall j | Names(s, r, j) ensures j == i {
    }
  }

  /** Exactly the invite a certificate was issued on is marked, and only its mark changes. */
  lemma IssuanceMarksItsInvite(s: Store, limit: nat, r: Request, writes: Writes, j: nat)
    requires j < |s.invites|
    ensures var (t, a) := Attempted(s, limit, r, writes);
      && |t.invites| == |s.invites|
      && (t.invites[j] == if a.Issued? && Names(s, r, j) then s.invites[j].(used := true) else s.invites[j])
      && (a.Issued? && Names(s, r, j) ==> a == Issued(s.invites[j].participant, r.certificate.value))
  {
    var (t, a) := Attempted(s, limit, r, writes);
    var i := Find(s.invites, r.digest);
    if a.Issued? {
      NotEnrolled(s.enrolled, s.invites[i].participant);
      assert Names(s, r, i);
    }
  }

  function Marked(invites: seq<Invite>): nat {
    if invites == [] then 0
    else Marked(invites[..|invites| - 1]) + if invites[|invites| - 1].used then 1 else 0
  }

  function IssuedIn(answers: seq<Answer>): nat {
    if answers == [] then 0
    else IssuedIn(answers[..|answers| - 1]) + if answers[|answers| - 1].Issued? then 1 else 0
  }

  lemma {:induction false} MarkOne(a: seq<Invite>, b: seq<Invite>, i: nat)
    requires i < |a| && !a[i].used && b == a[i := a[i].(used := true)]
    ensures Marked(b) == Marked(a) + 1
  {
    var n := |a| - 1;
    if i < n {
      MarkOne(a[..n], b[..n], i);
    } else {
      assert a[..n] == b[..n];
    }
  }

  lemma NextMarks(s: System, base: Roster, limit: nat, step: Step)
    ensures var t := Next(s, base, limit, step);
      Marked(t.store.invites) + IssuedIn(s.answers) == Marked(s.store.invites) + IssuedIn(t.answers)
  {
    if step.Attempt? {
      var (t, a) := Attempted(s.store, limit, step.request, step.writes);
      assert (s.answers + [a])[..|s.answers|] == s.answers;
      if a.Issued? {
        MarkOne(s.store.invites, t.invites, Find(s.store.invites, step.request.digest));
      }
    }
  }

  /** Over every run, restarts and stopped writes included, an invite is marked for each certificate handed out. */
  lemma {:induction false} OneInvitePerCertificate(s: System, base: Roster, limit: nat, steps: seq<Step>)
    ensures var t := Run(s, base, limit, steps);
      Marked(t.store.invites) - Marked(s.store.invites) == IssuedIn(t.answers) - IssuedIn(s.answers)
    decreases |steps|
  {
    if steps != [] {
      NextMarks(s, base, limit, steps[0]);
      OneInvitePerCertificate(Next(s, base, limit, steps[0]), base, limit, steps[1..]);
    }
  }

  lemma NotEnrolled(entries: seq<Entry>, participant: nat)
    ensures Enrolled(entries, participant) <==> exists e :: e in entries && e.participant == participant
  {
    if Enrolled(entries, participant) {
      var i :| 0 <= i < |entries| && entries[i].participant == participant;
      assert entries[i] in entries;
    }
  }
}
