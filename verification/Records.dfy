/** The JSON record with a TTL, and what one locked operation decides to do with it.
    Service-group leases and the leader election share this: the leader adds an id
    validator to reading, a lease accepts every id. */
module Records {
  import opened Basics

  /** An owner id of a lease or the leader id of an election; results that name nobody carry the empty one. */
  datatype Owner = Owner(name: string)

  const NOBODY := Owner("")

  datatype Record = Record(owner: Owner, acquiredAt: Time, expiresAt: Time)

  /** A record file: missing, there but not parseable as a record, or holding one. */
  datatype Cell = Absent | Unreadable | Written(rec: Record)

  /** One record file, its temporary twin and the mtime of its lock directory. */
  datatype FileState = FileState(cell: Cell, tmp: Cell, lock: Option<Time>)

  const EMPTY_FILE := FileState(Absent, Absent, None)

  /** Who runs the operation, with which TTL, and which ids it accepts in a record. */
  datatype Identity = Identity(me: Owner, ttl: int, accepts: Owner -> bool)

  datatype Op = Acquire | Renew | Release

  /** How an operation ends; `Raised` stands for an exception that reaches the caller. */
  datatype Kind =
    | Busy | Acquired | AlreadyOwner | NotOwner | NoActive | Renewed | NotHeld | Released | ReleaseFailed | Raised

  datatype Answer = Answer(kind: Kind, owner: Owner, acquiredAt: Time, expiresAt: Time, remaining: Time) {
    /** The `is_owner` (lease) or `is_leader` (leader) of an acquire or a renewal. */
    predicate Owned() {
      kind.Acquired? || kind.AlreadyOwner? || kind.Renewed?
    }
  }

  const BUSY := Answer(Busy, NOBODY, 0.0, 0.0, 0.0)

  const RAISED := Answer(Raised, NOBODY, 0.0, 0.0, 0.0)

  /** What a decision does to the record file; a Store first tries an exclusive create if asked to. */
  datatype Effect = Keep | Store(rec: Record, exclusive: bool) | Unlink

  function ReadRecord(cell: Cell, accepts: Owner -> bool): Option<Record> {
    if cell.Written? && accepts(cell.rec.owner) then Some(cell.rec) else None
  }

  predicate IsExpired(rec: Record, now: Time) {
    rec.expiresAt <= now
  }

  predicate Live(cell: Cell, accepts: Owner -> bool, now: Time) {
    var r := ReadRecord(cell, accepts);
    r.Some? && !IsExpired(r.value, now)
  }

  function Remaining(rec: Record, now: Time): Time {
    if rec.expiresAt - now < 0.0 then 0.0 else rec.expiresAt - now
  }

  function Report(kind: Kind, rec: Record, now: Time): Answer {
    Answer(kind, rec.owner, rec.acquiredAt, rec.expiresAt, Remaining(rec, now))
  }

  function Lifetime(ttl: int): Time {
    ttl as real
  }

  function Decide(op: Op, id: Identity, cell: Cell, now: Time): (Effect, Answer) {
    var read := ReadRecord(cell, id.accepts);
    var rec := if read.Some? then read.value else Record(NOBODY, 0.0, 0.0);
    match op
    case Acquire =>
      var claim := Record(id.me, now, now + Lifetime(id.ttl));
      if read.Some? && !IsExpired(rec, now) then
        (Keep, Report(if rec.owner == id.me then AlreadyOwner else NotOwner, rec, now))
      else
        (Store(claim, read.None?), Report(Acquired, claim, now))
    case Renew =>
      if read.None? || IsExpired(rec, now) then
        (Keep, Report(NoActive, rec, now))
      else if rec.owner != id.me then
        (Keep, Report(NotOwner, rec, now))
      else
        var extended := rec.(expiresAt := now + Lifetime(id.ttl));
        (Store(extended, false), Report(Renewed, extended, now))
    case Release =>
      if read.None? || rec.owner != id.me then
        (Keep, Answer(NotHeld, rec.owner, 0.0, 0.0, 0.0))
      else
        (Unlink, Answer(Released, NOBODY, 0.0, 0.0, 0.0))
  }

  /** A lock directory may be taken when it is missing or older than twice the TTL. */
  predicate Stale(mtime: Time, ttl: int, now: Time) {
    now - mtime > Lifetime(ttl) * 2.0
  }

  predicate LockOpen(lock: Option<Time>, ttl: int, now: Time) {
    lock.None? || Stale(lock.value, ttl, now)
  }

  /** The file after an effect, once the lock directory is gone again. A write that does not
      use the exclusive create goes through the temporary file, which the replace consumes. */
  function Settle(f: FileState, effect: Effect): FileState {
    match effect
    case Keep => f.(lock := None)
    case Unlink => f.(cell := Absent, lock := None)
    case Store(rec, exclusive) =>
      if exclusive && f.cell.Absent? then f.(cell := Written(rec), lock := None)
      else FileState(Written(rec), Absent, None)
  }

  /** A whole operation nobody interferes with: the lock is tried at `tried`, the record judged at `now`. */
  function RunOp(op: Op, id: Identity, f: FileState, tried: Time, now: Time): (FileState, Answer) {
    if LockOpen(f.lock, id.ttl, tried) then
      var (effect, answer) := Decide(op, id, f.cell, now);
      (Settle(f, effect), answer)
    else
      (f, BUSY)
  }

  /** What `status` reports: it reads without the lock. */
  function Status(id: Identity, cell: Cell, now: Time): (bool, Option<Record>) {
    var read := ReadRecord(cell, id.accepts);
    if read.None? || IsExpired(read.value, now) then (false, None)
    else (read.value.owner == id.me, read)
  }

  // ---- what an uninterrupted operation promises -------------------------------------------

  /** An acquire wins exactly when the lock can be had and no other id's record is live, and then
      `status` reads the caller back as owner with the expiry that was returned. */
  lemma AcquireExactly(id: Identity, f: FileState, tried: Time, now: Time)
    requires id.accepts(id.me) && id.ttl >= 1
    ensures var (f', a) := RunOp(Acquire, id, f, tried, now);
            && (a.Owned() <==>
                  && LockOpen(f.lock, id.ttl, tried)
                  && (Live(f.cell, id.accepts, now) ==> f.cell.rec.owner == id.me))
            && (a.Owned() ==>
                  && f'.lock == None
                  && Status(id, f'.cell, now) == (true, Some(Record(id.me, a.acquiredAt, a.expiresAt)))
                  && a.remaining == a.expiresAt - now > 0.0)
            && (!a.Owned() ==> f'.cell == f.cell)
  {
  }

  /** An answer shows a record: its owner and its times, with some of its time left. */
  ghost predicate Shows(a: Answer, cell: Cell, now: Time) {
    && cell.Written?
    && a.owner == cell.rec.owner && a.acquiredAt == cell.rec.acquiredAt && a.expiresAt == cell.rec.expiresAt
    && a.remaining == cell.rec.expiresAt - now > 0.0
  }

  /** An answer names nobody and no times. */
  ghost predicate Blank(a: Answer) {
    a.owner.name == "" && a.acquiredAt == a.expiresAt == a.remaining == 0.0
  }

  /** The lock directory is there and not older than twice the TTL. */
  ghost predicate Locked(id: Identity, f: FileState, tried: Time) {
    f.lock.Some? && tried - f.lock.value <= 2.0 * (id.ttl as real)
  }

  /** The file has a record with an id that is accepted. */
  ghost predicate Readable(id: Identity, f: FileState) {
    f.cell.Written? && id.accepts(f.cell.rec.owner)
  }

  /** What an acquire answers. Whoever loses is shown the live record of the other, whoever wins a record of its own:
      the one that was live, or a new one with a full TTL. */
  lemma AcquireAnswers(id: Identity, f: FileState, tried: Time, now: Time)
    requires id.ttl >= 1
    ensures var (f', a) := RunOp(Acquire, id, f, tried, now);
            var live := Readable(id, f) && now < f.cell.rec.expiresAt;
            && (a.kind == Busy <==> Locked(id, f, tried))
            && (Locked(id, f, tried) ==> Blank(a) && f' == f)
            && (!Locked(id, f, tried) ==> Shows(a, f'.cell, now))
            && (a.kind == NotOwner <==> !Locked(id, f, tried) && live && f.cell.rec.owner != id.me)
            && (a.kind == AlreadyOwner <==> !Locked(id, f, tried) && live && f.cell.rec.owner == id.me)
            && (a.kind == Acquired <==> !Locked(id, f, tried) && !live)
            && (a.kind == NotOwner ==> Shows(a, f.cell, now) && a.owner != id.me)
            && (a.kind == AlreadyOwner ==> Shows(a, f.cell, now))
            && (a.kind == Acquired ==> a.acquiredAt == now && a.expiresAt == now + id.ttl as real)
            && (a.Owned() ==> a.owner == id.me)
  {
  }

  /** What a renewal answers: a live record of another is shown, one that has run out is reported with no time left,
      and where there is none nobody is named. */
  lemma RenewAnswers(id: Identity, f: FileState, tried: Time, now: Time)
    requires id.ttl >= 1
    ensures var (f', a) := RunOp(Renew, id, f, tried, now);
            var live := Readable(id, f) && now < f.cell.rec.expiresAt;
            && (a.kind == Busy <==> Locked(id, f, tried))
            && (Locked(id, f, tried) ==> Blank(a) && f' == f)
            && (a.kind == NoActive <==> !Locked(id, f, tried) && !live)
            && (a.kind == NotOwner <==> !Locked(id, f, tried) && live && f.cell.rec.owner != id.me)
            && (a.kind == NotOwner ==> Shows(a, f.cell, now) && a.owner != id.me)
            && (a.kind == NoActive && Readable(id, f) ==>
                  && a.owner == f.cell.rec.owner && a.acquiredAt == f.cell.rec.acquiredAt
                  && a.expiresAt == f.cell.rec.expiresAt <= now && a.remaining == 0.0)
            && (a.kind == NoActive && !Readable(id, f) ==> a.owner.name == "" && a.acquiredAt == a.expiresAt == 0.0)
            && (a.Owned() <==> !Locked(id, f, tried) && live && f.cell.rec.owner == id.me)
            && (a.Owned() ==> Shows(a, f'.cell, now) && a.owner == id.me && a.remaining == id.ttl as real)
  {
  }

  /** What a release answers: it names the owner of a record that is not the caller's, and nobody otherwise. */
  lemma ReleaseAnswers(id: Identity, f: FileState, tried: Time, now: Time)
    ensures var (f', a) := RunOp(Release, id, f, tried, now);
            && (a.kind == Busy <==> Locked(id, f, tried))
            && (Locked(id, f, tried) ==> f' == f)
            && (a.kind == NotHeld <==> !Locked(id, f, tried) && (Readable(id, f) ==> f.cell.rec.owner != id.me))
            && (a.kind == NotHeld && Readable(id, f) ==> a.owner == f.cell.rec.owner != id.me)
            && (!(a.kind == NotHeld && Readable(id, f)) ==> Blank(a))
            && (a.kind == Busy || a.kind == NotHeld || a.kind == Released)
  {
  }

  /** What `status` reports: the live record there is, whoever's it is, and ownership exactly of one's own. */
  lemma StatusExactly(id: Identity, cell: Cell, now: Time)
    ensures var live := cell.Written? && id.accepts(cell.rec.owner) && now < cell.rec.expiresAt;
            var (owned, shown) := Status(id, cell, now);
            && (owned <==> live && cell.rec.owner == id.me)
            && (shown.Some? <==> live)
            && (live ==> shown.value == cell.rec)
            && (Live(cell, id.accepts, now) <==> live)
  {
  }

  /** A renewal succeeds exactly on the caller's own live record, and then moves nothing but its expiry. */
  lemma RenewExactly(id: Identity, f: FileState, tried: Time, now: Time)
    ensures var (f', a) := RunOp(Renew, id, f, tried, now);
            && (a.kind == Renewed <==>
                  LockOpen(f.lock, id.ttl, tried) && Live(f.cell, id.accepts, now) && f.cell.rec.owner == id.me)
            && (a.kind == Renewed ==>
                  && f'.cell == Written(Record(id.me, f.cell.rec.acquiredAt, now + Lifetime(id.ttl)))
                  && a.acquiredAt == f.cell.rec.acquiredAt && a.expiresAt == now + Lifetime(id.ttl))
            && (a.kind != Renewed ==> f'.cell == f.cell && !a.Owned())
            && f'.lock == (if LockOpen(f.lock, id.ttl, tried) then None else f.lock)
  {
  }

  /** A release succeeds exactly on the caller's own record, expired or not, and removes nobody else's. */
  lemma ReleaseExactly(id: Identity, f: FileState, tried: Time, now: Time)
    ensures var (f', a) := RunOp(Release, id, f, tried, now);
            && (a.kind == Released <==>
                  && LockOpen(f.lock, id.ttl, tried)
                  && ReadRecord(f.cell, id.accepts).Some? && f.cell.rec.owner == id.me)
            && f'.cell == (if a.kind == Released then Absent else f.cell)
            && f'.lock == (if LockOpen(f.lock, id.ttl, tried) then None else f.lock)
  {
  }

  /** A live record of one's own is neither rewritten nor extended by acquiring again. */
  lemma ReacquireKeepsExpiry(id: Identity, f: FileState, tried: Time, now: Time)
    requires Live(f.cell, id.accepts, now) && f.cell.rec.owner == id.me
    requires LockOpen(f.lock, id.ttl, tried)
    ensures var (f', a) := RunOp(Acquire, id, f, tried, now);
            f'.cell == f.cell && a.kind == AlreadyOwner && a.expiresAt == f.cell.rec.expiresAt
  {
  }

  /** Acquiring, renewing before expiry and releasing in turn leaves no record, keeps the acquisition
      time throughout, and gives the last renewal's expiry. */
  lemma AcquireRenewRelease(id: Identity, f: FileState, t0: Time, t1: Time, t2: Time)
    requires id.accepts(id.me) && id.ttl >= 1
    requires f.lock == None && !Live(f.cell, id.accepts, t0)
    requires t0 <= t1 < t0 + Lifetime(id.ttl)
    ensures var (f1, a1) := RunOp(Acquire, id, f, t0, t0);
            var (f2, a2) := RunOp(Renew, id, f1, t1, t1);
            var (f3, a3) := RunOp(Release, id, f2, t2, t2);
            && a1.kind == Acquired && a2.kind == Renewed && a3.kind == Released
            && f2.cell == Written(Record(id.me, t0, t1 + Lifetime(id.ttl)))
            && f3.cell == Absent && f3.lock == None
  {
  }

  /** The leader part of a tick: acquire, and renew when already leader; a renewal that fails leaves the
      acquire's answer standing. */
  function LeaderTurn(id: Identity, f: FileState, at: seq<Time>): (FileState, Answer)
    requires |at| == 4
  {
    var (f1, a1) := RunOp(Acquire, id, f, at[0], at[1]);
    if a1.kind.AlreadyOwner? then
      var (f2, a2) := RunOp(Renew, id, f1, at[2], at[3]);
      (f2, if a2.kind.Renewed? then a2 else a1)
    else (f1, a1)
  }

  /** The leader an undisturbed turn reports is the owner of the live record if there is one, and the caller otherwise;
      whoever is not leader is shown the other's record. */
  lemma LeaderTurnAnswers(id: Identity, f: FileState, at: seq<Time>)
    requires |at| == 4 && id.accepts(id.me) && id.ttl >= 1
    ensures var (f', a) := LeaderTurn(id, f, at);
            var live := Readable(id, f) && at[1] < f.cell.rec.expiresAt;
            && (Locked(id, f, at[0]) ==> !a.Owned() && Blank(a) && f' == f)
            && (!Locked(id, f, at[0]) ==> a.owner == if live then f.cell.rec.owner else id.me)
            && (!Locked(id, f, at[0]) ==> (a.Owned() <==> a.owner == id.me))
            && (!Locked(id, f, at[0]) && !a.Owned() ==> Shows(a, f.cell, at[1]) && f'.cell == f.cell)
  {
  }

  /** An undisturbed turn makes the caller leader exactly when nobody else's record is live, reports the expiry
      that the file now has, and that expiry is a full TTL after the clock reading of the acquire that won or of the
      renewal, and the old one only when the record ran out between the two operations. */
  lemma LeaderTurnExtends(id: Identity, f: FileState, at: seq<Time>)
    requires |at| == 4 && at[0] <= at[1] <= at[2] <= at[3]
    requires id.accepts(id.me) && id.ttl >= 1 && LockOpen(f.lock, id.ttl, at[0])
    ensures var (f', a) := LeaderTurn(id, f, at);
            && (a.Owned() <==> (Live(f.cell, id.accepts, at[1]) ==> f.cell.rec.owner == id.me))
            && (a.Owned() ==> f'.lock == None && f'.cell == Written(Record(id.me, a.acquiredAt, a.expiresAt)))
            && (a.Owned() ==>
                  a.expiresAt == if !Live(f.cell, id.accepts, at[1]) then at[1] + Lifetime(id.ttl)
                                 else if Live(f.cell, id.accepts, at[3]) then at[3] + Lifetime(id.ttl)
                                 else f.cell.rec.expiresAt)
            && (a.Owned() ==>
                  a.acquiredAt == if Live(f.cell, id.accepts, at[1]) then f.cell.rec.acquiredAt else at[1])
  {
  }
}
