/** A lease or election operation some of whose system calls fail. */
module Failures {
  import opened Basics
  import opened Records

  /** The system calls of one operation. `Remake` is the second mkdir, after a stale lock has been removed;
      `Stage` writes the temporary file; `Unlock` is the rmdir at the end. */
  datatype Call = Mkdir | Stat | Rmdir | Remake | Read | Open | Write | Stage | Replace | Unlink | Unlock

  datatype Locking = Taken | Refused | LockRaised

  datatype Creation = Created | NotCreated | CreateRaised

  /** mkdir; on a directory that is there, the staleness test, rmdir and one more mkdir. An error of the second
      mkdir other than "exists" is not caught. */
  function TryLock(f: FileState, ttl: int, now: Time, failing: set<Call>): (FileState, Locking) {
    if Mkdir in failing then (f, Refused)
    else if f.lock.None? then (f.(lock := Some(now)), Taken)
    else if Stat in failing || !Stale(f.lock.value, ttl, now) then (f, Refused)
    else if Rmdir in failing then (f, if Remake in failing then LockRaised else Refused)
    else if Remake in failing then (f.(lock := None), LockRaised)
    else (f.(lock := Some(now)), Taken)
  }

  function Unlocked(f: FileState, failing: set<Call>): FileState {
    if Unlock in failing then f else f.(lock := None)
  }

  /** A record that cannot be read counts as none. */
  function ReadFile(cell: Cell, failing: set<Call>): Cell {
    if Read in failing && cell.Written? then Unreadable else cell
  }

  /** Exclusive create: an error of the open other than "exists" is not caught, a failed write removes the file. */
  function TryCreate(f: FileState, rec: Record, failing: set<Call>): (FileState, Creation) {
    if Open in failing then (f, CreateRaised)
    else if !f.cell.Absent? then (f, NotCreated)
    else if Write in failing then (f.(cell := if Call.Unlink in failing then Unreadable else Absent), NotCreated)
    else (f.(cell := Written(rec)), Created)
  }

  /** Replace by way of the temporary file: a lease swallows an error, the election lets it out. */
  function TryReplace(f: FileState, rec: Record, raises: bool, failing: set<Call>): (FileState, bool) {
    if Stage in failing then (f.(tmp := Unreadable), raises)
    else if Replace in failing then (f.(tmp := Written(rec)), raises)
    else (f.(cell := Written(rec), tmp := Absent), false)
  }

  function Carry(f: FileState, effect: Effect, id: Identity, a: Answer, raises: bool, failing: set<Call>)
    : (FileState, Answer)
  {
    match effect
    case Keep => (f, a)
    case Unlink =>
      if Call.Unlink in failing then (f, Answer(ReleaseFailed, id.me, 0.0, 0.0, 0.0)) else (f.(cell := Absent), a)
    case Store(rec, exclusive) =>
      var (made, creation) := if exclusive then TryCreate(f, rec, failing) else (f, NotCreated);
      if creation.CreateRaised? then (made, RAISED)
      else if creation.Created? then (made, a)
      else
        var (stored, raised) := TryReplace(made, rec, raises, failing);
        (stored, if raised then RAISED else a)
  }

  /** A whole operation nobody interferes with, in which the calls in `failing` fail. */
  function RunFailing(op: Op, id: Identity, raises: bool, f: FileState, tried: Time, now: Time, failing: set<Call>)
    : (FileState, Answer)
  {
    var (locked, locking) := TryLock(f, id.ttl, tried, failing);
    match locking
    case Refused => (locked, BUSY)
    case LockRaised => (locked, RAISED)
    case Taken =>
      var (effect, answer) := Decide(op, id, ReadFile(locked.cell, failing), now);
      var (done, result) := Carry(locked, effect, id, answer, raises, failing);
      (Unlocked(done, failing), result)
  }

  /** The leader part of a tick: acquire, and renew when already leader. An exception of either reaches the caller;
      a renewal that otherwise fails leaves the acquire's answer standing. */
  function LeaderTurnFailing(id: Identity, f: FileState, at: seq<Time>, acquiring: set<Call>, renewing: set<Call>)
    : (FileState, Answer)
    requires |at| == 4
  {
    var (f1, a1) := RunFailing(Acquire, id, true, f, at[0], at[1], acquiring);
    if a1.kind.AlreadyOwner? then
      var (f2, a2) := RunFailing(Renew, id, true, f1, at[2], at[3], renewing);
      (f2, if a2.kind.Renewed? || a2.kind.Raised? then a2 else a1)
    else (f1, a1)
  }

  /** When nothing fails these are the plain operations. */
  lemma NothingFails(op: Op, id: Identity, raises: bool, f: FileState, tried: Time, now: Time)
    ensures RunFailing(op, id, raises, f, tried, now, {}) == RunOp(op, id, f, tried, now)
  {
  }

  lemma LeaderTurnSucceeds(id: Identity, f: FileState, at: seq<Time>)
    requires |at| == 4
    ensures LeaderTurnFailing(id, f, at, {}, {}) == LeaderTurn(id, f, at)
  {
    NothingFails(Acquire, id, true, f, at[0], at[1]);
    NothingFails(Renew, id, true, RunOp(Acquire, id, f, at[0], at[1]).0, at[2], at[3]);
  }

  /** The lock can be taken, and none of the calls that take it fails. */
  ghost predicate Locks(id: Identity, f: FileState, tried: Time, failing: set<Call>) {
    && Mkdir !in failing
    && (f.lock.Some? ==>
          && {Stat, Rmdir, Remake} !! failing
          && tried - f.lock.value > 2.0 * (id.ttl as real))
  }

  /** There is a stale lock and the mkdir that follows its removal raises. */
  ghost predicate LockRaises(id: Identity, f: FileState, tried: Time, failing: set<Call>) {
    f.lock.Some? && {Mkdir, Stat} !! failing && Remake in failing && tried - f.lock.value > 2.0 * (id.ttl as real)
  }

  /** Whatever fails, an answer says nothing untrue of the record: who is shown as its owner is, a release that found
      nothing to release was right unless it could not read, and a release fails exactly when the unlink does. */
  lemma AnswersAreTrue(op: Op, id: Identity, raises: bool, f: FileState, tried: Time, now: Time, failing: set<Call>)
    ensures var (f', a) := RunFailing(op, id, raises, f, tried, now, failing);
            var own := Readable(id, f) && Read !in failing && f.cell.rec.owner == id.me;
            && (a.kind == NotOwner || a.kind == AlreadyOwner ==>
                  && Shows(a, f.cell, now) && f'.cell == f.cell
                  && (a.kind == AlreadyOwner <==> a.owner == id.me))
            && (a.kind == NotHeld ==> !own && f'.cell == f.cell)
            && (a.kind == ReleaseFailed <==>
                  op == Op.Release && Locks(id, f, tried, failing) && own && Call.Unlink in failing)
            && (a.kind == ReleaseFailed ==>
                  a.owner == id.me && a.acquiredAt == a.expiresAt == a.remaining == 0.0 && f'.cell == f.cell)
            && (a.kind == Busy || a.kind == Raised ==> Blank(a))
            && (a.kind == Busy <==> !Locks(id, f, tried, failing) && !LockRaises(id, f, tried, failing))
            && (a.kind == Busy ==> f' == f)
            && (a.Owned() ==> a.owner == id.me)
  {
  }

  /** The calls whose exception reaches the caller: the second mkdir, and, where there is something to write, the open
      of the exclusive create and, in the election, the replace. */
  lemma RaisesExactly(op: Op, id: Identity, raises: bool, f: FileState, tried: Time, now: Time, failing: set<Call>)
    ensures var a := RunFailing(op, id, raises, f, tried, now, failing).1;
            var read := Readable(id, f) && Read !in failing;
            var live := read && now < f.cell.rec.expiresAt;
            var replaceFails := raises && (Stage in failing || Replace in failing);
            && (a.kind == Raised <==>
                  || LockRaises(id, f, tried, failing)
                  || (&& Locks(id, f, tried, failing)
                      && match op
                         case Acquire =>
                           && !live
                           && (|| (!read && Open in failing)
                               || (replaceFails && (read || !f.cell.Absent? || Write in failing)))
                         case Renew => live && f.cell.rec.owner == id.me && replaceFails
                         case Release => false))
  {
  }

  /** The failures that can make an answer untrue or cost somebody a live record. */
  ghost predicate Harmful(raises: bool, failing: set<Call>) {
    Read in failing || (!raises && (Stage in failing || Replace in failing))
  }

  /** The file bears an answer out: what is owned is in the record with that expiry, what is released is gone. */
  ghost predicate BornOut(id: Identity, f: FileState, a: Answer) {
    && (a.Owned() ==> f.cell.Written? && f.cell.rec.owner == id.me && f.cell.rec.expiresAt == a.expiresAt)
    && (a.kind.Released? ==> f.cell == Absent)
  }

  /** Whatever the operation and the file, with these failures the answer is borne out and nobody else's live
      record is touched. */
  ghost predicate Faithful(id: Identity, raises: bool, failing: set<Call>) {
    forall op, f, tried, now :: FaithfulRun(op, id, raises, f, tried, now, failing)
  }

  ghost predicate FaithfulRun(op: Op, id: Identity, raises: bool, f: FileState, tried: Time, now: Time,
                              failing: set<Call>)
  {
    var (f', a) := RunFailing(op, id, raises, f, tried, now, failing);
    && BornOut(id, f', a)
    && (Live(f.cell, id.accepts, now) && f.cell.rec.owner != id.me ==> f'.cell == f.cell)
  }

  lemma OtherFailuresAreHarmless(op: Op, id: Identity, raises: bool, f: FileState, tried: Time, now: Time,
                                 failing: set<Call>)
    requires !Harmful(raises, failing)
    ensures FaithfulRun(op, id, raises, f, tried, now, failing)
  {
  }

  /** A single failing call does harm exactly when it is the read, or, for a lease, one of the two that make the
      replace. */
  lemma HarmfulExactly(id: Identity, raises: bool, call: Call, other: Owner)
    requires other != id.me && id.accepts(other)
    ensures Faithful(id, raises, {call}) <==> !Harmful(raises, {call})
  {
    if !Harmful(raises, {call}) {
      forall op, f, tried, now ensures FaithfulRun(op, id, raises, f, tried, now, {call}) {
        OtherFailuresAreHarmless(op, id, raises, f, tried, now, {call});
      }
    } else if call == Read {
      var f := FileState(Written(Record(other, 0.0, 2.0)), Absent, None);
      assert !FaithfulRun(Acquire, id, raises, f, 1.0, 1.0, {call});
    } else {
      assert !FaithfulRun(Acquire, id, raises, FileState(Unreadable, Absent, None), 0.0, 0.0, {call});
    }
  }
}
