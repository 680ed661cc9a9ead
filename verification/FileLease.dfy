/** FileServiceGroupLease and FileLeaderElection as they run: a lock directory is made, the record
    file is read and rewritten or unlinked, and the lock directory is removed again. */
module FileLease {
  import opened Basics
  import opened Failures
  import opened Records

  /** The files on disk that belong to one record; every process that shares them sees one object. */
  class RecordFile {
    var cell: Cell
    var tmp: Cell
    var lock: Option<Time>

    constructor ()
      ensures State() == EMPTY_FILE
    {
      cell, tmp, lock := Absent, Absent, None;
    }

    function State(): FileState
      reads this
    {
      FileState(cell, tmp, lock)
    }
  }

  /** `raises` tells the election from a lease: it does not swallow the error of a replace. Each operation is told
      which of its system calls fail. */
  class FileLease {
    const file: RecordFile
    const id: Identity
    const raises: bool

    constructor (file: RecordFile, id: Identity, raises: bool)
      ensures this.file == file && this.id == id && this.raises == raises
    {
      this.file, this.id, this.raises := file, id, raises;
    }

    method AcquireLock(now: Time, failing: set<Call>) returns (locking: Locking)
      modifies file`lock
      ensures (file.State(), locking) == TryLock(old(file.State()), id.ttl, now, failing)
    {
      if Mkdir in failing {
        return Refused;
      }
      if file.lock.None? {
        file.lock := Some(now);
        return Taken;
      }
      if Stat in failing || !Stale(file.lock.value, id.ttl, now) {
        return Refused;
      }
      if Rmdir !in failing {
        file.lock := None;
      }
      if Remake in failing {
        return LockRaised;
      }
      if file.lock.Some? {
        return Refused;
      }
      file.lock := Some(now);
      return Taken;
    }

    method ReleaseLock(failing: set<Call>)
      modifies file`lock
      ensures file.State() == Unlocked(old(file.State()), failing)
    {
      if Unlock !in failing {
        file.lock := None;
      }
    }

    method ReadRecordFile(failing: set<Call>) returns (read: Option<Record>)
      ensures read == ReadRecord(ReadFile(file.cell, failing), id.accepts)
    {
      if Read in failing {
        return None;
      }
      return ReadRecord(file.cell, id.accepts);
    }

    /** Exclusive create: refuses a file that exists, whatever is in it. */
    method WriteAtomic(rec: Record, failing: set<Call>) returns (creation: Creation)
      modifies file`cell
      ensures (file.State(), creation) == TryCreate(old(file.State()), rec, failing)
    {
      if Open in failing {
        return CreateRaised;
      }
      if !file.cell.Absent? {
        return NotCreated;
      }
      file.cell := Unreadable;
      if Write in failing {
        if Call.Unlink !in failing {
          file.cell := Absent;
        }
        return NotCreated;
      }
      file.cell := Written(rec);
      return Created;
    }

    method WriteReplace(rec: Record, failing: set<Call>) returns (raised: bool)
      modifies file`cell, file`tmp
      ensures (file.State(), raised) == TryReplace(old(file.State()), rec, raises, failing)
    {
      if Stage in failing {
        file.tmp := Unreadable;
        return raises;
      }
      file.tmp := Written(rec);
      if Replace in failing {
        return raises;
      }
      file.cell, file.tmp := file.tmp, Absent;
      return false;
    }

    method TryAcquire(tried: Time, now: Time, failing: set<Call>) returns (a: Answer)
      modifies file
      ensures (file.State(), a) == RunFailing(Acquire, id, raises, old(file.State()), tried, now, failing)
    {
      var locking := AcquireLock(tried, failing);
      if !locking.Taken? {
        return if locking.Refused? then BUSY else RAISED;
      }
      var read := ReadRecordFile(failing);
      var claim := Record(id.me, now, now + Lifetime(id.ttl));
      if read.Some? && !IsExpired(read.value, now) {
        if read.value.owner == id.me {
          a := Report(AlreadyOwner, read.value, now);
        } else {
          a := Report(NotOwner, read.value, now);
        }
        ReleaseLock(failing);
        return;
      }
      var creation := NotCreated;
      if read.None? {
        creation := WriteAtomic(claim, failing);
      }
      var raised := creation.CreateRaised?;
      if creation.NotCreated? {
        raised := WriteReplace(claim, failing);
      }
      a := if raised then RAISED else Report(Acquired, claim, now);
      ReleaseLock(failing);
    }

    method Renew(tried: Time, now: Time, failing: set<Call>) returns (a: Answer)
      modifies file
      ensures (file.State(), a) == RunFailing(Op.Renew, id, raises, old(file.State()), tried, now, failing)
    {
      var locking := AcquireLock(tried, failing);
      if !locking.Taken? {
        return if locking.Refused? then BUSY else RAISED;
      }
      var read := ReadRecordFile(failing);
      if read.None? || IsExpired(read.value, now) {
        a := Report(NoActive, if read.Some? then read.value else Record(NOBODY, 0.0, 0.0), now);
      } else if read.value.owner != id.me {
        a := Report(NotOwner, read.value, now);
      } else {
        var extended := read.value.(expiresAt := now + Lifetime(id.ttl));
        var raised := WriteReplace(extended, failing);
        a := if raised then RAISED else Report(Renewed, extended, now);
      }
      ReleaseLock(failing);
    }

    method Release(tried: Time, failing: set<Call>) returns (a: Answer)
      modifies file
      ensures forall now ::
                (file.State(), a) == RunFailing(Op.Release, id, raises, old(file.State()), tried, now, failing)
    {
      var locking := AcquireLock(tried, failing);
      if !locking.Taken? {
        return if locking.Refused? then BUSY else RAISED;
      }
      var read := ReadRecordFile(failing);
      if read.None? || read.value.owner != id.me {
        a := Answer(NotHeld, if read.Some? then read.value.owner else NOBODY, 0.0, 0.0, 0.0);
      } else if Call.Unlink in failing {
        a := Answer(ReleaseFailed, id.me, 0.0, 0.0, 0.0);
      } else {
        file.cell := Absent;
        a := Answer(Released, NOBODY, 0.0, 0.0, 0.0);
      }
      ReleaseLock(failing);
    }
  }
}
