/**
 * The settings directory and the callers of updateSettings as they change it (apps/cli/src/persistence.ts): one
 * method for each piece of code between two awaits. Each does exactly what SettingsLock says.
 */
module SettingsHome {
  import opened Options
  import L = SettingsLock

  class Home {
    const jobs: L.Jobs
    const start: L.File
    var lock: Option<L.Lock>
    var temporary: L.File
    var settings: L.File
    var callers: map<nat, L.Caller>
    // history: who created the lock, in order, and the tickets whose rename took place
    var acquired: seq<nat>
    var committed: seq<nat>

    ghost function Snapshot(): L.State
      reads this
    {
      L.State(lock, temporary, settings, callers, acquired, committed)
    }

    ghost predicate Valid()
      reads this
    {
      L.Inv(jobs, start, Snapshot())
    }

    constructor (jobs: L.Jobs, settings: L.File, temporary: L.File)
      ensures Valid() && Snapshot() == L.Initial(settings, temporary) && this.jobs == jobs && start == settings
    {
      this.jobs, this.start, this.settings, this.temporary := jobs, settings, settings, temporary;
      lock, callers, acquired, committed := None, map[], [], [];
    }

    method Move(p: nat, place: L.Place)
      requires p in callers
      modifies this`callers
      ensures Snapshot() == L.At(old(Snapshot()), p, place)
    {
      callers := callers[p := callers[p].(place := place)];
    }

    /** Creates the lock file unless it exists; then waits, with one attempt used up. */
    method TryLock(p: nat)
      requires L.Enabled(Snapshot(), L.Opens(p))
      modifies this
      ensures Snapshot() == L.Apply(jobs, old(Snapshot()), L.Opens(p))
    {
      var caller := callers[p];
      if lock.Some? {
        callers := callers[p := L.Caller(L.Waiting, caller.attempts + 1, caller.opens + 1, caller.ticket)];
      } else {
        lock := Some(L.Lock(p, false));
        callers := callers[p := L.Caller(L.Naming, caller.attempts, caller.opens + 1, Some(|acquired|))];
        acquired := acquired + [p];
      }
    }

    /** After the wait: what the contents and the age of the lock file make of it. */
    method Inspect(p: nat, ownerAlive: bool, ownerKnown: bool, ageMs: real)
      requires L.Enabled(Snapshot(), L.Inspects(p, ownerAlive, ownerKnown, ageMs))
      modifies this`callers
      ensures Snapshot() == L.Apply(jobs, old(Snapshot()), L.Inspects(p, ownerAlive, ownerKnown, ageMs))
    {
      if lock.Some? {
        if lock.value.named && !ownerAlive {
          Move(p, L.Reclaiming);
          return;
        }
        if lock.value.named && !ownerKnown {
          Move(p, L.Reclaiming);
          return;
        }
        if !lock.value.named && ageMs > L.EMPTY_LOCK_GRACE_MS {
          Move(p, L.Reclaiming);
          return;
        }
        if ageMs > L.STALE_LOCK_TIMEOUT_MS {
          Move(p, L.Reclaiming);
          return;
        }
      }
      Move(p, L.Again(callers[p].attempts));
    }

    /** A new call of updateSettings. */
    method Call(p: nat)
      requires L.Enabled(Snapshot(), L.Calls(p))
      modifies this`callers
      ensures Snapshot() == L.Apply(jobs, old(Snapshot()), L.Calls(p))
    {
      callers := callers[p := L.Caller(L.Trying, 0, 0, None)];
    }

    /** The directory was missing: it is created, an attempt is used up, and the loop goes on at once. */
    method RetryOpen(p: nat)
      requires L.Enabled(Snapshot(), L.OpenLacksDirectory(p))
      modifies this`callers
      ensures Snapshot() == L.Apply(jobs, old(Snapshot()), L.OpenLacksDirectory(p))
    {
      var attempts := callers[p].attempts + 1;
      callers := callers[p := L.Caller(L.Again(attempts), attempts, callers[p].opens + 1, callers[p].ticket)];
    }

    /** Any other error of open is thrown. */
    method FailOpen(p: nat)
      requires L.Enabled(Snapshot(), L.OpenFails(p))
      modifies this`callers
      ensures Snapshot() == L.Apply(jobs, old(Snapshot()), L.OpenFails(p))
    {
      callers := callers[p := callers[p].(place := L.GaveUp, opens := callers[p].opens + 1)];
    }

    /** Writes the process id through the open handle; a lock file unlinked meanwhile stays unlinked. */
    method NameLock(p: nat)
      requires L.Enabled(Snapshot(), L.Names(p))
      modifies this`lock, this`callers
      ensures Snapshot() == L.Apply(jobs, old(Snapshot()), L.Names(p))
    {
      if lock.Some? && lock.value.owner == p {
        lock := Some(L.Lock(p, true));
      }
      Move(p, L.Reading);
    }

    /** Unlinks a lock considered stale, whoever holds it by now. */
    method Reclaim(p: nat)
      requires L.Enabled(Snapshot(), L.Reclaims(p))
      modifies this`lock, this`callers
      ensures Snapshot() == L.Apply(jobs, old(Snapshot()), L.Reclaims(p))
    {
      lock := None;
      Move(p, L.Again(callers[p].attempts));
    }

    /** Applies the updater to what was read; if it throws, the lock is released. */
    method Update(p: nat)
      requires L.Enabled(Snapshot(), L.Updates(p))
      modifies this`callers
      ensures Snapshot() == L.Apply(jobs, old(Snapshot()), L.Updates(p))
    {
      var next := jobs(p, callers[p].place.seen);
      if next.Some? {
        Move(p, L.Writing(next.value));
      } else {
        Move(p, L.Releasing(false));
      }
    }

    method WriteTemporary(p: nat)
      requires L.Enabled(Snapshot(), L.Writes(p))
      modifies this`temporary, this`callers
      ensures Snapshot() == L.Apply(jobs, old(Snapshot()), L.Writes(p))
    {
      temporary := Some(callers[p].place.next);
      Move(p, L.Renaming(0));
    }

    /** The rename puts in place whatever the temporary file holds by now. */
    method Rename(p: nat)
      requires L.Enabled(Snapshot(), L.Renames(p))
      modifies this
      ensures Snapshot() == L.Apply(jobs, old(Snapshot()), L.Renames(p))
    {
      if temporary.None? {
        Move(p, L.Releasing(false));
      } else {
        settings, temporary := temporary, None;
        if callers[p].ticket.Some? {
          committed := committed + [callers[p].ticket.value];
        }
        Move(p, L.Releasing(true));
      }
    }

    /** A failed rename is tried again up to thirty times if the error is a transient one. */
    method FailRename(p: nat, transient: bool)
      requires L.Enabled(Snapshot(), L.RenameFails(p, transient))
      modifies this`callers
      ensures Snapshot() == L.Apply(jobs, old(Snapshot()), L.RenameFails(p, transient))
    {
      var attempt := callers[p].place.failures;
      if !transient || attempt >= L.MAX_RENAME_ATTEMPTS - 1 {
        Move(p, L.Releasing(false));
      } else {
        Move(p, L.Renaming(attempt + 1));
      }
    }

    /** Unlinks the lock file, whoever holds it by now; the unlinking may fail silently. */
    method Release(p: nat, unlinked: bool)
      requires L.Enabled(Snapshot(), L.Releases(p, unlinked))
      modifies this`lock, this`callers
      ensures Snapshot() == L.Apply(jobs, old(Snapshot()), L.Releases(p, unlinked))
    {
      if unlinked {
        lock := None;
      }
      Move(p, L.Finished(callers[p].place.updated));
    }

    /** Any enabled event, handled. The settings stay the fold of the committed updates unless a caller intrudes. */
    method Handle(e: L.Event)
      requires Valid() && L.Enabled(Snapshot(), e)
      modifies this
      ensures Valid() <==> !L.Intrudes(old(Snapshot()), e)
      ensures Snapshot() == L.Apply(jobs, old(Snapshot()), e)
    {
      hide L.Inv;
      L.StepFolds(jobs, start, Snapshot(), e);
      match e {
        case Calls(p) => Call(p);
        case Opens(p) => TryLock(p);
        case OpenLacksDirectory(p) => RetryOpen(p);
        case OpenFails(p) => FailOpen(p);
        case Names(p) => NameLock(p);
        case NamingFails(p) => Move(p, L.GaveUp);
        case Inspects(p, ownerAlive, ownerKnown, ageMs) => Inspect(p, ownerAlive, ownerKnown, ageMs);
        case Reclaims(p) => Reclaim(p);
        case Reads(p) => Move(p, L.Updating(settings));
        case Updates(p) => Update(p);
        case Writes(p) => WriteTemporary(p);
        case WriteFails(p, garbage) =>
          temporary := Some(garbage);
          Move(p, L.Releasing(false));
        case Renames(p) => Rename(p);
        case RenameFails(p, transient) => FailRename(p, transient);
        case Releases(p, unlinked) => Release(p, unlinked);
        case Crashes(p) => Move(p, L.Crashed);
      }
    }
  }
}
