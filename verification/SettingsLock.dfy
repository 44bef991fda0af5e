/**
 * updateSettings (apps/cli/src/persistence.ts): many processes, one lock file, one settings file.
 *
 * Every await is a scheduling point, so a step is one file operation of one caller; callers may also
 * crash at any point. A caller is one call of updateSettings. Its job is what the call does to the
 * settings file: read it, apply the updater, serialize the result; it yields nothing when the updater
 * throws. A missing file is None.
 */
module SettingsLock {
  import opened Options

  type File = Option<string>

  /** What each caller makes of the file it reads. */
  type Jobs = (nat, File) -> Option<string>

  const MAX_LOCK_ATTEMPTS: nat := 50
  const MAX_RENAME_ATTEMPTS: nat := 30
  const EMPTY_LOCK_GRACE_MS := 1000.0
  const STALE_LOCK_TIMEOUT_MS := 10000.0

  /** The lock file: who created it, and whether its process id has been written yet. */
  datatype Lock = Lock(owner: nat, named: bool)

  datatype Place =
    | Trying
    | Waiting
    | Reclaiming
    | Naming
    | Reading
    | Updating(seen: File)
    | Writing(next: string)
    | Renaming(failures: nat)
    | Releasing(updated: bool)
    | Finished(updated: bool)
    | GaveUp
    | Crashed

  /** `opens` counts the tries at creating the lock, `ticket` numbers the acquisition. */
  datatype Caller = Caller(place: Place, attempts: nat, opens: nat, ticket: Option<nat>)

  datatype State = State(
    lock: Option<Lock>,
    temporary: File,
    settings: File,
    callers: map<nat, Caller>,
    // history: who created the lock, in order, and the tickets whose rename took place
    acquired: seq<nat>,
    committed: seq<nat>)

  function Initial(settings: File, temporary: File): State {
    State(None, temporary, settings, map[], [], [])
  }

  /** When a waiting caller considers the lock stale, from what it observes. */
  predicate ConsideredStale(named: bool, ownerAlive: bool, ownerKnown: bool, ageMs: real) {
    || (named && (!ownerAlive || !ownerKnown))
    || (!named && ageMs > EMPTY_LOCK_GRACE_MS)
    || ageMs > STALE_LOCK_TIMEOUT_MS
  }

  datatype Event =
    | Calls(p: nat)
    | Opens(p: nat)
    | OpenLacksDirectory(p: nat)
    | OpenFails(p: nat)
    | Names(p: nat)
    | NamingFails(p: nat)
    | Inspects(p: nat, ownerAlive: bool, ownerKnown: bool, ageMs: real)
    | Reclaims(p: nat)
    | Reads(p: nat)
    | Updates(p: nat)
    | Writes(p: nat)
    | WriteFails(p: nat, garbage: string)
    | Renames(p: nat)
    | RenameFails(p: nat, transient: bool)
    | Releases(p: nat, unlinked: bool)
    | Crashes(p: nat)

  function At(s: State, p: nat, place: Place): State
    requires p in s.callers
  {
    s.(callers := s.callers[p := s.callers[p].(place := place)])
  }

  predicate Enabled(s: State, e: Event) {
    if e.Calls? then e.p !in s.callers
    else
      && e.p in s.callers
      && var place := s.callers[e.p].place;
        match e
        case Opens(_) => place == Trying
        case OpenLacksDirectory(_) => place == Trying
        case OpenFails(_) => place == Trying
        case Names(_) => place == Naming
        case NamingFails(_) => place == Naming
        case Inspects(_, _, _, _) => place == Waiting
        case Reclaims(_) => place == Reclaiming
        case Reads(_) => place == Reading
        case Updates(_) => place.Updating?
        case Writes(_) => place.Writing?
        case WriteFails(_, _) => place.Writing?
        case Renames(_) => place.Renaming?
        case RenameFails(_, _) => place.Renaming?
        case Releases(_, _) => place.Releasing?
        case _ => true
  }

  /** A failed try; the loop goes on while attempts are left. */
  function Missed(k: Caller, wait: bool): Caller {
    Caller(if wait then Waiting else Again(k.attempts + 1), k.attempts + 1, k.opens + 1, k.ticket)
  }

  function Again(attempts: nat): Place {
    if attempts < MAX_LOCK_ATTEMPTS then Trying else GaveUp
  }

  function Apply(jobs: Jobs, s: State, e: Event): State
    requires Enabled(s, e)
  {
    var p := e.p;
    if e.Calls? then s.(callers := s.callers[p := Caller(Trying, 0, 0, None)])
    else
      var k := s.callers[p];
      match e
      case Opens(_) =>
        if s.lock.Some? then s.(callers := s.callers[p := Missed(k, true)])
        else s.(lock := Some(Lock(p, false)), acquired := s.acquired + [p],
                callers := s.callers[p := Caller(Naming, k.attempts, k.opens + 1, Some(|s.acquired|))])
      case OpenLacksDirectory(_) => s.(callers := s.callers[p := Missed(k, false)])
      case OpenFails(_) => s.(callers := s.callers[p := k.(place := GaveUp, opens := k.opens + 1)])
      case Names(_) =>
        At(if s.lock.Some? && s.lock.value.owner == p then s.(lock := Some(Lock(p, true))) else s, p, Reading)
      case NamingFails(_) => At(s, p, GaveUp)
      case Inspects(_, alive, known, age) =>
        var stale := s.lock.Some? && ConsideredStale(s.lock.value.named, alive, known, age);
        At(s, p, if stale then Reclaiming else Again(k.attempts))
      case Reclaims(_) => At(s.(lock := None), p, Again(k.attempts))
      case Reads(_) => At(s, p, Updating(s.settings))
      case Updates(_) =>
        var next := jobs(p, k.place.seen);
        At(s, p, if next.Some? then Writing(next.value) else Releasing(false))
      case Writes(_) => At(s.(temporary := Some(k.place.next)), p, Renaming(0))
      case WriteFails(_, garbage) => At(s.(temporary := Some(garbage)), p, Releasing(false))
      case Renames(_) =>
        if s.temporary.None? then At(s, p, Releasing(false))
        else At(s.(settings := s.temporary, temporary := None,
                   committed := if k.ticket.Some? then s.committed + [k.ticket.value] else s.committed),
                p, Releasing(true))
      case RenameFails(_, transient) =>
        var again := transient && k.place.failures < MAX_RENAME_ATTEMPTS - 1;
        At(s, p, if again then Renaming(k.place.failures + 1) else Releasing(false))
      case Releases(_, unlinked) => At(if unlinked then s.(lock := None) else s, p, Finished(k.place.updated))
      case Crashes(_) => At(s, p, Crashed)
  }

  predicate Legal(jobs: Jobs, s: State, es: seq<Event>)
    decreases |es|
  {
    es == [] || (Enabled(s, es[0]) && Legal(jobs, Apply(jobs, s, es[0]), es[1..]))
  }

  function Run(jobs: Jobs, s: State, es: seq<Event>): State
    requires Legal(jobs, s, es)
    decreases |es|
  {
    if es == [] then s else Run(jobs, Apply(jobs, s, es[0]), es[1..])
  }

  predicate HeldFromInside(s: State) {
    s.lock.Some? && s.lock.value.owner in s.callers && Inside(s.callers[s.lock.value.owner].place)
  }

  /** No lock is reclaimed while its owner is still at work; the lock of a crashed owner may be. */
  predicate Undisturbed(s: State, e: Event) {
    e.Reclaims? ==> !HeldFromInside(s)
  }

  predicate UndisturbedRun(jobs: Jobs, s: State, es: seq<Event>)
    requires Legal(jobs, s, es)
    decreases |es|
  {
    es == [] || (Undisturbed(s, es[0]) && UndisturbedRun(jobs, Apply(jobs, s, es[0]), es[1..]))
  }

  predicate SomebodyInside(s: State) {
    exists p :: p in s.callers && Inside(s.callers[p].place)
  }

  /** A caller creates the lock, which is missing although somebody is at work. */
  predicate Intrudes(s: State, e: Event) {
    e.Opens? && s.lock.None? && SomebodyInside(s)
  }

  predicate UnintrudedRun(jobs: Jobs, s: State, es: seq<Event>)
    requires Legal(jobs, s, es)
    decreases |es|
  {
    es == [] || (!Intrudes(s, es[0]) && UnintrudedRun(jobs, Apply(jobs, s, es[0]), es[1..]))
  }

  /** Between the creation of the lock and its unlinking. */
  predicate Inside(place: Place) {
    place.Naming? || place.Reading? || place.Updating? || place.Writing? || place.Renaming? || place.Releasing?
  }

  /** Still after the lock. */
  predicate Outside(place: Place) {
    place == Trying || place == Waiting || place == Reclaiming
  }

  /** The file that the committed updates produce, each applied to what the one before left. */
  function Fold(jobs: Jobs, start: File, acquired: seq<nat>, committed: seq<nat>): File
    requires forall i :: 0 <= i < |committed| ==> committed[i] < |acquired|
  {
    if committed == [] then start
    else
      var last := committed[|committed| - 1];
      jobs(acquired[last], Fold(jobs, start, acquired, committed[..|committed| - 1]))
  }

  /** Whoever is inside holds the latest ticket, and tickets are given out in the order of acquisition. */
  ghost predicate Ticketed(s: State) {
    && (forall p :: p in s.callers && Inside(s.callers[p].place) ==> s.callers[p].ticket == Some(|s.acquired| - 1))
    && (forall p :: p in s.callers && s.callers[p].ticket.Some? ==>
          s.callers[p].ticket.value < |s.acquired| && s.acquired[s.callers[p].ticket.value] == p)
    && (forall p :: p in s.callers && Outside(s.callers[p].place) ==> s.callers[p].ticket == None)
  }

  /** Only the holder of the lock is inside. */
  ghost predicate Exclusive(s: State) {
    && Ticketed(s)
    && (forall p :: p in s.callers && Inside(s.callers[p].place) ==> s.lock.Some? && s.lock.value.owner == p)
    && (s.lock.Some? ==> s.acquired != [] && s.acquired[|s.acquired| - 1] == s.lock.value.owner)
  }

  /** What a caller inside has read, computed and written is current. */
  predicate Current(jobs: Jobs, s: State, p: nat)
    requires p in s.callers
  {
    match s.callers[p].place
    case Updating(seen) => seen == s.settings
    case Writing(next) => jobs(p, s.settings) == Some(next)
    case Renaming(_) => s.temporary.Some? && jobs(p, s.settings) == s.temporary
    case _ => true
  }

  ghost predicate UpToDate(jobs: Jobs, s: State) {
    forall p :: p in s.callers ==> Current(jobs, s, p)
  }

  /** Commits follow lock order, and a caller is told of success iff its update is among them. */
  ghost predicate CommitsOrdered(s: State) {
    && (forall i :: 0 <= i < |s.committed| ==> s.committed[i] < |s.acquired|)
    && (forall i, j :: 0 <= i < j < |s.committed| ==> s.committed[i] < s.committed[j])
    && (forall p :: p in s.callers && s.callers[p].ticket.Some? && s.callers[p].place != Crashed ==>
          (s.callers[p].ticket.value in s.committed <==>
           s.callers[p].place == Releasing(true) || s.callers[p].place == Finished(true)))
    && (forall p :: p in s.callers && s.callers[p].ticket.None? ==>
      !s.callers[p].place.Releasing? && !s.callers[p].place.Finished?)
  }

  predicate TriesCounted(k: Caller) {
    && k.opens <= MAX_LOCK_ATTEMPTS
    && (k.place == Trying ==> k.attempts < MAX_LOCK_ATTEMPTS)
    && (Outside(k.place) ==> k.opens == k.attempts)
  }

  ghost predicate TriesBounded(s: State) {
    forall p :: p in s.callers ==> TriesCounted(s.callers[p])
  }

  ghost predicate Inv(jobs: Jobs, start: File, s: State) {
    && Ticketed(s) && UpToDate(jobs, s) && CommitsOrdered(s) && TriesBounded(s)
    && s.settings == Fold(jobs, start, s.acquired, s.committed)
  }

  lemma {:induction false} FoldIgnoresLater(jobs: Jobs, start: File, acquired: seq<nat>, p: nat, committed: seq<nat>)
    requires forall i :: 0 <= i < |committed| ==> committed[i] < |acquired|
    ensures Fold(jobs, start, acquired + [p], committed) == Fold(jobs, start, acquired, committed)
  {
    if committed != [] {
      FoldIgnoresLater(jobs, start, acquired, p, committed[..|committed| - 1]);
    }
  }

  /** A step of one caller that neither creates the lock nor takes a ticket. */
  ghost predicate Moves(s: State, t: State, p: nat) {
    && p in s.callers && p in t.callers
    && t.acquired == s.acquired
    && t.callers == s.callers[p := t.callers[p]]
    && t.callers[p].ticket == s.callers[p].ticket
    && (Inside(t.callers[p].place) ==> Inside(s.callers[p].place))
    && (Outside(t.callers[p].place) ==> Outside(s.callers[p].place))
    && (t.lock.Some? ==> s.lock.Some? && t.lock.value.owner == s.lock.value.owner)
    && (t.lock.None? && s.lock.Some? ==> !HeldFromInside(t.(lock := s.lock)))
  }

  lemma MovesKeepExclusive(s: State, t: State, p: nat)
    requires Exclusive(s) && Moves(s, t, p)
    ensures Exclusive(t)
  {
  }

  lemma AcquireKeepsExclusive(jobs: Jobs, s: State, p: nat)
    requires Exclusive(s) && Enabled(s, Opens(p)) && s.lock.None?
    ensures Exclusive(Apply(jobs, s, Opens(p)))
  {
  }

  lemma CallKeepsExclusive(jobs: Jobs, s: State, p: nat)
    requires Exclusive(s) && Enabled(s, Calls(p))
    ensures Exclusive(Apply(jobs, s, Calls(p)))
  {
  }

  lemma HolderOwns(s: State, p: nat)
    requires Exclusive(s) && p in s.callers && Inside(s.callers[p].place)
    ensures HeldFromInside(s) && s.lock.value.owner == p
  {
  }

  /**
   * Exactly the reclaim of a lock whose owner is at work ends the protection of the lock: from then on somebody is
   * inside without holding it. The second caller comes in later, as SecondCallerEnters says.
   */
  lemma StepKeepsExclusive(jobs: Jobs, s: State, e: Event)
    requires Exclusive(s) && Enabled(s, e)
    ensures Exclusive(Apply(jobs, s, e)) <==> Undisturbed(s, e)
  {
    if Undisturbed(s, e) {
      UndisturbedKeepsExclusive(jobs, s, e);
    } else {
      assert Inside(Apply(jobs, s, e).callers[s.lock.value.owner].place);
    }
  }

  ghost predicate AtMostOneInside(s: State) {
    forall p, q | p in s.callers && q in s.callers ::
      Inside(s.callers[p].place) && Inside(s.callers[q].place) ==> p == q
  }

  /** Of any two callers inside, the second came in by creating a lock that was missing while the first was at work. */
  lemma SecondCallerEnters(jobs: Jobs, s: State, e: Event)
    requires AtMostOneInside(s) && Enabled(s, e)
    ensures AtMostOneInside(Apply(jobs, s, e)) <==> !Intrudes(s, e)
  {
    var t := Apply(jobs, s, e);
    if Intrudes(s, e) {
      var p :| p in s.callers && Inside(s.callers[p].place);
      assert Inside(t.callers[p].place) && Inside(t.callers[e.p].place) && p != e.p;
    } else {
      assert t.callers == s.callers[e.p := t.callers[e.p]];
      assert Inside(t.callers[e.p].place) ==> (e.Opens? && s.lock.None?) || Inside(s.callers[e.p].place);
    }
  }

  lemma IntruderTakesTicket(jobs: Jobs, s: State, e: Event)
    requires Ticketed(s) && Enabled(s, e) && Intrudes(s, e)
    ensures !Ticketed(Apply(jobs, s, e))
  {
    var t := Apply(jobs, s, e);
    var p :| p in s.callers && Inside(s.callers[p].place);
    assert Inside(t.callers[p].place) && t.callers[p].ticket == Some(|t.acquired| - 2);
  }

  lemma MoveKeepsTickets(s: State, t: State, p: nat)
    requires Ticketed(s) && p in s.callers && p in t.callers
    requires t.acquired == s.acquired && t.callers == s.callers[p := t.callers[p]]
    requires t.callers[p].ticket == s.callers[p].ticket
    requires Inside(t.callers[p].place) ==> Inside(s.callers[p].place)
    requires Outside(t.callers[p].place) ==> Outside(s.callers[p].place)
    ensures Ticketed(t)
  {
  }

  lemma NewTicketsKeep(jobs: Jobs, s: State, e: Event)
    requires Ticketed(s) && Enabled(s, e) && !Intrudes(s, e) && (e.Calls? || (e.Opens? && s.lock.None?))
    ensures Ticketed(Apply(jobs, s, e))
  {
  }

  /** The latest ticket stays with whoever is inside exactly as long as nobody intrudes. */
  lemma StepKeepsTickets(jobs: Jobs, s: State, e: Event)
    requires Ticketed(s) && Enabled(s, e)
    ensures Ticketed(Apply(jobs, s, e)) <==> !Intrudes(s, e)
  {
    hide Ticketed, Intrudes;
    if Intrudes(s, e) {
      IntruderTakesTicket(jobs, s, e);
    } else if e.Calls? || (e.Opens? && s.lock.None?) {
      NewTicketsKeep(jobs, s, e);
    } else {
      MoveKeepsTickets(s, Apply(jobs, s, e), e.p);
    }
  }

  /** While the holder of the lock is the one inside, a missing lock means that nobody is. */
  lemma NobodyIntrudes(s: State, e: Event)
    requires Exclusive(s)
    ensures !Intrudes(s, e)
  {
  }

  lemma {:induction false} UndisturbedRunKeeps(jobs: Jobs, s: State, es: seq<Event>)
    requires Exclusive(s) && Legal(jobs, s, es) && UndisturbedRun(jobs, s, es)
    ensures UnintrudedRun(jobs, s, es)
    decreases |es|
  {
    hide Exclusive, Apply, Enabled, Undisturbed, Intrudes;
    if es != [] {
      NobodyIntrudes(s, es[0]);
      UndisturbedKeepsExclusive(jobs, s, es[0]);
      UndisturbedRunKeeps(jobs, Apply(jobs, s, es[0]), es[1..]);
    }
  }

  /** Nobody ever intrudes as long as no lock is reclaimed from an owner at work. */
  lemma UndisturbedRunsAreUnintruded(jobs: Jobs, start: File, temporary: File, es: seq<Event>)
    requires Legal(jobs, Initial(start, temporary), es) && UndisturbedRun(jobs, Initial(start, temporary), es)
    ensures UnintrudedRun(jobs, Initial(start, temporary), es)
  {
    UndisturbedRunKeeps(jobs, Initial(start, temporary), es);
  }

  ghost predicate AlwaysExclusive(jobs: Jobs, s: State, es: seq<Event>)
    requires Legal(jobs, s, es)
    decreases |es|
  {
    AtMostOneInside(s) && (es == [] || AlwaysExclusive(jobs, Apply(jobs, s, es[0]), es[1..]))
  }

  /** Mutual exclusion holds in every state of a run exactly if nobody intrudes. */
  lemma {:induction false} ExclusiveIffUnintruded(jobs: Jobs, s: State, es: seq<Event>)
    requires AtMostOneInside(s) && Legal(jobs, s, es)
    ensures AlwaysExclusive(jobs, s, es) <==> UnintrudedRun(jobs, s, es)
    decreases |es|
  {
    hide AtMostOneInside, Apply, Enabled, Intrudes;
    if es != [] {
      SecondCallerEnters(jobs, s, es[0]);
      if !Intrudes(s, es[0]) {
        ExclusiveIffUnintruded(jobs, Apply(jobs, s, es[0]), es[1..]);
      }
    }
  }

  lemma UndisturbedKeepsExclusive(jobs: Jobs, s: State, e: Event)
    requires Exclusive(s) && Enabled(s, e) && Undisturbed(s, e)
    ensures Exclusive(Apply(jobs, s, e))
  {
    hide Exclusive;
    if e.Calls? {
      CallKeepsExclusive(jobs, s, e.p);
    } else if e.Opens? && s.lock.None? {
      AcquireKeepsExclusive(jobs, s, e.p);
    } else {
      if Inside(s.callers[e.p].place) {
        HolderOwns(s, e.p);
      }
      MovesKeepExclusive(s, Apply(jobs, s, e), e.p);
    }
  }

  lemma OneTicketInside(s: State, p: nat, q: nat)
    requires Ticketed(s) && p in s.callers && q in s.callers
    requires Inside(s.callers[p].place) && Inside(s.callers[q].place)
    ensures p == q
  {
  }

  lemma ActorStaysCurrent(jobs: Jobs, s: State, e: Event)
    requires Enabled(s, e) && (!e.Calls? ==> Current(jobs, s, e.p))
    ensures e.p in Apply(jobs, s, e).callers && Current(jobs, Apply(jobs, s, e), e.p)
  {
  }

  /** A caller that is not inside touches neither the settings nor the temporary file. */
  lemma OthersTouchNothing(jobs: Jobs, s: State, e: Event)
    requires Enabled(s, e)
    ensures var t := Apply(jobs, s, e);
      && e.p in t.callers && t.callers == s.callers[e.p := t.callers[e.p]]
      && ((e.p in s.callers && Inside(s.callers[e.p].place)) ||
          (t.settings == s.settings && t.temporary == s.temporary))
  {
  }

  lemma StepKeepsUpToDate(jobs: Jobs, s: State, e: Event)
    requires Ticketed(s) && UpToDate(jobs, s) && Enabled(s, e)
    ensures UpToDate(jobs, Apply(jobs, s, e))
  {
    var t := Apply(jobs, s, e);
    assert e.p in s.callers ==> Current(jobs, s, e.p);
    ActorStaysCurrent(jobs, s, e);
    OthersTouchNothing(jobs, s, e);
    hide Apply, Ticketed, Enabled;
    forall p | p in t.callers ensures Current(jobs, t, p) {
      if p != e.p {
        assert Current(jobs, s, p);
        if e.p in s.callers && Inside(s.callers[e.p].place) && Inside(s.callers[p].place) {
          OneTicketInside(s, p, e.p);
        }
      }
    }
  }

  predicate Succeeded(place: Place) {
    place == Releasing(true) || place == Finished(true)
  }

  /** A step of one caller that commits nothing, or commits its own ticket and says so. */
  ghost predicate CommitsOwn(s: State, t: State, p: nat) {
    && p in s.callers && p in t.callers
    && |t.acquired| >= |s.acquired|
    && t.callers == s.callers[p := t.callers[p]]
    && t.callers[p].ticket == s.callers[p].ticket
    && (t.callers[p].place.Releasing? || t.callers[p].place.Finished? ==> s.callers[p].ticket.Some?)
    && (if t.committed == s.committed then
          t.callers[p].place != Crashed ==>
            s.callers[p].place != Crashed && (Succeeded(t.callers[p].place) <==> Succeeded(s.callers[p].place))
        else
          && s.callers[p].ticket == Some(|s.acquired| - 1) && s.callers[p].ticket.value !in s.committed
          && t.committed == s.committed + [|s.acquired| - 1]
          && Succeeded(t.callers[p].place))
  }

  lemma CommitsOwnKeeps(s: State, t: State, p: nat)
    requires Ticketed(s) && CommitsOrdered(s) && CommitsOwn(s, t, p)
    ensures CommitsOrdered(t)
  {
    if t.committed != s.committed {
      forall i | 0 <= i < |s.committed| ensures s.committed[i] < |s.acquired| - 1 {
        assert s.committed[i] in s.committed;
      }
      forall q | q in s.callers && s.callers[q].ticket.Some? && q != p
        ensures s.callers[q].ticket.value != |s.acquired| - 1
      {}
    }
  }

  lemma NewCallersKeepCommits(jobs: Jobs, s: State, e: Event)
    requires CommitsOrdered(s) && Enabled(s, e) && (e.Calls? || (e.Opens? && s.lock.None?))
    ensures CommitsOrdered(Apply(jobs, s, e))
  {
  }

  lemma HolderFacts(s: State, p: nat)
    requires Ticketed(s) && CommitsOrdered(s) && p in s.callers && Inside(s.callers[p].place)
    ensures s.callers[p].ticket == Some(|s.acquired| - 1)
    ensures !Succeeded(s.callers[p].place) ==> s.callers[p].ticket.value !in s.committed
  {
  }

  lemma StepKeepsCommits(jobs: Jobs, s: State, e: Event)
    requires Ticketed(s) && CommitsOrdered(s) && Enabled(s, e)
    ensures CommitsOrdered(Apply(jobs, s, e))
  {
    hide Ticketed, CommitsOrdered;
    if e.Calls? || (e.Opens? && s.lock.None?) {
      NewCallersKeepCommits(jobs, s, e);
    } else {
      if Inside(s.callers[e.p].place) {
        HolderFacts(s, e.p);
      }
      CommitsOwnKeeps(s, Apply(jobs, s, e), e.p);
    }
  }

  lemma StepKeepsTries(jobs: Jobs, s: State, e: Event)
    requires TriesBounded(s) && Enabled(s, e)
    ensures TriesBounded(Apply(jobs, s, e))
  {
    var t := Apply(jobs, s, e);
    if !e.Calls? {
      assert TriesCounted(s.callers[e.p]);
    }
    CallerKeepsTries(jobs, s, e);
    hide TriesCounted, Apply;
  }

  lemma CallerKeepsTries(jobs: Jobs, s: State, e: Event)
    requires Enabled(s, e) && (!e.Calls? ==> TriesCounted(s.callers[e.p]))
    ensures var t := Apply(jobs, s, e);
      && e.p in t.callers && t.callers == s.callers[e.p := t.callers[e.p]]
      && TriesCounted(t.callers[e.p])
  {}

  lemma StepFolds(jobs: Jobs, start: File, s: State, e: Event)
    requires Inv(jobs, start, s) && Enabled(s, e)
    ensures Inv(jobs, start, Apply(jobs, s, e)) <==> !Intrudes(s, e)
  {
    hide Ticketed, UpToDate, CommitsOrdered, TriesBounded;
    StepKeepsTickets(jobs, s, e);
    StepKeepsUpToDate(jobs, s, e);
    StepKeepsCommits(jobs, s, e);
    StepKeepsTries(jobs, s, e);
    StepFoldsFile(jobs, start, s, e);
  }

  lemma StepFoldsFile(jobs: Jobs, start: File, s: State, e: Event)
    requires Inv(jobs, start, s) && Enabled(s, e) && CommitsOrdered(Apply(jobs, s, e))
    ensures var t := Apply(jobs, s, e); t.settings == Fold(jobs, start, t.acquired, t.committed)
  {
    hide Fold, Ticketed, UpToDate, TriesBounded;
    if e.Renames? && s.temporary.Some? {
      CommitFolds(jobs, start, s, e.p);
    } else {
      FoldIgnoresLater(jobs, start, s.acquired, e.p, s.committed);
      NothingCommitted(jobs, s, e);
    }
  }

  lemma NothingCommitted(jobs: Jobs, s: State, e: Event)
    requires Enabled(s, e) && !(e.Renames? && s.temporary.Some?)
    ensures var t := Apply(jobs, s, e);
      && t.settings == s.settings && t.committed == s.committed
      && (t.acquired == s.acquired || t.acquired == s.acquired + [e.p])
  {}

  lemma CommitFolds(jobs: Jobs, start: File, s: State, p: nat)
    requires Inv(jobs, start, s) && Enabled(s, Renames(p)) && s.temporary.Some?
    requires CommitsOrdered(Apply(jobs, s, Renames(p)))
    ensures var t := Apply(jobs, s, Renames(p)); t.settings == Fold(jobs, start, t.acquired, t.committed)
  {
    var last := |s.acquired| - 1;
    HolderFacts(s, p);
    assert jobs(p, s.settings) == s.temporary && s.acquired[last] == p;
    hide Ticketed, UpToDate, TriesBounded, Inv, CommitsOrdered;
    assert (s.committed + [last])[..|s.committed|] == s.committed;
  }

  lemma {:induction false} RunKeeps(jobs: Jobs, start: File, s: State, es: seq<Event>)
    requires Inv(jobs, start, s) && Legal(jobs, s, es) && UnintrudedRun(jobs, s, es)
    ensures Inv(jobs, start, Run(jobs, s, es))
    decreases |es|
  {
    hide Inv, Apply, Intrudes;
    if es != [] {
      StepFolds(jobs, start, s, es[0]);
      RunKeeps(jobs, start, Apply(jobs, s, es[0]), es[1..]);
    }
  }

  /**
   * No lost update while mutual exclusion holds: in a run in which nobody comes in beside a caller at work, at most
   * one caller is inside, the settings file is the fold of the committed updates in lock order, a caller is told of
   * success exactly if its update is among them, and nobody tries the lock more than fifty times.
   */
  lemma NoLostUpdate(jobs: Jobs, start: File, temporary: File, es: seq<Event>)
    requires Legal(jobs, Initial(start, temporary), es) && UnintrudedRun(jobs, Initial(start, temporary), es)
    ensures var s := Run(jobs, Initial(start, temporary), es);
      && AtMostOneInside(s)
      && (forall i :: 0 <= i < |s.committed| ==> s.committed[i] < |s.acquired|)
      && (forall i, j :: 0 <= i < j < |s.committed| ==> s.committed[i] < s.committed[j])
      && s.settings == Fold(jobs, start, s.acquired, s.committed)
      && (forall p :: p in s.callers && s.callers[p].place.Finished? ==>
            && s.callers[p].ticket.Some? && s.callers[p].ticket.value < |s.acquired|
            && s.acquired[s.callers[p].ticket.value] == p
            && (s.callers[p].place.updated <==> s.callers[p].ticket.value in s.committed))
      && (forall p :: p in s.callers ==> s.callers[p].opens <= 50)
  {
    RunKeeps(jobs, start, Initial(start, temporary), es);
  }

  lemma {:induction false} RunExtends(jobs: Jobs, s: State, es: seq<Event>, e: Event)
    requires Legal(jobs, s, es) && Enabled(Run(jobs, s, es), e)
    ensures Legal(jobs, s, es + [e]) && Run(jobs, s, es + [e]) == Apply(jobs, Run(jobs, s, es), e)
    decreases |es|
  {
    hide Apply, Enabled;
    if es == [] {
      assert es + [e] == [e] && [e][1..] == [];
    } else {
      RunExtends(jobs, Apply(jobs, s, es[0]), es[1..], e);
      assert (es + [e])[0] == es[0] && (es + [e])[1..] == es[1..] + [e];
    }
  }

  lemma Play(jobs: Jobs, start: File, es: seq<Event>, e: Event) returns (longer: seq<Event>)
    requires Legal(jobs, Initial(start, None), es) && Enabled(Run(jobs, Initial(start, None), es), e)
    ensures longer == es + [e] && Legal(jobs, Initial(start, None), longer)
    ensures Run(jobs, Initial(start, None), longer) == Apply(jobs, Run(jobs, Initial(start, None), es), e)
  {
    RunExtends(jobs, Initial(start, None), es, e);
    longer := es + [e];
  }

  /** Caller 0 is slow; caller 1 finds the lock over ten seconds old. */
  lemma SlowHolder(jobs: Jobs, start: File) returns (es: seq<Event>)
    ensures Legal(jobs, Initial(start, None), es)
    ensures Run(jobs, Initial(start, None), es) ==
      State(Some(Lock(0, true)), None, start,
            map[0 := Caller(Updating(start), 0, 1, Some(0)), 1 := Caller(Waiting, 1, 1, None)], [0], [])
  {
    es := [];
    es := Play(jobs, start, es, Calls(0));
    es := Play(jobs, start, es, Opens(0));
    es := Play(jobs, start, es, Names(0));
    es := Play(jobs, start, es, Reads(0));
    es := Play(jobs, start, es, Calls(1));
    es := Play(jobs, start, es, Opens(1));
  }

  lemma BothInside(jobs: Jobs, start: File) returns (es: seq<Event>)
    ensures Legal(jobs, Initial(start, None), es)
    ensures Run(jobs, Initial(start, None), es) ==
      State(Some(Lock(1, false)), None, start,
            map[0 := Caller(Updating(start), 0, 1, Some(0)), 1 := Caller(Naming, 1, 2, Some(1))], [0, 1], [])
  {
    es := SlowHolder(jobs, start);
    es := Play(jobs, start, es, Inspects(1, true, true, 10001.0));
    es := Play(jobs, start, es, Reclaims(1));
    es := Play(jobs, start, es, Opens(1));
  }

  /**
   * The condition matters: once a live holder's lock is found stale, two callers are inside, both are
   * told of success, and the file keeps nothing of what caller 1 did.
   */
  lemma StaleLockLosesUpdate(jobs: Jobs, start: File) returns (es: seq<Event>)
    requires jobs(0, start).Some? && jobs(1, start).Some?
    ensures Legal(jobs, Initial(start, None), es)
    ensures var s := Run(jobs, Initial(start, None), es);
      && {0, 1} <= s.callers.Keys
      && Succeeded(s.callers[0].place) && Succeeded(s.callers[1].place)
      && Inside(s.callers[0].place) && Inside(s.callers[1].place)
      && s.settings == jobs(0, start)
  {
    es := BothInside(jobs, start);
    es := Play(jobs, start, es, Names(1));
    es := Play(jobs, start, es, Reads(1));
    es := Play(jobs, start, es, Updates(1));
    es := Play(jobs, start, es, Writes(1));
    es := Play(jobs, start, es, Renames(1));
    es := Play(jobs, start, es, Updates(0));
    es := Play(jobs, start, es, Writes(0));
    es := Play(jobs, start, es, Renames(0));
  }
}
