/** When updateSettings waits, takes a lock away, gets in, gives up and commits (apps/cli/src/persistence.ts). */
module SettingsLockLaws {
  import opened Options
  import opened SettingsLock

  /** Nothing changes but where the caller is. */
  ghost predicate OnlyGoes(s: State, t: State, p: nat, place: Place) {
    p in s.callers && t == s.(callers := s.callers[p := s.callers[p].(place := place)])
  }

  /**
   * After its wait a caller goes on to take the lock away exactly if the lock names a dead or an unknown owner, or
   * names none after a second, or is over ten seconds old.
   */
  lemma ReclaimsIff(jobs: Jobs, s: State, p: nat, ownerAlive: bool, ownerKnown: bool, ageMs: real)
    requires Enabled(s, Inspects(p, ownerAlive, ownerKnown, ageMs))
    ensures var t := Apply(jobs, s, Inspects(p, ownerAlive, ownerKnown, ageMs));
      var stale := s.lock.Some? && (
        || (s.lock.value.named && !ownerAlive)
        || (s.lock.value.named && !ownerKnown)
        || (!s.lock.value.named && ageMs > 1000.0)
        || ageMs > 10000.0);
      && (t.callers[p].place == Reclaiming <==> stale)
      && OnlyGoes(s, t, p, if stale then Reclaiming else if s.callers[p].attempts < 50 then Trying else GaveUp)
  {
  }

  /** What errors do: a caller whose open or naming fails throws; the lock file stays as it is. */
  lemma ErrorsThrow(jobs: Jobs, s: State, p: nat)
    requires p in s.callers
    ensures s.callers[p].place == Trying ==>
      var t := Apply(jobs, s, OpenFails(p));
      t == s.(callers := s.callers[p := s.callers[p].(place := GaveUp, opens := s.callers[p].opens + 1)])
    ensures s.callers[p].place == Naming ==> OnlyGoes(s, Apply(jobs, s, NamingFails(p)), p, GaveUp)
    ensures OnlyGoes(s, Apply(jobs, s, Crashes(p)), p, Crashed)
    ensures s.callers[p].place.Writing? ==>
      forall garbage :: OnlyGoes(s.(temporary := Some(garbage)), Apply(jobs, s, WriteFails(p, garbage)), p,
        Releasing(false))
  {
  }

  /** A missing directory costs a try, and the next one comes at once. */
  lemma MissingDirectoryCostsTry(jobs: Jobs, s: State, p: nat)
    requires Enabled(s, OpenLacksDirectory(p))
    ensures var k, n := s.callers[p], s.callers[p].attempts + 1;
      Apply(jobs, s, OpenLacksDirectory(p)) ==
        s.(callers := s.callers[p := Caller(if n < 50 then Trying else GaveUp, n, k.opens + 1, k.ticket)])
  {
  }

  /** Taking the lock away removes the file, whoever has created it by now. */
  lemma ReclaimRemoves(jobs: Jobs, s: State, p: nat)
    requires Enabled(s, Reclaims(p))
    ensures OnlyGoes(s.(lock := None), Apply(jobs, s, Reclaims(p)), p,
      if s.callers[p].attempts < 50 then Trying else GaveUp)
  {
  }

  /** A lock file that is gone, or somebody else's, is not named; a temporary file that is gone cannot be renamed. */
  lemma LostFiles(jobs: Jobs, s: State, p: nat)
    requires p in s.callers
    ensures s.callers[p].place == Naming && (s.lock.None? || s.lock.value.owner != p) ==>
      OnlyGoes(s, Apply(jobs, s, Names(p)), p, Reading)
    ensures s.callers[p].place.Renaming? && s.temporary.None? ==>
      OnlyGoes(s, Apply(jobs, s, Renames(p)), p, Releasing(false))
    ensures s.callers[p].place.Releasing? ==>
      OnlyGoes(s, Apply(jobs, s, Releases(p, false)), p, Finished(s.callers[p].place.updated))
  {
  }

  // ----- runs, event by event -----

  lemma First(jobs: Jobs, s: State, e: Event, rest: seq<Event>)
    requires Enabled(s, e) && Legal(jobs, Apply(jobs, s, e), rest)
    ensures Legal(jobs, s, [e] + rest) && Run(jobs, s, [e] + rest) == Run(jobs, Apply(jobs, s, e), rest)
  {
    assert ([e] + rest)[1..] == rest;
  }

  lemma {:induction false} RunsJoin(jobs: Jobs, s: State, a: seq<Event>, b: seq<Event>)
    requires Legal(jobs, s, a) && Legal(jobs, Run(jobs, s, a), b)
    ensures Legal(jobs, s, a + b) && Run(jobs, s, a + b) == Run(jobs, Run(jobs, s, a), b)
    decreases |a|
  {
    hide Apply, Enabled;
    if a == [] {
      assert a + b == b;
    } else {
      RunsJoin(jobs, Apply(jobs, s, a[0]), a[1..], b);
      assert (a + b)[0] == a[0] && (a + b)[1..] == a[1..] + b;
    }
  }

  // ----- renaming -----

  function FailedRenames(p: nat, n: nat): seq<Event> {
    if n == 0 then [] else FailedRenames(p, n - 1) + [RenameFails(p, true)]
  }

  /** A rename that fails for a transient reason is tried thirty times in all. */
  lemma {:induction false} RenamesThirtyTimes(jobs: Jobs, s: State, p: nat, n: nat)
    requires p in s.callers && s.callers[p].place == Renaming(0) && n <= 30
    ensures Legal(jobs, s, FailedRenames(p, n))
    ensures OnlyGoes(s, Run(jobs, s, FailedRenames(p, n)), p, if n < 30 then Renaming(n) else Releasing(false))
  {
    if n > 0 {
      RenamesThirtyTimes(jobs, s, p, n - 1);
      var t := Run(jobs, s, FailedRenames(p, n - 1));
      First(jobs, t, RenameFails(p, true), []);
      assert [RenameFails(p, true)] + [] == [RenameFails(p, true)];
      RunsJoin(jobs, s, FailedRenames(p, n - 1), [RenameFails(p, true)]);
    }
  }

  /** One that fails for another reason is not tried again. */
  lemma OtherErrorsEndRenaming(jobs: Jobs, s: State, p: nat)
    requires p in s.callers && s.callers[p].place.Renaming?
    ensures OnlyGoes(s, Apply(jobs, s, RenameFails(p, false)), p, Releasing(false))
  {
  }

  // ----- waiting for a lock that is held -----

  function HeldTries(p: nat, n: nat): seq<Event> {
    if n == 0 then [] else HeldTries(p, n - 1) + [Opens(p), Inspects(p, true, true, 0.0)]
  }

  /** A caller that finds the lock held by somebody alive tries fifty times, and then gives up. */
  lemma {:induction false} TriesFiftyTimes(jobs: Jobs, s: State, p: nat, n: nat)
    requires p in s.callers && s.callers[p] == Caller(Trying, 0, 0, None) && s.lock.Some? && n <= 50
    ensures Legal(jobs, s, HeldTries(p, n))
    ensures Run(jobs, s, HeldTries(p, n)) ==
      s.(callers := s.callers[p := Caller(if n < 50 then Trying else GaveUp, n, n, None)])
  {
    if n > 0 {
      TriesFiftyTimes(jobs, s, p, n - 1);
      var t := Run(jobs, s, HeldTries(p, n - 1));
      var u := Apply(jobs, t, Opens(p));
      var look := Inspects(p, true, true, 0.0);
      First(jobs, u, look, []);
      First(jobs, t, Opens(p), [look]);
      assert [look] + [] == [look] && [Opens(p)] + [look] == [Opens(p), look];
      RunsJoin(jobs, s, HeldTries(p, n - 1), [Opens(p), look]);
      assert Apply(jobs, u, look).callers == s.callers[p := Caller(if n < 50 then Trying else GaveUp, n, n, None)];
    }
  }

  // ----- getting in -----

  /** The caller that has created the lock does its work: names the lock, reads, updates, writes, renames, unlinks. */
  function Work(p: nat): seq<Event> {
    [Names(p), Reads(p), Updates(p), Writes(p), Renames(p), Releases(p, true)]
  }

  /** The caller has just created the lock, with the given ticket. */
  ghost predicate JustIn(s: State, p: nat, ticket: nat) {
    p in s.callers && s.callers[p].place == Naming && s.callers[p].ticket == Some(ticket)
    && s.lock == Some(Lock(p, false))
  }

  /** The caller has named the lock and read the settings. */
  ghost function WithRead(s: State, p: nat): State
    requires p in s.callers
  {
    s.(lock := Some(Lock(p, true)), callers := s.callers[p := s.callers[p].(place := Updating(s.settings))])
  }

  lemma NamesAndReads(jobs: Jobs, s: State, p: nat, ticket: nat)
    requires JustIn(s, p, ticket)
    ensures Legal(jobs, s, [Names(p), Reads(p)]) && Run(jobs, s, [Names(p), Reads(p)]) == WithRead(s, p)
  {
    var s1 := Apply(jobs, s, Names(p));
    var s2 := Apply(jobs, s1, Reads(p));
    assert s2.callers == s.callers[p := s.callers[p].(place := Updating(s.settings))];
    hide Apply;
    First(jobs, s1, Reads(p), []);
    First(jobs, s, Names(p), [Reads(p)]);
  }

  lemma WritesAndReleases(jobs: Jobs, s: State, p: nat)
    requires p in s.callers && s.callers[p].place == Updating(s.settings) && jobs(p, s.settings).Some?
    requires s.callers[p].ticket.Some?
    ensures var es := [Updates(p), Writes(p), Renames(p), Releases(p, true)];
      && Legal(jobs, s, es)
      && Run(jobs, s, es) ==
        s.(lock := None, settings := jobs(p, s.settings), temporary := None,
           committed := s.committed + [s.callers[p].ticket.value],
           callers := s.callers[p := s.callers[p].(place := Finished(true))])
  {
    var s1 := Apply(jobs, s, Updates(p));
    var s2 := Apply(jobs, s1, Writes(p));
    var s3 := Apply(jobs, s2, Renames(p));
    var s4 := Apply(jobs, s3, Releases(p, true));
    assert s1.callers == s.callers[p := s.callers[p].(place := Writing(jobs(p, s.settings).value))];
    assert s4.callers == s.callers[p := s.callers[p].(place := Finished(true))];
    hide Apply;
    First(jobs, s3, Releases(p, true), []);
    First(jobs, s2, Renames(p), [Releases(p, true)]);
    First(jobs, s1, Writes(p), [Renames(p), Releases(p, true)]);
    First(jobs, s, Updates(p), [Writes(p), Renames(p), Releases(p, true)]);
  }

  /**
   * Undisturbed work commits: the settings are what the job makes of them, the update is on record, the caller is
   * told of success, and the lock and the temporary file are gone.
   */
  lemma WorkCommits(jobs: Jobs, s: State, p: nat, ticket: nat)
    requires JustIn(s, p, ticket) && jobs(p, s.settings).Some?
    ensures Legal(jobs, s, Work(p))
    ensures Run(jobs, s, Work(p)) ==
      s.(lock := None, settings := jobs(p, s.settings), temporary := None, committed := s.committed + [ticket],
         callers := s.callers[p := s.callers[p].(place := Finished(true))])
  {
    var s2 := WithRead(s, p);
    NamesAndReads(jobs, s, p, ticket);
    assert Work(p) == [Names(p), Reads(p)] + [Updates(p), Writes(p), Renames(p), Releases(p, true)];
    assert s2.callers[p := s2.callers[p].(place := Finished(true))] ==
      s.callers[p := s.callers[p].(place := Finished(true))];
    hide Apply, Run, Legal, Work;
    WritesAndReleases(jobs, s2, p);
    RunsJoin(jobs, s, [Names(p), Reads(p)], [Updates(p), Writes(p), Renames(p), Releases(p, true)]);
  }

  lemma ThrowsAndReleases(jobs: Jobs, s: State, p: nat)
    requires p in s.callers && s.callers[p].place == Updating(s.settings) && jobs(p, s.settings).None?
    ensures Legal(jobs, s, [Updates(p), Releases(p, true)])
    ensures Run(jobs, s, [Updates(p), Releases(p, true)]) ==
      s.(lock := None, callers := s.callers[p := s.callers[p].(place := Finished(false))])
  {
    var s1 := Apply(jobs, s, Updates(p));
    var s2 := Apply(jobs, s1, Releases(p, true));
    assert s2.callers == s.callers[p := s.callers[p].(place := Finished(false))];
    hide Apply;
    First(jobs, s1, Releases(p, true), []);
    First(jobs, s, Updates(p), [Releases(p, true)]);
  }

  /** An updater that throws commits nothing; the lock is released and the caller told. */
  lemma ThrowingUpdaterReleases(jobs: Jobs, s: State, p: nat, ticket: nat)
    requires JustIn(s, p, ticket) && jobs(p, s.settings).None?
    ensures var es := [Names(p), Reads(p)] + [Updates(p), Releases(p, true)];
      && Legal(jobs, s, es)
      && Run(jobs, s, es) == s.(lock := None, callers := s.callers[p := s.callers[p].(place := Finished(false))])
  {
    var s2 := WithRead(s, p);
    NamesAndReads(jobs, s, p, ticket);
    assert s2.callers[p := s2.callers[p].(place := Finished(false))] ==
      s.callers[p := s.callers[p].(place := Finished(false))];
    hide Apply, Run, Legal;
    ThrowsAndReleases(jobs, s2, p);
    RunsJoin(jobs, s, [Names(p), Reads(p)], [Updates(p), Releases(p, true)]);
  }

  /** A caller that finds no lock file is in. */
  lemma FreeLockIsTaken(jobs: Jobs, s: State, p: nat)
    requires Enabled(s, Opens(p)) && s.lock.None?
    ensures var t := Apply(jobs, s, Opens(p));
      && JustIn(t, p, |s.acquired|) && t.acquired == s.acquired + [p]
      && t.settings == s.settings && t.temporary == s.temporary && t.committed == s.committed
      && t.callers == s.callers[p := t.callers[p]]
  {
  }

  /** A new call starts with no try used up. */
  lemma CallsStartFresh(jobs: Jobs, s: State, p: nat)
    requires p !in s.callers
    ensures Enabled(s, Calls(p))
    ensures Apply(jobs, s, Calls(p)) == s.(callers := s.callers[p := Caller(Trying, 0, 0, None)])
  {
  }

  /** Taking away the lock that an owner has left behind. */
  function Takeover(p: nat, ownerKnown: bool, ageMs: real): seq<Event> {
    [Inspects(p, false, ownerKnown, ageMs), Reclaims(p), Opens(p)]
  }

  lemma GetsInAtOnce(jobs: Jobs, s: State, p: nat, ownerKnown: bool, ageMs: real)
    requires s.lock.Some? && s.lock.value.named
    requires p in s.callers && s.callers[p].place == Waiting && s.callers[p].attempts < 50
    ensures Legal(jobs, s, Takeover(p, ownerKnown, ageMs))
    ensures Run(jobs, s, Takeover(p, ownerKnown, ageMs)) ==
      s.(lock := Some(Lock(p, false)), acquired := s.acquired + [p],
         callers := s.callers[p :=
           Caller(Naming, s.callers[p].attempts, s.callers[p].opens + 1, Some(|s.acquired|))])
  {
    var look := Inspects(p, false, ownerKnown, ageMs);
    var s1 := Apply(jobs, s, look);
    var s2 := Apply(jobs, s1, Reclaims(p));
    var s3 := Apply(jobs, s2, Opens(p));
    assert s2.callers == s.callers[p := s.callers[p].(place := Trying)];
    assert s3.callers == s.callers[p :=
      Caller(Naming, s.callers[p].attempts, s.callers[p].opens + 1, Some(|s.acquired|))];
    hide Apply;
    First(jobs, s2, Opens(p), []);
    First(jobs, s1, Reclaims(p), [Opens(p)]);
    First(jobs, s, look, [Reclaims(p), Opens(p)]);
  }

  /**
   * A crash does not block the settings: once the owner of a named lock is dead, a waiting caller that sees so and has
   * a try left gets in at once, whatever the age of the lock, and commits if nothing fails.
   */
  lemma DeadOwnerIsReplaced(jobs: Jobs, s: State, owner: nat, p: nat, ownerKnown: bool, ageMs: real)
    requires s.lock == Some(Lock(owner, true)) && owner in s.callers && s.callers[owner].place == Crashed
    requires p in s.callers && s.callers[p].place == Waiting && s.callers[p].attempts < 50
    requires jobs(p, s.settings).Some?
    ensures var es := Takeover(p, ownerKnown, ageMs) + Work(p);
      && Legal(jobs, s, es)
      && var t := Run(jobs, s, es);
        && t.settings == jobs(p, s.settings) && t.lock == None && t.temporary == None
        && t.acquired == s.acquired + [p] && t.committed == s.committed + [|s.acquired|]
        && t.callers.Keys == s.callers.Keys && t.callers[p].place == Finished(true)
        && forall q :: q in s.callers && q != p ==> t.callers[q] == s.callers[q]
  {
    var newcomer := Caller(Naming, s.callers[p].attempts, s.callers[p].opens + 1, Some(|s.acquired|));
    var s1 := s.(lock := Some(Lock(p, false)), acquired := s.acquired + [p], callers := s.callers[p := newcomer]);
    assert JustIn(s1, p, |s.acquired|);
    GetsInAtOnce(jobs, s, p, ownerKnown, ageMs);
    hide *;
    WorkCommits(jobs, s1, p, |s.acquired|);
    RunsJoin(jobs, s, Takeover(p, ownerKnown, ageMs), Work(p));
  }

  /** A caller gives up only after fifty tries, unless opening or naming the lock fails. */
  lemma GivesUpOnlyThen(jobs: Jobs, s: State, e: Event, p: nat)
    requires TriesBounded(s) && Enabled(s, e) && p in s.callers && s.callers[p].place != GaveUp
    requires Apply(jobs, s, e).callers[p].place == GaveUp
    ensures e == OpenFails(p) || e == NamingFails(p) || Apply(jobs, s, e).callers[p].opens == 50
  {
    assert TriesCounted(s.callers[p]);
  }
}
