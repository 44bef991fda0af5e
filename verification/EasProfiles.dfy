/**
 * Which build profiles of eas.json can affect the current build: those whose effective APP_ENV is the
 * active one, with everything they extend (canonicalizeEasJson in apps/ui/fingerprint.config.js).
 */
module EasProfiles {

  /**
   * A profile as far as the selection reads it: its trimmed, lower-cased APP_ENV and the trimmed `extends`, ""
   * where missing.
   */
  datatype Profile = NotAnObject | Profile(env: string, parent: string)

  type Profiles = map<string, Profile>

  const BASE := "base"

  /** The profile that `name` extends, if it names one; "" otherwise. */
  function Next(b: Profiles, name: string): string {
    if name != "" && name in b && b[name].Profile? && b[name].parent in b then b[name].parent else ""
  }

  function Env(b: Profiles, name: string): string {
    if name != "" && name in b && b[name].Profile? then b[name].env else ""
  }

  /** The recursive lookup, which remembers the profiles it has seen. */
  function Resolve(b: Profiles, name: string, seen: set<string>): string
    decreases b.Keys - seen
  {
    if name == "" || name in seen then ""
    else if name !in b || b[name].NotAnObject? then ""
    else if b[name].env != "" then b[name].env
    else if b[name].parent != "" && b[name].parent in b then Resolve(b, b[name].parent, seen + {name})
    else ""
  }

  // ----- what the lookup finds -----

  function Ancestor(b: Profiles, name: string, k: nat): string
    decreases k
  {
    if k == 0 then name else Ancestor(b, Next(b, name), k - 1)
  }

  /** The `k`-th ancestor is the nearest one that sets APP_ENV. */
  ghost predicate Nearest(b: Profiles, name: string, k: nat) {
    Env(b, Ancestor(b, name, k)) != "" && forall j :: 0 <= j < k ==> Env(b, Ancestor(b, name, j)) == ""
  }

  ghost predicate ResolvesTo(b: Profiles, name: string, env: string) {
    exists k: nat :: Nearest(b, name, k) && Env(b, Ancestor(b, name, k)) == env
  }

  lemma {:induction false} AncestorsCompose(b: Profiles, name: string, j: nat, k: nat)
    ensures Ancestor(b, Ancestor(b, name, j), k) == Ancestor(b, name, j + k)
    decreases j
  {
    if j > 0 {
      AncestorsCompose(b, Next(b, name), j - 1, k);
    }
  }

  lemma NearestBelow(b: Profiles, name: string, k: nat)
    requires k > 0
    ensures Nearest(b, name, k) <==> Env(b, name) == "" && Nearest(b, Next(b, name), k - 1)
  {
    assert Ancestor(b, name, 0) == name;
    forall j | 0 <= j < k ensures Ancestor(b, name, j + 1) == Ancestor(b, Next(b, name), j) {}
    if Nearest(b, name, k) {
      forall j | 0 <= j < k - 1 ensures Env(b, Ancestor(b, Next(b, name), j)) == "" {
        assert Env(b, Ancestor(b, name, j + 1)) == "";
      }
    }
    if Env(b, name) == "" && Nearest(b, Next(b, name), k - 1) {
      forall j | 0 <= j < k ensures Env(b, Ancestor(b, name, j)) == "" {
        assert j > 0 ==> Ancestor(b, name, j) == Ancestor(b, Next(b, name), j - 1);
      }
    }
  }

  lemma {:induction false} ResolveFindsNearest(b: Profiles, name: string, seen: set<string>) returns (k: nat)
    requires Resolve(b, name, seen) != ""
    ensures Nearest(b, name, k) && Env(b, Ancestor(b, name, k)) == Resolve(b, name, seen)
    decreases b.Keys - seen
  {
    if b[name].env != "" {
      k := 0;
    } else {
      k := ResolveFindsNearest(b, Next(b, name), seen + {name});
      k := k + 1;
      NearestBelow(b, name, k);
    }
  }

  /** On the way to the nearest APP_ENV no profile comes up twice, so the `seen` set never stops the search. */
  lemma NoReturn(b: Profiles, name: string, j: nat, k: nat)
    requires Nearest(b, name, k) && 0 < j <= k
    ensures Ancestor(b, name, j) != name
  {
    AncestorsCompose(b, name, j, k - j);
    assert Env(b, Ancestor(b, name, k - j)) == "";
  }

  lemma {:induction false} NearestIsResolved(b: Profiles, name: string, seen: set<string>, k: nat)
    requires Nearest(b, name, k)
    requires forall j :: 0 <= j <= k ==> Ancestor(b, name, j) !in seen
    ensures Resolve(b, name, seen) == Env(b, Ancestor(b, name, k))
    decreases k
  {
    assert Ancestor(b, name, 0) == name;
    if k > 0 {
      NearestBelow(b, name, k);
      NextIsThere(b, name, k);
      forall j | 0 <= j <= k - 1 ensures Ancestor(b, Next(b, name), j) !in seen + {name} {
        assert Ancestor(b, Next(b, name), j) == Ancestor(b, name, j + 1);
        NoReturn(b, name, j + 1, k);
      }
      NearestIsResolved(b, Next(b, name), seen + {name}, k - 1);
    }
  }

  lemma {:induction false} NothingIsEmpty(b: Profiles, k: nat)
    ensures Ancestor(b, "", k) == ""
  {
    if k > 0 {
      NothingIsEmpty(b, k - 1);
    }
  }

  lemma NextIsThere(b: Profiles, name: string, k: nat)
    requires Nearest(b, name, k) && k > 0
    ensures Next(b, name) != ""
  {
    NothingIsEmpty(b, k - 1);
  }

  /** The lookup ends on every `extends` graph, cyclic or not, and finds exactly the nearest APP_ENV. */
  lemma ResolveIsNearest(b: Profiles, name: string, env: string)
    ensures Resolve(b, name, {}) == env && env != "" <==> ResolvesTo(b, name, env)
  {
    if Resolve(b, name, {}) == env && env != "" {
      var k := ResolveFindsNearest(b, name, {});
    }
    if ResolvesTo(b, name, env) {
      var k: nat :| Nearest(b, name, k) && Env(b, Ancestor(b, name, k)) == env;
      NearestIsResolved(b, name, {}, k);
    }
  }

  // ----- the kept profiles -----

  ghost predicate Root(b: Profiles, appEnv: string, name: string) {
    name in b && (name == BASE || ResolvesTo(b, name, appEnv))
  }

  ghost predicate KeptVia(b: Profiles, appEnv: string, name: string, root: string, k: nat) {
    Root(b, appEnv, root) && Ancestor(b, root, k) == name != ""
  }

  /** The roots and all their ancestors. */
  ghost function Kept(b: Profiles, appEnv: string): set<string> {
    set name | name in b && exists root, k: nat :: KeptVia(b, appEnv, name, root, k)
  }

  ghost predicate HoldsRoots(b: Profiles, appEnv: string, names: set<string>) {
    forall name :: Root(b, appEnv, name) ==> name in names
  }

  ghost predicate Closed(b: Profiles, names: set<string>) {
    forall name :: name in names && Next(b, name) != "" ==> Next(b, name) in names
  }

  lemma RootIsNamed(b: Profiles, appEnv: string, name: string)
    requires Root(b, appEnv, name)
    ensures name != ""
  {
    if name != BASE {
      var k: nat :| Nearest(b, name, k);
      NothingIsEmpty(b, k);
    }
  }

  lemma {:induction false} ClosedHoldsAncestors(b: Profiles, names: set<string>, name: string, k: nat)
    requires Closed(b, names) && name in names && Ancestor(b, name, k) != ""
    ensures Ancestor(b, name, k) in names
    decreases k
  {
    if k > 0 {
      if Next(b, name) == "" {
        NothingIsEmpty(b, k - 1);
      }
      ClosedHoldsAncestors(b, names, Next(b, name), k - 1);
    }
  }

  lemma KeptIsClosed(b: Profiles, appEnv: string)
    ensures HoldsRoots(b, appEnv, Kept(b, appEnv)) && Closed(b, Kept(b, appEnv))
  {
    forall name | Root(b, appEnv, name) ensures name in Kept(b, appEnv) {
      RootIsNamed(b, appEnv, name);
      assert KeptVia(b, appEnv, name, name, 0);
    }
    forall name | name in Kept(b, appEnv) && Next(b, name) != "" ensures Next(b, name) in Kept(b, appEnv) {
      var root, k: nat :| KeptVia(b, appEnv, name, root, k);
      AncestorsCompose(b, root, k, 1);
      assert Ancestor(b, name, 1) == Ancestor(b, Next(b, name), 0);
      assert KeptVia(b, appEnv, Next(b, name), root, k + 1);
    }
  }

  /**
   * The least set with `base`, if there, and every profile resolving to the active APP_ENV that is closed under
   * `extends`.
   */
  lemma KeptIsLeast(b: Profiles, appEnv: string, names: set<string>)
    requires HoldsRoots(b, appEnv, names) && Closed(b, names)
    ensures Kept(b, appEnv) <= names
  {
    forall name | name in Kept(b, appEnv) ensures name in names {
      var root, k: nat :| KeptVia(b, appEnv, name, root, k);
      ClosedHoldsAncestors(b, names, root, k);
    }
  }

  // ----- the two loops -----

  method MatchingProfiles(names: seq<string>, b: Profiles, appEnv: string) returns (keep: set<string>)
    requires forall name :: name in names <==> name in b
    ensures forall name :: name in keep <==> Root(b, appEnv, name)
  {
    hide Resolve, ResolvesTo;
    keep := if BASE in b then {BASE} else {};
    for i := 0 to |names|
      invariant forall name :: name in keep <==>
        name in b && (name == BASE || (name in names[..i] && ResolvesTo(b, name, appEnv)))
    {
      var name := names[i];
      assert names[..i + 1] == names[..i] + [name] && name in names;
      ResolveIsNearest(b, name, appEnv);
      NoEnvNoMatch(b, name, appEnv);
      if b[name].Profile? {
        var effective := Resolve(b, name, {});
        if effective != "" && effective == appEnv {
          keep := keep + {name};
        }
      }
    }
    assert names[..|names|] == names;
  }

  lemma NoEnvNoMatch(b: Profiles, name: string, env: string)
    ensures name in b && b[name].NotAnObject? ==> !ResolvesTo(b, name, env)
  {
    ResolveIsNearest(b, name, env);
  }

  /** One round over a snapshot of the set, in any order. */
  method AddParents(b: Profiles, before: set<string>,
          ghost bound: set<string>) returns (keep: set<string>, changed: bool)
    requires before <= bound && Closed(b, bound) && "" !in bound
    ensures before <= keep <= bound
    ensures changed <==> keep != before
    ensures !changed ==> Closed(b, keep)
  {
    keep, changed := before, false;
    var pending := before;
    while pending != {}
      invariant pending <= before <= keep <= bound
      invariant changed <==> keep != before
      invariant !changed ==> forall name :: name in before - pending && Next(b, name) != "" ==> Next(b, name) in keep
      decreases pending
    {
      var name :| name in pending;
      pending := pending - {name};
      if name in b && b[name].Profile? {
        var parent := b[name].parent;
        if parent != "" && parent in b && parent !in keep {
          assert parent == Next(b, name) && parent in bound;
          keep := keep + {parent};
          changed := true;
        }
      }
    }
  }

  /** Both loops together compute the kept set; the second ends even when `extends` runs in circles. */
  method KeepProfiles(names: seq<string>, b: Profiles, appEnv: string) returns (keep: set<string>)
    requires forall name :: name in names <==> name in b
    ensures keep == Kept(b, appEnv)
  {
    ghost var bound := Kept(b, appEnv);
    KeptIsClosed(b, appEnv);
    hide Kept, Root;
    keep := MatchingProfiles(names, b, appEnv);
    KeptHasNames(b, appEnv);
    var changed := true;
    while changed
      invariant keep <= bound && HoldsRoots(b, appEnv, keep)
      invariant !changed ==> Closed(b, keep)
      decreases bound - keep, changed
    {
      keep, changed := AddParents(b, keep, bound);
    }
    KeptIsLeast(b, appEnv, keep);
  }

  lemma KeptHasNames(b: Profiles, appEnv: string)
    ensures Kept(b, appEnv) <= b.Keys && "" !in Kept(b, appEnv)
  {}

  // ----- edits -----

  /** The edit leaves every kept profile as it was. */
  ghost predicate Agrees(b: Profiles, edited: Profiles, names: set<string>) {
    forall name :: name in names ==> name in b && name in edited && edited[name] == b[name]
  }

  /**
   * It neither adds `base`, nor a name that a kept profile extends, nor an outside profile that resolves to the
   * active APP_ENV.
   */
  ghost predicate Unrelated(b: Profiles, edited: Profiles, appEnv: string) {
    var kept := Kept(b, appEnv);
    && (BASE in edited ==> BASE in kept)
    && (forall name :: name in kept && b[name].Profile? && b[name].parent in edited && b[name].parent != "" ==>
      b[name].parent in kept)
    && (forall name :: name in edited && name !in kept ==>
      Resolve(edited, name, {}) == "" || Resolve(edited, name, {}) != appEnv)
  }

  lemma {:induction false} SameAncestors(b: Profiles, edited: Profiles, kept: set<string>, name: string, k: nat)
    requires Agrees(b, edited, kept) && Closed(b, kept) && name in kept && Ancestor(b, name, k) != ""
    ensures Ancestor(edited, name, k) == Ancestor(b, name, k) && Ancestor(b, name, k) in kept
    decreases k
  {
    if k > 0 {
      if Next(b, name) == "" {
        NothingIsEmpty(b, k - 1);
      }
      SameAncestors(b, edited, kept, Next(b, name), k - 1);
    }
  }

  lemma SameRoots(b: Profiles, edited: Profiles, appEnv: string, kept: set<string>, name: string)
    requires Agrees(b, edited, kept) && Closed(b, kept) && name in kept && "" !in kept && Root(b, appEnv, name)
    ensures Root(edited, appEnv, name)
  {
    if name != BASE {
      var k: nat :| Nearest(b, name, k) && Env(b, Ancestor(b, name, k)) == appEnv;
      forall j | 0 <= j <= k ensures Ancestor(b, name, j) in kept && Ancestor(edited, name, j) == Ancestor(b, name, j) {
        if Ancestor(b, name, j) == "" {
          AncestorsCompose(b, name, j, k - j);
          NothingIsEmpty(b, k - j);
        }
        SameAncestors(b, edited, kept, name, j);
      }
      assert Nearest(edited, name, k);
    }
  }

  lemma KeptRemains(b: Profiles, edited: Profiles, appEnv: string)
    requires Agrees(b, edited, Kept(b, appEnv))
    ensures Kept(b, appEnv) <= Kept(edited, appEnv)
  {
    var kept := Kept(b, appEnv);
    KeptIsClosed(b, appEnv);
    forall name | name in kept ensures name in Kept(edited, appEnv) {
      var root, k: nat :| KeptVia(b, appEnv, name, root, k);
      SameRoots(b, edited, appEnv, kept, root);
      SameAncestors(b, edited, kept, root, k);
      assert KeptVia(edited, appEnv, name, root, k);
    }
  }

  /** After an edit outside the kept set the same profiles are kept exactly if the edit is unrelated. */
  lemma EditKeepsSelection(b: Profiles, edited: Profiles, appEnv: string)
    requires Agrees(b, edited, Kept(b, appEnv))
    ensures Kept(edited, appEnv) == Kept(b, appEnv) <==> Unrelated(b, edited, appEnv)
  {
    var kept := Kept(b, appEnv);
    KeptRemains(b, edited, appEnv);
    if Unrelated(b, edited, appEnv) {
      forall name | Root(edited, appEnv, name) ensures name in kept {
        ResolveIsNearest(edited, name, appEnv);
        NoEnvIsEmpty(edited, name, appEnv);
      }
      assert Closed(edited, kept);
      KeptIsLeast(edited, appEnv, kept);
    }
    if Kept(edited, appEnv) == kept {
      KeptIsClosed(edited, appEnv);
      assert BASE in edited ==> Root(edited, appEnv, BASE);
      forall name | name in kept && b[name].Profile? && b[name].parent in edited && b[name].parent != ""
        ensures b[name].parent in kept
      {
        assert Next(edited, name) == b[name].parent;
      }
      forall name | name in edited && name !in kept
        ensures Resolve(edited, name, {}) == "" || Resolve(edited, name, {}) != appEnv
      {
        ResolveIsNearest(edited, name, appEnv);
        assert !Root(edited, appEnv, name);
      }
    }
  }

  lemma NoEnvIsEmpty(b: Profiles, name: string, env: string)
    ensures ResolvesTo(b, name, env) ==> env != ""
  {}

  function Restrict<T>(b: map<string, T>, names: set<string>): map<string, T> {
    map name | name in b && name in names :: b[name]
  }

  /** Keeping only the kept profiles and selecting again keeps them all. */
  lemma SelectionIsStable(b: Profiles, appEnv: string)
    ensures Kept(Restrict(b, Kept(b, appEnv)), appEnv) == Kept(b, appEnv)
  {
    EditKeepsSelection(b, Restrict(b, Kept(b, appEnv)), appEnv);
  }

  lemma {:induction false} AncestorsWithout(b: Profiles, less: Profiles, name: string, k: nat)
    requires forall n :: n in less ==> n in b && less[n] == b[n]
    requires Ancestor(less, name, k) != ""
    ensures Ancestor(b, name, k) == Ancestor(less, name, k)
    decreases k
  {
    if k > 0 {
      if Next(less, name) == "" {
        NothingIsEmpty(less, k - 1);
      }
      AncestorsWithout(b, less, Next(less, name), k - 1);
    }
  }

  lemma RootsWithout(b: Profiles, less: Profiles, appEnv: string, name: string)
    requires forall n :: n in less ==> n in b && less[n] == b[n]
    requires Root(less, appEnv, name)
    ensures Root(b, appEnv, name)
  {
    if name != BASE {
      var k: nat :| Nearest(less, name, k) && Env(less, Ancestor(less, name, k)) == appEnv;
      forall j | 0 <= j <= k
        ensures Ancestor(b, name, j) == Ancestor(less, name, j) && Ancestor(less, name, j) in less
      {
        if Ancestor(less, name, j) == "" {
          AncestorsCompose(less, name, j, k - j);
          NothingIsEmpty(less, k - j);
        }
        AncestorsWithout(b, less, name, j);
        InProfiles(less, name, j);
      }
      assert Nearest(b, name, k);
    }
  }

  lemma InProfiles(b: Profiles, name: string, k: nat)
    requires name in b && Ancestor(b, name, k) != ""
    ensures Ancestor(b, name, k) in b
  {
    ClosedHoldsAncestors(b, b.Keys, name, k);
  }

  /**
   * Losing one profile from the kept ones. Selecting again keeps the rest exactly if the rest would have been
   * kept without that profile in the first place.
   */
  lemma SelectionWithout(b: Profiles, appEnv: string, lost: string)
    ensures var rest := Kept(b, appEnv) - {lost};
      Kept(Restrict(b, rest), appEnv) == rest <==> Kept(b - {lost}, appEnv) == rest
  {
    var rest, less := Kept(b, appEnv) - {lost}, b - {lost};
    var small := Restrict(b, rest);
    if Kept(less, appEnv) == rest {
      SelectionIsStable(less, appEnv);
      assert Restrict(less, rest) == small;
    }
    if Kept(small, appEnv) == rest {
      EditKeepsSelection(small, less, appEnv);
      assert Unrelated(small, less, appEnv) by {
        OnlyLost(b, less, appEnv, lost);
      }
    }
  }

  lemma OnlyLost(b: Profiles, less: Profiles, appEnv: string, lost: string)
    requires less == b - {lost}
    ensures BASE in less ==> BASE in Kept(b, appEnv)
    ensures forall name | name in Kept(b, appEnv) && b[name].Profile? ::
      b[name].parent in less && b[name].parent != "" ==> b[name].parent in Kept(b, appEnv)
    ensures forall name :: name in less && name !in Kept(b, appEnv) ==>
      Resolve(less, name, {}) == "" || Resolve(less, name, {}) != appEnv
  {
    KeptIsClosed(b, appEnv);
    KeptHasNames(b, appEnv);
    assert BASE in less ==> Root(b, appEnv, BASE);
    hide Kept, Resolve;
    forall name | name in Kept(b, appEnv) && b[name].Profile? && b[name].parent in less && b[name].parent != ""
      ensures b[name].parent in Kept(b, appEnv)
    {
      assert Next(b, name) == b[name].parent;
    }
    forall name | name in less && name !in Kept(b, appEnv)
      ensures Resolve(less, name, {}) == "" || Resolve(less, name, {}) != appEnv
    {
      ResolveIsNearest(less, name, appEnv);
      if Root(less, appEnv, name) {
        RootsWithout(b, less, appEnv, name);
      }
    }
  }

  /** Losing a profile that is not kept changes nothing. */
  lemma OutsiderIsNotMissed(b: Profiles, appEnv: string, lost: string)
    requires lost !in Kept(b, appEnv)
    ensures Kept(b - {lost}, appEnv) == Kept(b, appEnv)
  {
    KeptHasNames(b, appEnv);
    OnlyLost(b, b - {lost}, appEnv, lost);
    EditKeepsSelection(b, b - {lost}, appEnv);
  }
}
