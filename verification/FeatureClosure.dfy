/** Which features are disabled once dependencies are taken into account (scripts/testing/featureTestGating.ts). */
module FeatureClosure {

  /** The dependencies of every feature id; some may name things that are not features. */
  type Catalog = map<string, seq<string>>

  predicate Covers(catalog: Catalog, ids: set<string>) {
    ids <= catalog.Keys
  }

  predicate DependsDirectly(catalog: Catalog, ids: set<string>, feature: string, dependency: string) {
    feature in catalog && feature in ids && dependency in ids && dependency in catalog[feature]
  }

  /** A chain of features, each depending on the next. */
  ghost predicate IsPath(catalog: Catalog, ids: set<string>, path: seq<string>) {
    && path != []
    && (forall i :: 0 <= i < |path| ==> path[i] in ids)
    && (forall i :: 0 <= i < |path| - 1 ==> DependsDirectly(catalog, ids, path[i], path[i + 1]))
  }

  ghost predicate LeadsTo(catalog: Catalog, ids: set<string>, path: seq<string>, feature: string, disabled: set<string>)
  {
    IsPath(catalog, ids, path) && path[0] == feature && path[|path| - 1] in disabled
  }

  /** The features from which a dependency path leads to a disabled one. */
  ghost predicate Affected(catalog: Catalog, ids: set<string>, feature: string, disabled: set<string>) {
    exists path :: LeadsTo(catalog, ids, path, feature, disabled)
  }

  ghost function Closure(catalog: Catalog, ids: set<string>, disabled: set<string>): set<string> {
    set f | f in ids && Affected(catalog, ids, f, disabled)
  }

  ghost predicate Closed(catalog: Catalog, ids: set<string>, disabled: set<string>) {
    forall f, d :: DependsDirectly(catalog, ids, f, d) && d in disabled ==> f in disabled
  }

  lemma AffectedByDependency(catalog: Catalog, ids: set<string>, feature: string, dependency: string,
          disabled: set<string>)
    requires DependsDirectly(catalog, ids, feature, dependency) && Affected(catalog, ids, dependency, disabled)
    ensures Affected(catalog, ids, feature, disabled)
  {
    var path :| LeadsTo(catalog, ids, path, dependency, disabled);
    var longer := [feature] + path;
    assert LeadsTo(catalog, ids, longer, feature, disabled) by {
      forall i | 0 <= i < |longer| - 1 ensures DependsDirectly(catalog, ids, longer[i], longer[i + 1]) {
        assert i > 0 ==> longer[i] == path[i - 1] && longer[i + 1] == path[i];
      }
    }
  }

  lemma {:induction false} ClosedContainsPaths(catalog: Catalog, ids: set<string>, closed: set<string>,
          path: seq<string>)
    requires Closed(catalog, ids, closed) && IsPath(catalog, ids, path) && path[|path| - 1] in closed
    ensures path[0] in closed
    decreases |path|
  {
    if |path| > 1 {
      var rest := path[1..];
      assert IsPath(catalog, ids, rest) by {
        forall i | 0 <= i < |rest| - 1 ensures DependsDirectly(catalog, ids, rest[i], rest[i + 1]) {
          assert rest[i] == path[i + 1] && rest[i + 1] == path[i + 2];
        }
      }
      ClosedContainsPaths(catalog, ids, closed, rest);
      assert DependsDirectly(catalog, ids, path[0], path[1]);
    }
  }

  /** The closure is the least closed superset. */
  lemma ClosureIsLeast(catalog: Catalog, ids: set<string>, disabled: set<string>)
    requires disabled <= ids
    ensures var c := Closure(catalog, ids, disabled);
      && disabled <= c && Closed(catalog, ids, c)
      && forall other :: disabled <= other && Closed(catalog, ids, other) ==> c <= other
  {
    var c := Closure(catalog, ids, disabled);
    forall f | f in disabled ensures f in c {
      assert LeadsTo(catalog, ids, [f], f, disabled);
    }
    forall f, d | DependsDirectly(catalog, ids, f, d) && d in c ensures f in c {
      AffectedByDependency(catalog, ids, f, d, disabled);
    }
    forall other | disabled <= other && Closed(catalog, ids, other) ensures c <= other {
      forall f | f in c ensures f in other {
        var path :| LeadsTo(catalog, ids, path, f, disabled);
        ClosedContainsPaths(catalog, ids, other, path);
      }
    }
  }

  /** Disabling more features never enables one, and closing twice changes nothing. */
  lemma ClosureIsMonotone(catalog: Catalog, ids: set<string>, fewer: set<string>, more: set<string>)
    requires fewer <= more <= ids
    ensures Closure(catalog, ids, fewer) <= Closure(catalog, ids, more)
    ensures Closure(catalog, ids, Closure(catalog, ids, more)) == Closure(catalog, ids, more)
  {
    var closure := Closure(catalog, ids, more);
    assert closure <= ids;
    hide Closure, Closed, Affected;
    ClosureIsLeast(catalog, ids, fewer);
    ClosureIsLeast(catalog, ids, more);
    ClosureIsLeast(catalog, ids, closure);
    assert closure <= Closure(catalog, ids, closure) <= closure;
  }

  /** One pass over the features, in their order; a feature disabled early in it can disable a later one. */
  method Pass(featureIds: seq<string>, catalog: Catalog, ghost ids: set<string>, ghost initial: set<string>,
          before: set<string>)
    returns (disabled: set<string>, changed: bool)
    requires ids == (set f | f in featureIds) && Covers(catalog, ids)
    requires before <= Closure(catalog, ids, initial)
    ensures before <= disabled <= Closure(catalog, ids, initial)
    ensures changed <==> disabled != before
    ensures !changed ==> Closed(catalog, ids, disabled)
  {
    hide Closure, Affected;
    disabled, changed := before, false;
    for i := 0 to |featureIds|
      invariant before <= disabled <= Closure(catalog, ids, initial)
      invariant changed <==> disabled != before
      invariant !changed ==>
        forall f, d :: f in featureIds[..i] && DependsDirectly(catalog, ids, f, d) && d in disabled ==> f in disabled
    {
      var featureId := featureIds[i];
      assert featureId in ids && featureIds[..i + 1] == featureIds[..i] + [featureId];
      if featureId !in disabled {
        var dependencies := catalog[featureId];
        if exists dependency :: dependency in dependencies && dependency in featureIds && dependency in disabled {
          ghost var d :| d in dependencies && d in featureIds && d in disabled;
          InClosure(catalog, ids, featureId, d, initial);
          disabled := disabled + {featureId};
          changed := true;
        }
      }
    }
    assert featureIds[..|featureIds|] == featureIds;
  }

  lemma InClosure(catalog: Catalog, ids: set<string>, feature: string, dependency: string, initial: set<string>)
    requires DependsDirectly(catalog, ids, feature, dependency) && dependency in Closure(catalog, ids, initial)
    ensures feature in Closure(catalog, ids, initial)
  {
    AffectedByDependency(catalog, ids, feature, dependency, initial);
  }

  /**
   * The in-place loop. It ends, and yields the closure; so neither the order of the feature ids nor
   * of the dependencies matters.
   */
  method ApplyDependencyClosure(featureIds: seq<string>, catalog: Catalog,
          initial: set<string>) returns (disabled: set<string>)
    requires var ids := set f | f in featureIds; Covers(catalog, ids) && initial <= ids
    ensures disabled == Closure(catalog, (set f | f in featureIds), initial)
  {
    ghost var ids := set f | f in featureIds;
    disabled := initial;
    ClosureIsLeast(catalog, ids, initial);
    hide Affected;
    var changed := true;
    while changed
      invariant initial <= disabled <= Closure(catalog, ids, initial) <= ids
      invariant !changed ==> Closed(catalog, ids, disabled)
      decreases ids - disabled, changed
    {
      disabled, changed := Pass(featureIds, catalog, ids, initial, disabled);
    }
  }

  /**
   * The features a policy leaves disabled: a feature is enabled exactly if no dependency path leads from
   * it to a denied one. The policy itself is any function on feature ids.
   */
  method ResolveDisabled(featureIds: seq<string>, catalog: Catalog,
          denies: string -> bool) returns (disabled: set<string>)
    requires Covers(catalog, (set f | f in featureIds))
    ensures forall f :: f in disabled <==>
      f in featureIds && Affected(catalog, (set g | g in featureIds), f, (set g | g in featureIds && denies(g)))
  {
    hide Affected;
    disabled := {};
    for i := 0 to |featureIds|
      invariant disabled == set g | g in featureIds[..i] && denies(g)
    {
      assert featureIds[..i + 1] == featureIds[..i] + [featureIds[i]];
      if denies(featureIds[i]) {
        disabled := disabled + {featureIds[i]};
      }
    }
    assert featureIds[..|featureIds|] == featureIds;
    disabled := ApplyDependencyClosure(featureIds, catalog, disabled);
  }
}
