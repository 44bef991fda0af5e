/** The allocator of module ids (createModuleIdFactory in apps/ui/metro.config.js). */
module ModuleIds {
  import opened Options

  const OFFSET := 1_000_000_000
  const MAX_SAFE_INTEGER := 9_007_199_254_740_991

  /** What an existing factory answers, converted to a number. */
  datatype Preference = Integer(n: int) | NotAnInteger

  /** Bundle mode, whether there is an existing factory, and the number in the name of a generated worklet module. */
  datatype Mode = Mode(bundle: bool, existing: bool, worklet: string -> Option<int>)

  /** A module name, with the existing factory's preference for it. */
  datatype Request = Request(name: string, preference: Preference)

  datatype Ids = Ids(next: int, nextOrdinary: int, byName: map<string, int>, used: set<int>)

  const INITIAL := Ids(0, OFFSET, map[], {})

  predicate IsSafe(n: int) {
    -MAX_SAFE_INTEGER <= n <= MAX_SAFE_INTEGER
  }

  function ToOrdinary(preferred: Preference, fallback: int): int {
    if preferred.Integer? && IsSafe(preferred.n) && preferred.n >= 0 && IsSafe(preferred.n + OFFSET) then
      preferred.n + OFFSET
    else fallback
  }

  /** Outside bundle mode the preference is the id, so it has to be an integer. */
  predicate Answerable(mode: Mode, request: Request) {
    mode.existing && !mode.bundle ==> request.preference.Integer?
  }

  predicate IsWorklet(mode: Mode, name: string) {
    mode.bundle && mode.worklet(name).Some?
  }

  /** Where the search for an id starts. */
  function FirstChoice(mode: Mode, ids: Ids, request: Request): int
    requires Answerable(mode, request)
  {
    var preferred := if mode.existing then request.preference else Integer(ids.next);
    if mode.bundle then ToOrdinary(preferred, ids.nextOrdinary) else preferred.n
  }

  ghost function From(used: set<int>, start: int): set<int> {
    set n | n in used && n >= start
  }

  /** The least free id from `start` on. */
  ghost function FirstFree(start: int, used: set<int>): (free: int)
    ensures start <= free && free !in used && forall n :: start <= n < free ==> n in used
    decreases From(used, start)
  {
    if start !in used then start
    else
      assert start in From(used, start) && start !in From(used, start + 1);
      FirstFree(start + 1, used)
  }

  /** The state after a request; the answer is what it then holds for the name. */
  ghost function Issue(mode: Mode, ids: Ids, request: Request): (after: Ids)
    requires Answerable(mode, request)
    ensures request.name in after.byName
  {
    if request.name in ids.byName then ids
    else if IsWorklet(mode, request.name) then
      var id := mode.worklet(request.name).value;
      ids.(byName := ids.byName[request.name := id], used := ids.used + {id})
    else
      var id := FirstFree(FirstChoice(mode, ids, request), ids.used);
      Ids(
        if mode.existing then ids.next else ids.next + 1,
        if mode.bundle && id >= ids.nextOrdinary then id + 1 else ids.nextOrdinary,
        ids.byName[request.name := id],
        ids.used + {id})
  }

  class ModuleIdFactory {
    const mode: Mode
    var nextModuleId: int
    var nextOrdinaryModuleId: int
    var moduleIdByName: map<string, int>
    var usedModuleIds: set<int>

    ghost function Snapshot(): Ids
      reads this
    {
      Ids(nextModuleId, nextOrdinaryModuleId, moduleIdByName, usedModuleIds)
    }

    constructor (mode: Mode)
      ensures this.mode == mode && Snapshot() == INITIAL
    {
      this.mode := mode;
      nextModuleId, nextOrdinaryModuleId, moduleIdByName, usedModuleIds := 0, OFFSET, map[], {};
    }

    method ModuleId(request: Request) returns (moduleId: int)
      requires Answerable(mode, request)
      modifies this
      ensures Snapshot() == Issue(mode, old(Snapshot()), request)
      ensures moduleId == moduleIdByName[request.name]
    {
      var name := request.name;
      if name in moduleIdByName {
        return moduleIdByName[name];
      }
      if IsWorklet(mode, name) {
        moduleId := mode.worklet(name).value;
        usedModuleIds := usedModuleIds + {moduleId};
        moduleIdByName := moduleIdByName[name := moduleId];
        return;
      }
      var preferred := request.preference;
      if !mode.existing {
        preferred := Integer(nextModuleId);
        nextModuleId := nextModuleId + 1;
      }
      moduleId := if mode.bundle then ToOrdinary(preferred, nextOrdinaryModuleId) else preferred.n;
      ghost var start := moduleId;
      while moduleId in usedModuleIds
        invariant start <= moduleId && forall n :: start <= n < moduleId ==> n in usedModuleIds
        decreases From(usedModuleIds, moduleId)
      {
        assert moduleId in From(usedModuleIds, moduleId) && moduleId !in From(usedModuleIds, moduleId + 1);
        moduleId := moduleId + 1;
      }
      assert moduleId == FirstFree(start, usedModuleIds);
      if mode.bundle && moduleId >= nextOrdinaryModuleId {
        nextOrdinaryModuleId := moduleId + 1;
      }
      usedModuleIds := usedModuleIds + {moduleId};
      moduleIdByName := moduleIdByName[name := moduleId];
    }
  }

  // ----- runs -----

  predicate AllAnswerable(mode: Mode, requests: seq<Request>) {
    forall i :: 0 <= i < |requests| ==> Answerable(mode, requests[i])
  }

  ghost function Run(mode: Mode, ids: Ids, requests: seq<Request>): Ids
    requires AllAnswerable(mode, requests)
    decreases |requests|
  {
    if requests == [] then ids else Run(mode, Issue(mode, ids, requests[0]), requests[1..])
  }

  ghost function Answers(mode: Mode, ids: Ids, requests: seq<Request>): seq<int>
    requires AllAnswerable(mode, requests)
    decreases |requests|
  {
    if requests == [] then []
    else
      var after := Issue(mode, ids, requests[0]);
      [after.byName[requests[0].name]] + Answers(mode, after, requests[1..])
  }

  lemma {:induction false} IdsRemain(mode: Mode, ids: Ids, requests: seq<Request>, name: string)
    requires AllAnswerable(mode, requests) && name in ids.byName
    ensures name in Run(mode, ids, requests).byName && Run(mode, ids, requests).byName[name] == ids.byName[name]
    decreases |requests|
  {
    if requests != [] {
      IdsRemain(mode, Issue(mode, ids, requests[0]), requests[1..], name);
    }
  }

  /** Every answer is the id the name has at the end, so a name always gets the same id. */
  lemma {:induction false} SameNameSameId(mode: Mode, ids: Ids, requests: seq<Request>)
    requires AllAnswerable(mode, requests)
    ensures var final := Run(mode, ids, requests).byName;
      && |Answers(mode, ids, requests)| == |requests|
      && forall i :: 0 <= i < |requests| ==>
        requests[i].name in final && Answers(mode, ids, requests)[i] == final[requests[i].name]
    decreases |requests|
  {
    if requests != [] {
      var after := Issue(mode, ids, requests[0]);
      IdsRemain(mode, after, requests[1..], requests[0].name);
      SameNameSameId(mode, after, requests[1..]);
      hide Issue, Answers;
      assert Answers(mode, ids, requests) == [after.byName[requests[0].name]] + Answers(mode, after, requests[1..]) by {
        AnswersUnfold(mode, ids, requests);
      }
    }
  }

  lemma AnswersUnfold(mode: Mode, ids: Ids, requests: seq<Request>)
    requires AllAnswerable(mode, requests) && requests != []
    ensures var after := Issue(mode, ids, requests[0]);
      Answers(mode, ids, requests) == [after.byName[requests[0].name]] + Answers(mode, after, requests[1..])
  {}

  /** Exactly the ids in the map count as used, and ordinary ids start at the offset. */
  ghost predicate Consistent(ids: Ids) {
    && ids.nextOrdinary >= OFFSET
    && (forall name :: name in ids.byName ==> ids.byName[name] in ids.used)
    && (forall id :: id in ids.used ==> exists name :: name in ids.byName && ids.byName[name] == id)
  }

  lemma IssueKeepsConsistent(mode: Mode, ids: Ids, request: Request)
    requires Answerable(mode, request) && Consistent(ids)
    ensures Consistent(Issue(mode, ids, request))
  {
    var after := Issue(mode, ids, request);
    hide FirstFree, FirstChoice;
    forall id | id in after.used ensures exists name :: name in after.byName && after.byName[name] == id {
      if id in ids.used {
        var name :| name in ids.byName && ids.byName[name] == id;
        assert after.byName[name] == id;
      } else {
        assert after.byName[request.name] == id;
      }
    }
  }

  lemma {:induction false} RunKeepsConsistent(mode: Mode, ids: Ids, requests: seq<Request>)
    requires AllAnswerable(mode, requests) && Consistent(ids)
    ensures Consistent(Run(mode, ids, requests))
    decreases |requests|
  {
    if requests != [] {
      IssueKeepsConsistent(mode, ids, requests[0]);
      RunKeepsConsistent(mode, Issue(mode, ids, requests[0]), requests[1..]);
    }
  }

  /**
   * In every run: a new ordinary id differs from all ids issued before; in bundle mode it lies between the
   * offset and `nextOrdinary`.
   */
  lemma OrdinaryIdIsNew(mode: Mode, requests: seq<Request>, request: Request)
    requires AllAnswerable(mode, requests) && Answerable(mode, request)
    ensures var ids := Run(mode, INITIAL, requests);
      var after := Issue(mode, ids, request);
      var id := after.byName[request.name];
      request.name !in ids.byName && !IsWorklet(mode, request.name) ==>
      && (forall name :: name in ids.byName ==> ids.byName[name] != id)
      && (mode.bundle ==> OFFSET <= id < after.nextOrdinary)
  {
    RunKeepsConsistent(mode, INITIAL, requests);
  }

  /** Some module has that id. */
  ghost predicate Taken(ids: Ids, id: int) {
    exists name :: name in ids.byName && ids.byName[name] == id
  }

  /**
   * What a new name gets, in every run. A worklet module in bundle mode gets its number. Any other gets the least id
   * not taken, from the preference of the existing factory on, or else from the running number; in bundle mode these
   * are shifted by 1,000,000,000, and it is from the next ordinary id on where that is no safe integer.
   */
  lemma PreferenceIsHonoured(mode: Mode, requests: seq<Request>, request: Request)
    requires AllAnswerable(mode, requests) && Answerable(mode, request)
    requires request.name !in Run(mode, INITIAL, requests).byName
    ensures var ids := Run(mode, INITIAL, requests);
      var after := Issue(mode, ids, request);
      var id := after.byName[request.name];
      var worklet := if mode.bundle then mode.worklet(request.name) else None;
      var wanted := if mode.existing then request.preference else Integer(ids.next);
      var safe := wanted.Integer? && 0 <= wanted.n <= 9_007_199_254_740_991 - 1_000_000_000;
      var start := if !mode.bundle then wanted.n else if safe then wanted.n + 1_000_000_000 else ids.nextOrdinary;
      && (forall name :: name in ids.byName ==> name in after.byName && after.byName[name] == ids.byName[name])
      && after.byName.Keys == ids.byName.Keys + {request.name}
      && if worklet.Some? then id == worklet.value && after.next == ids.next && after.nextOrdinary == ids.nextOrdinary
         else
           && start <= id && !Taken(ids, id) && (forall n :: start <= n < id ==> Taken(ids, n))
           && after.next == ids.next + (if mode.existing then 0 else 1)
           && after.nextOrdinary == if mode.bundle && id >= ids.nextOrdinary then id + 1 else ids.nextOrdinary
  {
    var ids := Run(mode, INITIAL, requests);
    RunKeepsConsistent(mode, INITIAL, requests);
    hide Run;
    forall n ensures Taken(ids, n) <==> n in ids.used {
      if n in ids.used {
        var name :| name in ids.byName && ids.byName[name] == n;
      }
    }
    hide Taken;
  }

  ghost predicate Injective(ids: Ids) {
    forall a, b :: a in ids.byName && b in ids.byName && ids.byName[a] == ids.byName[b] ==> a == b
  }

  /** No new worklet module is met whose number is already taken. */
  ghost predicate NumbersFree(mode: Mode, ids: Ids, requests: seq<Request>)
    requires AllAnswerable(mode, requests)
    decreases |requests|
  {
    requests == []
    || ((requests[0].name !in ids.byName && IsWorklet(mode, requests[0].name) ==>
          mode.worklet(requests[0].name).value !in ids.used)
        && NumbersFree(mode, Issue(mode, ids, requests[0]), requests[1..]))
  }

  lemma IssueKeepsInjective(mode: Mode, ids: Ids, request: Request)
    requires Answerable(mode, request) && Consistent(ids) && Injective(ids)
    ensures var free := request.name !in ids.byName && IsWorklet(mode, request.name) ==>
      mode.worklet(request.name).value !in ids.used;
      Injective(Issue(mode, ids, request)) <==> free
  {
    hide FirstChoice;
    var after := Issue(mode, ids, request);
    if request.name !in ids.byName && IsWorklet(mode, request.name) && mode.worklet(request.name).value in ids.used {
      var name :| name in ids.byName && ids.byName[name] == mode.worklet(request.name).value;
      assert after.byName[name] == after.byName[request.name];
    }
  }

  /** Distinct names have distinct ids at the end of a run exactly if every worklet number was free when it came up. */
  lemma {:induction false} InjectiveIffNumbersFree(mode: Mode, ids: Ids, requests: seq<Request>)
    requires AllAnswerable(mode, requests) && Consistent(ids) && Injective(ids)
    ensures Injective(Run(mode, ids, requests)) <==> NumbersFree(mode, ids, requests)
    decreases |requests|
  {
    if requests != [] {
      var after := Issue(mode, ids, requests[0]);
      IssueKeepsConsistent(mode, ids, requests[0]);
      IssueKeepsInjective(mode, ids, requests[0]);
      if Injective(after) {
        InjectiveIffNumbersFree(mode, after, requests[1..]);
      } else {
        ClashRemains(mode, after, requests[1..]);
      }
    }
  }

  lemma ClashRemains(mode: Mode, ids: Ids, requests: seq<Request>)
    requires AllAnswerable(mode, requests) && !Injective(ids)
    ensures !Injective(Run(mode, ids, requests))
  {
    var a, b :| a in ids.byName && b in ids.byName && ids.byName[a] == ids.byName[b] && a != b;
    IdsRemain(mode, ids, requests, a);
    IdsRemain(mode, ids, requests, b);
  }

  /** Without bundle mode no number can be taken: distinct names get distinct ids, whatever the preferences. */
  lemma {:induction false} NoClashWithoutBundleMode(mode: Mode, ids: Ids, requests: seq<Request>)
    requires AllAnswerable(mode, requests) && !mode.bundle
    ensures NumbersFree(mode, ids, requests)
    decreases |requests|
  {
    if requests != [] {
      NoClashWithoutBundleMode(mode, Issue(mode, ids, requests[0]), requests[1..]);
    }
  }

  /** Below the offset only worklet modules have ids, each its own number. */
  ghost predicate BelowOffset(mode: Mode, ids: Ids) {
    && ids.nextOrdinary >= OFFSET
    && forall id :: id in ids.used && id < OFFSET ==>
      exists name :: name in ids.byName && mode.worklet(name) == Some(id)
  }

  ghost predicate SmallNumbers(mode: Mode, names: set<string>) {
    forall name :: name in names && mode.worklet(name).Some? ==> mode.worklet(name).value < OFFSET
  }

  /** No two of the names are worklet modules of one number. */
  ghost predicate DistinctNumbers(mode: Mode, names: set<string>) {
    forall a, b :: a in names && b in names && mode.worklet(a).Some? && mode.worklet(a) == mode.worklet(b) ==> a == b
  }

  function Names(requests: seq<Request>): set<string> {
    set i | 0 <= i < |requests| :: requests[i].name
  }

  lemma IssueKeepsBelowOffset(mode: Mode, ids: Ids, request: Request)
    requires Answerable(mode, request) && mode.bundle && BelowOffset(mode, ids)
    ensures BelowOffset(mode, Issue(mode, ids, request))
  {
    var after := Issue(mode, ids, request);
    forall id | id in after.used && id < OFFSET
      ensures exists name :: name in after.byName && mode.worklet(name) == Some(id)
    {
      if id in ids.used {
        var name :| name in ids.byName && mode.worklet(name) == Some(id);
        assert name in after.byName;
      } else {
        assert request.name in after.byName && mode.worklet(request.name) == Some(id);
      }
    }
  }

  lemma IssueNames(mode: Mode, ids: Ids, request: Request)
    requires Answerable(mode, request)
    ensures Issue(mode, ids, request).byName.Keys == ids.byName.Keys + {request.name}
  {}

  lemma NamesSplit(requests: seq<Request>)
    requires requests != []
    ensures Names(requests) == {requests[0].name} + Names(requests[1..])
  {
    forall name | name in Names(requests) ensures name in {requests[0].name} + Names(requests[1..]) {
      var i :| 0 <= i < |requests| && requests[i].name == name;
      assert i > 0 ==> requests[1..][i - 1] == requests[i];
    }
    forall name | name in Names(requests[1..]) ensures name in Names(requests) {
      var i :| 0 <= i < |requests[1..]| && requests[1..][i].name == name;
      assert requests[i + 1] == requests[1..][i];
    }
  }

  /** In bundle mode distinct numbers below the offset suffice, among the names asked for now and before. */
  lemma {:induction false} GoodNumbersAreFree(mode: Mode, ids: Ids, requests: seq<Request>)
    requires AllAnswerable(mode, requests) && mode.bundle && BelowOffset(mode, ids)
    requires var names := ids.byName.Keys + Names(requests); SmallNumbers(mode, names) && DistinctNumbers(mode, names)
    ensures NumbersFree(mode, ids, requests)
    decreases |requests|
  {
    if requests != [] {
      var after := Issue(mode, ids, requests[0]);
      IssueKeepsBelowOffset(mode, ids, requests[0]);
      IssueNames(mode, ids, requests[0]);
      NamesSplit(requests);
      assert after.byName.Keys + Names(requests[1..]) == ids.byName.Keys + Names(requests);
      hide Issue, Names, BelowOffset;
      GoodNumbersAreFree(mode, after, requests[1..]);
      assert requests[0].name in ids.byName.Keys + Names(requests);
      if requests[0].name !in ids.byName && IsWorklet(mode, requests[0].name) {
        NumberIsFree(mode, ids, requests[0].name, ids.byName.Keys + Names(requests));
      }
    }
  }

  lemma NumberIsFree(mode: Mode, ids: Ids, name: string, names: set<string>)
    requires BelowOffset(mode, ids) && SmallNumbers(mode, names) && DistinctNumbers(mode, names)
    requires ids.byName.Keys + {name} <= names && name !in ids.byName && mode.worklet(name).Some?
    ensures mode.worklet(name).value !in ids.used
  {}

  /** A worklet module has its own number for an id. */
  ghost predicate NumbersIssued(mode: Mode, ids: Ids) {
    forall name :: name in ids.byName && IsWorklet(mode, name) ==> mode.worklet(name) == Some(ids.byName[name])
  }

  lemma {:induction false} RunIssuesNumbers(mode: Mode, ids: Ids, requests: seq<Request>)
    requires AllAnswerable(mode, requests) && NumbersIssued(mode, ids)
    ensures NumbersIssued(mode, Run(mode, ids, requests))
    decreases |requests|
  {
    if requests != [] {
      RunIssuesNumbers(mode, Issue(mode, ids, requests[0]), requests[1..]);
    }
  }

  /** The answers tell the names apart: equal ids exactly for equal names. */
  ghost predicate TellsApart(answers: seq<int>, requests: seq<Request>) {
    && |answers| == |requests|
    && forall i, j :: 0 <= i < |requests| && 0 <= j < |requests| ==>
      (answers[i] == answers[j] <==> requests[i].name == requests[j].name)
  }

  lemma {:induction false} RunNames(mode: Mode, ids: Ids, requests: seq<Request>)
    requires AllAnswerable(mode, requests)
    ensures Run(mode, ids, requests).byName.Keys == ids.byName.Keys + Names(requests)
    decreases |requests|
  {
    if requests != [] {
      IssueNames(mode, ids, requests[0]);
      NamesSplit(requests);
      hide Issue, Names;
      RunNames(mode, Issue(mode, ids, requests[0]), requests[1..]);
    }
  }

  lemma TellsApartIffInjective(mode: Mode, requests: seq<Request>)
    requires AllAnswerable(mode, requests)
    ensures TellsApart(Answers(mode, INITIAL, requests), requests) <==> Injective(Run(mode, INITIAL, requests))
  {
    SameNameSameId(mode, INITIAL, requests);
    RunNames(mode, INITIAL, requests);
    var final, answers := Run(mode, INITIAL, requests).byName, Answers(mode, INITIAL, requests);
    hide Run, Answers;
    if TellsApart(answers, requests) {
      forall a, b | a in final && b in final && final[a] == final[b] ensures a == b {
        var i :| 0 <= i < |requests| && requests[i].name == a;
        var j :| 0 <= j < |requests| && requests[j].name == b;
        assert answers[i] == final[a] && answers[j] == final[b];
      }
    }
  }

  /** The answers of any run tell the names apart exactly if every worklet number was free when it came up. */
  lemma AnswersTellApartIffFree(mode: Mode, requests: seq<Request>)
    requires AllAnswerable(mode, requests)
    ensures TellsApart(Answers(mode, INITIAL, requests), requests) <==> NumbersFree(mode, INITIAL, requests)
  {
    TellsApartIffInjective(mode, requests);
    InjectiveIffNumbersFree(mode, INITIAL, requests);
  }

  /**
   * Without bundle mode they always do, for any preferences. In bundle mode, while the numbers among the requested
   * names are below the offset, they do exactly if those numbers are distinct.
   */
  lemma DistinctNamesDistinctIds(mode: Mode, requests: seq<Request>)
    requires AllAnswerable(mode, requests)
    ensures !mode.bundle ==> TellsApart(Answers(mode, INITIAL, requests), requests)
    ensures mode.bundle && SmallNumbers(mode, Names(requests)) ==>
      (TellsApart(Answers(mode, INITIAL, requests), requests) <==> DistinctNumbers(mode, Names(requests)))
  {
    AnswersTellApartIffFree(mode, requests);
    if !mode.bundle {
      NoClashWithoutBundleMode(mode, INITIAL, requests);
    } else if SmallNumbers(mode, Names(requests)) {
      if DistinctNumbers(mode, Names(requests)) {
        assert INITIAL.byName.Keys + Names(requests) == Names(requests);
        GoodNumbersAreFree(mode, INITIAL, requests);
      } else {
        SharedNumberClashes(mode, requests);
      }
    }
  }

  lemma SharedNumberClashes(mode: Mode, requests: seq<Request>)
    requires AllAnswerable(mode, requests) && mode.bundle && !DistinctNumbers(mode, Names(requests))
    ensures !TellsApart(Answers(mode, INITIAL, requests), requests)
  {
    RunNames(mode, INITIAL, requests);
    RunIssuesNumbers(mode, INITIAL, requests);
    TellsApartIffInjective(mode, requests);
    hide Run, Answers, TellsApart;
    var names := Names(requests);
    var a, b :| a in names && b in names && mode.worklet(a).Some? && mode.worklet(a) == mode.worklet(b) && a != b;
  }

  /** A clash: an ordinary module and then a worklet module whose number is the ordinary id. */
  lemma LargeNumbersClash(worklet: string -> Option<int>)
    requires worklet("worklet") == Some(OFFSET) && worklet("module") == None
    ensures var requests := [Request("module", NotAnInteger), Request("worklet", NotAnInteger)];
      Answers(Mode(true, false, worklet), INITIAL, requests) == [OFFSET, OFFSET]
  {
    var mode := Mode(true, false, worklet);
    var requests := [Request("module", NotAnInteger), Request("worklet", NotAnInteger)];
    AnswersUnfold(mode, INITIAL, requests);
    AnswersUnfold(mode, Issue(mode, INITIAL, requests[0]), requests[1..]);
    assert requests[1..][0] == requests[1];
  }

  ghost predicate CountsUp(ids: Ids) {
    ids.next == |ids.byName| && forall n :: n in ids.used <==> 0 <= n < ids.next
  }

  lemma {:induction false} RunCountsUp(mode: Mode, ids: Ids, requests: seq<Request>)
    requires AllAnswerable(mode, requests) && !mode.bundle && !mode.existing && CountsUp(ids)
    ensures CountsUp(Run(mode, ids, requests))
    decreases |requests|
  {
    if requests != [] {
      RunCountsUp(mode, Issue(mode, ids, requests[0]), requests[1..]);
    }
  }

  /** Left to itself outside bundle mode, the factory numbers new names 0, 1, 2 and so on, skipping none. */
  lemma NumbersInOrder(mode: Mode, requests: seq<Request>, request: Request)
    requires AllAnswerable(mode, requests) && !mode.bundle && !mode.existing
    ensures var ids := Run(mode, INITIAL, requests);
      request.name !in ids.byName ==> Issue(mode, ids, request).byName[request.name] == |ids.byName|
  {
    RunCountsUp(mode, INITIAL, requests);
  }
}
