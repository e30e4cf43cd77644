/**
 Exactly when a token can be freed on stale evidence: by a poll whose List was issued
 before the token was allocated.
 */
module DeviceExposure {
  import opened Wrappers
  import opened DeviceTokens
  import opened DeviceProtocol

  /** The next ageing by loop l frees id, which was allocated after the List of l was issued. */
  ghost predicate FreesStale(s: State, l: LoopId, id: Id) {
    && l in s.loops && s.loops[l].Listed? && id in Released(s.tracked, s.loops[l].seen)
    && id in s.allocAt && s.allocAt[id] > s.loops[l].issued
  }

  ghost predicate NoNewLoop(acts: seq<Action>) {
    forall k :: 0 <= k < |acts| ==> !acts[k].StartLoop?
  }

  /** Without any further loop, some continuation frees a token on stale evidence. */
  ghost predicate CanFreeStale(s: State) {
    exists acts, l, id :: NoNewLoop(acts) && Run(s, acts).Some? && FreesStale(Run(s, acts).value, l, id)
  }

  predicate Live(s: State, l: LoopId) {
    l in s.loops && !s.loops[l].Stopped?
  }

  /** The server owns this token and can get hold of it. */
  predicate Obtainable(s: State, id: Id) {
    id in s.owned && (id in s.free || id in s.held)
  }

  /** Two loops run, and there is a token to allocate. */
  ghost predicate TwoLoops(s: State) {
    (exists l, k :: l != k && Live(s, l) && Live(s, k)) && exists id :: Obtainable(s, id)
  }

  /** The List of l is older than the allocation of a stale token, and has not reported it. */
  ghost predicate OutdatedFor(s: State, l: LoopId, id: Id) {
    && l in s.loops && Issued(s.loops[l]) && (s.loops[l].Listed? ==> id !in s.loops[l].seen)
    && id in s.tracked && !s.tracked[id] && id in s.allocAt && s.allocAt[id] > s.loops[l].issued
  }

  ghost predicate Outdated(s: State) {
    exists l, id :: OutdatedFor(s, l, id)
  }

  // ---------- no other state is exposed ----------

  lemma FreesIsOutdated(s: State, l: LoopId, id: Id)
    requires FreesStale(s, l, id)
    ensures OutdatedFor(s, l, id)
  {
  }

  lemma PoolStaysObtainable(s: State, a: Action, id: Id)
    requires PoolOk(s) && Enabled(s, a)
    ensures Obtainable(Apply(s, a), id) <==> Obtainable(s, id)
  {
    if a.Others? {
      assert id in s.owned ==> (id in a.free <==> id in a.free * s.owned) && (id in a.held <==> id in a.held * s.owned);
      assert id in s.owned ==> (id in s.free <==> id in s.free * s.owned) && (id in s.held <==> id in s.held * s.owned);
    }
  }

  lemma StoppedStays(s: State, a: Action, l: LoopId)
    requires Enabled(s, a) && !a.StartLoop? && Live(Apply(s, a), l)
    ensures Live(s, l)
  {
  }

  lemma TwoLoopsStep(s: State, a: Action)
    requires PoolOk(s) && Enabled(s, a) && !a.StartLoop? && TwoLoops(Apply(s, a))
    ensures TwoLoops(s)
  {
    var s' := Apply(s, a);
    var l, k :| l != k && Live(s', l) && Live(s', k);
    StoppedStays(s, a, l);
    StoppedStays(s, a, k);
    var id :| Obtainable(s', id);
    PoolStaysObtainable(s, a, id);
  }

  /** A List gets outdated for a token only when another loop ages it. */
  lemma OutdatedStep(s: State, a: Action, l: LoopId, id: Id)
    requires TimesOk(s) && Enabled(s, a) && OutdatedFor(Apply(s, a), l, id)
    ensures OutdatedFor(s, l, id) || (a.Age? && a.l != l && Live(s, l) && id in s.tracked)
  {
  }

  lemma AgedByAnother(s: State, a: Action, l: LoopId, id: Id)
    requires PoolOk(s) && Enabled(s, a) && a.Age? && a.l != l && Live(s, l) && id in s.tracked
    ensures TwoLoops(s)
  {
    assert Live(s, a.l) && Obtainable(s, id);
  }

  lemma {:induction false} StaysUnexposed(s: State, acts: seq<Action>)
    requires PoolOk(s) && TimesOk(s) && NoNewLoop(acts) && Run(s, acts).Some?
    requires !TwoLoops(s) && !Outdated(s)
    ensures var s' := Run(s, acts).value;
            PoolOk(s') && TimesOk(s') && !TwoLoops(s') && !Outdated(s')
    decreases |acts|
  {
    if acts == [] {
    } else {
      var init, a := acts[..|acts| - 1], acts[|acts| - 1];
      StaysUnexposed(s, init);
      var mid := Run(s, init).value;
      var s' := Apply(mid, a);
      PoolStep(mid, a);
      TimesStep(mid, a);
      if TwoLoops(s') {
        TwoLoopsStep(mid, a);
      }
      if l, id :| OutdatedFor(s', l, id) {
        OutdatedStep(mid, a, l, id);
        AgedByAnother(mid, a, l, id);
      }
    }
  }

  // ---------- every such state is exposed ----------

  /** A run without new loops goes on by one action. */
  lemma Extend(s: State, acts: seq<Action>, mid: State, a: Action) returns (acts': seq<Action>, mid': State)
    requires Run(s, acts) == Some(mid) && NoNewLoop(acts) && Enabled(mid, a) && !a.StartLoop?
    ensures acts' == acts + [a] && mid' == Apply(mid, a) && Run(s, acts') == Some(mid') && NoNewLoop(acts')
  {
    acts', mid' := Follow(s, acts, mid, a);
  }

  lemma Stay(s: State)
    ensures Run(s, []) == Some(s) && NoNewLoop([])
  {
  }

  /** The next step of loop l towards its next List. */
  function LoopStep(s: State, l: LoopId): Action
    requires Live(s, l) && !s.loops[l].AtList?
  {
    match s.loops[l]
    case Listing(_) => AnswerList(l, {})
    case Listed(_, _) => Age(l)
    case Reporting => Report(l, true)
    case Waiting => WakeByTimeout(l)
  }

  function StepsToList(loop: Loop): nat {
    match loop
    case AtList => 0
    case Waiting => 1
    case Reporting => 2
    case Listed(_, _) => 3
    case Listing(_) => 4
    case Stopped => 0
  }

  lemma LoopStepIsSafe(s: State, l: LoopId)
    requires PoolOk(s) && Live(s, l) && !s.loops[l].AtList?
    ensures Enabled(s, LoopStep(s, l))
    ensures var s' := Apply(s, LoopStep(s, l));
            && Live(s', l) && s'.loops == s.loops[l := s'.loops[l]]
            && StepsToList(s'.loops[l]) < StepsToList(s.loops[l])
  {
  }

  lemma NoNewLoopConcat(first: seq<Action>, second: seq<Action>)
    requires NoNewLoop(first) && NoNewLoop(second)
    ensures NoNewLoop(first + second)
  {
  }

  lemma Append(s: State, acts: seq<Action>, mid: State, more: seq<Action>, s': State) returns (all: seq<Action>)
    requires Run(s, acts) == Some(mid) && Run(mid, more) == Some(s') && NoNewLoop(acts) && NoNewLoop(more)
    ensures all == acts + more && Run(s, all) == Some(s') && NoNewLoop(all)
  {
    RunConcat(s, acts, more);
    NoNewLoopConcat(acts, more);
    all := acts + more;
  }

  /** Loop l can get to its next List; the others stay where they are. */
  lemma {:induction false} Drive(s: State, l: LoopId, id: Id) returns (acts: seq<Action>, s': State)
    requires PoolOk(s) && TimesOk(s) && Live(s, l) && Obtainable(s, id)
    ensures Run(s, acts) == Some(s') && NoNewLoop(acts) && PoolOk(s') && TimesOk(s') && Obtainable(s', id)
    ensures s'.loops == s.loops[l := AtList]
    decreases StepsToList(s.loops[l])
  {
    hide PoolOk, TimesOk, Apply, Enabled, Obtainable, Run, NoNewLoop;
    Stay(s);
    if s.loops[l].AtList? {
      acts, s' := [], s;
    } else {
      var a := LoopStep(s, l);
      LoopStepIsSafe(s, l);
      var next := Apply(s, a);
      PoolStep(s, a);
      TimesStep(s, a);
      PoolStaysObtainable(s, a, id);
      var rest: seq<Action>;
      rest, s' := Drive(next, l, id);
      var first, _ := Extend(s, [], s, a);
      acts := Append(s, first, next, rest, s');
    }
  }

  lemma UseFree(s: State, id: Id)
    requires PoolOk(s) && id in s.owned && id in s.free
    ensures Enabled(s, Use([id]))
    ensures var s' := Apply(s, Use([id]));
            && id in s'.tracked && s'.tracked[id] && id in s'.allocAt && s'.allocAt[id] == s.now && s'.loops == s.loops
  {
    assert SetOf([id]) == {id} && BatchOk(s.free, [id]);
  }

  lemma UseHeld(s: State, id: Id)
    requires PoolOk(s) && id in s.owned && id in s.held
    ensures Enabled(s, Use([id]))
    ensures var s' := Apply(s, Use([id])); id in s'.free && s'.owned == s.owned && s'.loops == s.loops && s'.now > s.now
  {
    assert SetOf([id]) == {id};
    FailedBatchFreesHeldToken(s.tracked, s.held, s.free, [id], id);
  }

  /** An obtainable token can be allocated now; a held one is freed first by a batch that fails. */
  lemma Obtain(s: State, id: Id) returns (acts: seq<Action>, s': State)
    requires PoolOk(s) && Obtainable(s, id)
    ensures Run(s, acts) == Some(s') && NoNewLoop(acts) && s'.loops == s.loops
    ensures id in s'.tracked && s'.tracked[id] && id in s'.allocAt && s'.allocAt[id] >= s.now
  {
    hide PoolOk, Apply, Enabled, Run, NoNewLoop;
    Stay(s);
    acts, s' := [], s;
    if id !in s.free {
      UseHeld(s, id);
      PoolStep(s, Use([id]));
      acts, s' := Extend(s, acts, s', Use([id]));
    }
    UseFree(s', id);
    acts, s' := Extend(s, acts, s', Use([id]));
  }

  /** Two Lists are under way while a token is allocated: the second ageing frees it. */
  lemma AnswerFacts(s: State, l: LoopId)
    requires l in s.loops && s.loops[l].Listing?
    ensures Enabled(s, AnswerList(l, {}))
    ensures var s' := Apply(s, AnswerList(l, {}));
            && s'.loops == s.loops[l := Listed({}, s.loops[l].issued)]
            && s'.tracked == s.tracked && s'.allocAt == s.allocAt
  {
  }

  lemma AgeFacts(s: State, l: LoopId, k: LoopId, id: Id)
    requires l != k && l in s.loops && k in s.loops
    requires s.loops[l].Listed? && s.loops[l].seen == {} && s.loops[k].Listed? && s.loops[k].seen == {}
    requires id in s.tracked && s.tracked[id] && id in s.allocAt && s.allocAt[id] > s.loops[k].issued
    ensures Enabled(s, Age(l)) && FreesStale(Apply(s, Age(l)), k, id)
  {
  }

  lemma ActOnBoth(s: State, l: LoopId, k: LoopId, id: Id) returns (acts: seq<Action>, s': State)
    requires l != k && l in s.loops && k in s.loops && s.loops[l].Listing? && s.loops[k].Listing?
    requires id in s.tracked && s.tracked[id] && id in s.allocAt && s.allocAt[id] > s.loops[k].issued
    ensures Run(s, acts) == Some(s') && NoNewLoop(acts) && FreesStale(s', k, id)
  {
    hide *;
    Stay(s);
    acts, s' := [], s;
    AnswerFacts(s, l);
    acts, s' := Extend(s, acts, s', AnswerList(l, {}));
    AnswerFacts(s', k);
    acts, s' := Extend(s, acts, s', AnswerList(k, {}));
    AgeFacts(s', l, k, id);
    acts, s' := Extend(s, acts, s', Age(l));
  }

  lemma IssueFacts(s: State, l: LoopId, id: Id)
    requires PoolOk(s) && l in s.loops && s.loops[l].AtList? && Obtainable(s, id)
    ensures Enabled(s, IssueList(l))
    ensures var s' := Apply(s, IssueList(l));
            && PoolOk(s') && Obtainable(s', id) && s'.loops == s.loops[l := Listing(s.now)] && s'.now == s.now + 1
  {
  }

  lemma ListBoth(s: State, l: LoopId, k: LoopId, id: Id) returns (acts: seq<Action>, s': State)
    requires PoolOk(s) && l != k && l in s.loops && k in s.loops && s.loops[l].AtList? && s.loops[k].AtList?
    requires Obtainable(s, id)
    ensures Run(s, acts) == Some(s') && NoNewLoop(acts) && PoolOk(s') && Obtainable(s', id)
    ensures l in s'.loops && k in s'.loops && s'.loops[l].Listing? && s'.loops[k].Listing?
    ensures s'.loops[k].issued < s'.now
  {
    hide *;
    Stay(s);
    acts, s' := [], s;
    IssueFacts(s, l, id);
    acts, s' := Extend(s, acts, s', IssueList(l));
    IssueFacts(s', k, id);
    acts, s' := Extend(s, acts, s', IssueList(k));
  }

  lemma TwoLoopsExpose(s: State, l: LoopId, k: LoopId, id: Id) returns (acts: seq<Action>, s': State)
    requires PoolOk(s) && TimesOk(s) && l != k && Live(s, l) && Live(s, k) && Obtainable(s, id)
    ensures Run(s, acts) == Some(s') && NoNewLoop(acts) && FreesStale(s', k, id)
  {
    hide PoolOk, TimesOk, Run, NoNewLoop, FreesStale, Obtainable;
    var s1, s2, s3, s4, more;
    acts, s1 := Drive(s, l, id);
    more, s2 := Drive(s1, k, id);
    acts := Append(s, acts, s1, more, s2);
    more, s3 := ListBoth(s2, l, k, id);
    acts := Append(s, acts, s2, more, s3);
    more, s4 := Obtain(s3, id);
    acts := Append(s, acts, s3, more, s4);
    more, s' := ActOnBoth(s4, l, k, id);
    acts := Append(s, acts, s4, more, s');
  }

  lemma OutdatedExposes(s: State, l: LoopId, id: Id) returns (acts: seq<Action>, s': State)
    requires OutdatedFor(s, l, id)
    ensures Run(s, acts) == Some(s') && NoNewLoop(acts) && FreesStale(s', l, id)
  {
    Stay(s);
    hide Run;
    acts, s' := [], s;
    if s.loops[l].Listing? {
      acts, s' := Extend(s, acts, s', AnswerList(l, {}));
    }
  }

  /**
   Exactly when a token can be freed on stale evidence without any further loop: when two
   loops run and there is a token to allocate, or when the List of some loop is already
   older than the allocation of a stale token that it has not reported.
   */
  lemma {:induction false} StaleFreeReachableIff(s: State, acts: seq<Action>)
    requires IsInit(s) && Run(s, acts).Some?
    ensures var s' := Run(s, acts).value;
            CanFreeStale(s') <==> TwoLoops(s') || Outdated(s')
  {
    RunInv(s, acts);
    var s' := Run(s, acts).value;
    assert PoolOk(s') && TimesOk(s');
    hide PoolOk, TimesOk, Run, IsInit, Inv;
    if TwoLoops(s') {
      var l, k :| l != k && Live(s', l) && Live(s', k);
      var id :| Obtainable(s', id);
      var more, end := TwoLoopsExpose(s', l, k, id);
    } else if l, id :| OutdatedFor(s', l, id) {
      var more, end := OutdatedExposes(s', l, id);
    } else if CanFreeStale(s') {
      var more, l, id :| NoNewLoop(more) && Run(s', more).Some? && FreesStale(Run(s', more).value, l, id);
      FreesIsOutdated(Run(s', more).value, l, id);
      StaysUnexposed(s', more);
    }
  }

  lemma StartFacts(s: State, l: LoopId, id: Id)
    requires PoolOk(s) && TimesOk(s) && l !in s.loops && Obtainable(s, id)
    ensures Enabled(s, StartLoop(l))
    ensures var s' := Apply(s, StartLoop(l));
            PoolOk(s') && TimesOk(s') && Obtainable(s', id) && s'.loops == s.loops[l := AtList]
  {
  }

  lemma StartTwo(s: State, id: Id) returns (acts: seq<Action>, s': State)
    requires IsInit(s) && Obtainable(s, id)
    ensures Run(s, acts) == Some(s') && PoolOk(s') && TimesOk(s') && Live(s', 0) && Live(s', 1) && Obtainable(s', id)
  {
    assert Run(s, []) == Some(s) && PoolOk(s) && TimesOk(s) && s.loops == map[];
    hide Run, PoolOk, TimesOk, Obtainable, Apply, Enabled, IsInit;
    acts, s' := [], s;
    StartFacts(s, 0, id);
    acts, s' := Follow(s, acts, s', StartLoop(0));
    StartFacts(s', 1, id);
    acts, s' := Follow(s, acts, s', StartLoop(1));
  }

  /**
   Two loops that overlap (a kubelet that reconnects while the old stream is polling) can
   free a token although the List behind the poll was issued before it was allocated: this
   is so from every start in which the server has a token.
   */
  lemma TwoLoopsFreeOnStaleEvidence(s: State, id: Id) returns (acts: seq<Action>)
    requires IsInit(s) && Obtainable(s, id)
    ensures Run(s, acts).Some? && FreesStale(Run(s, acts).value, 1, id)
  {
    RunInv(s, []);
    hide FreesStale, Obtainable, NoNewLoop;
    var mid, more, end;
    acts, mid := StartTwo(s, id);
    more, end := TwoLoopsExpose(mid, 0, 1, id);
    RunConcat(s, acts, more);
    acts := acts + more;
  }
}
