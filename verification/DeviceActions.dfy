/**
 What the state of a run of the device plugin has to do with its actions: which List a
 loop acts on and what it answered, when tokens were allocated, which wake-ups are pending.
 */
module DeviceActions {
  import opened Wrappers
  import opened DeviceTokens
  import opened DeviceProtocol

  // ---------- the clock and the history ----------

  lemma ClockStep(s: State, a: Action)
    requires Enabled(s, a)
    ensures Apply(s, a).now == s.now + 1 && Apply(s, a).owned == s.owned
  {
    hide BatchOk, Aged, Released;
  }

  /** Steps are numbered: action k happens at time k after the start. */
  lemma {:induction false} ClockCounts(s: State, acts: seq<Action>)
    requires Run(s, acts).Some?
    ensures Run(s, acts).value.now == s.now + |acts| && Run(s, acts).value.owned == s.owned
  {
    if acts == [] {
    } else {
      ClockCounts(s, acts[..|acts| - 1]);
      ClockStep(Run(s, acts[..|acts| - 1]).value, acts[|acts| - 1]);
      hide Apply, Enabled;
    }
  }

  lemma {:induction false} PrefixRuns(s: State, acts: seq<Action>, k: nat)
    requires Run(s, acts).Some? && k <= |acts|
    ensures Run(s, acts[..k]).Some? && (k < |acts| ==> Enabled(Run(s, acts[..k]).value, acts[k]))
    decreases |acts|
  {
    if k == |acts| {
      assert acts[..k] == acts;
    } else if k < |acts| - 1 {
      PrefixRuns(s, acts[..|acts| - 1], k);
      assert acts[..|acts| - 1][..k] == acts[..k];
    }
  }

  // ---------- where a loop is ----------

  predicate IsStepOf(a: Action, l: LoopId) {
    match a
    case Use(_) => false
    case Notify => false
    case PoolChanged => false
    case Others(_, _) => false
    case _ => a.l == l
  }

  /** The number of the last step of loop l. */
  function LastStep(acts: seq<Action>, l: LoopId): Option<nat> {
    if acts == [] then None
    else if IsStepOf(acts[|acts| - 1], l) then Some(|acts| - 1)
    else LastStep(acts[..|acts| - 1], l)
  }

  lemma {:induction false} LastStepIs(acts: seq<Action>, l: LoopId)
    ensures LastStep(acts, l).Some? ==>
              LastStep(acts, l).value < |acts| && IsStepOf(acts[LastStep(acts, l).value], l)
    ensures forall k :: 0 <= k < |acts| && IsStepOf(acts[k], l) ==>
              LastStep(acts, l).Some? && k <= LastStep(acts, l).value
  {
    if acts == [] {
    } else {
      LastStepIs(acts[..|acts| - 1], l);
    }
  }

  /** Loop l has issued a List at step j, and it was answered with `seen` at step k, the last two steps of l. */
  ghost predicate Answered(acts: seq<Action>, l: LoopId, j: nat, k: nat, seen: set<Id>) {
    && LastStep(acts, l) == Some(k) && j < k < |acts| && acts[k] == AnswerList(l, seen)
    && LastStep(acts[..k], l) == Some(j) && acts[j] == IssueList(l)
  }

  /** The place of a loop in its round is what its last step says, and its List what its last two steps say. */
  ghost predicate Placed(acts: seq<Action>, start: nat, l: LoopId, loop: Loop) {
    && LastStep(acts, l).Some? && LastStep(acts, l).value < |acts|
    && var k := LastStep(acts, l).value;
       match acts[k]
       case StartLoop(_) => loop == AtList
       case IssueList(_) => loop == Listing(start + k)
       case AnswerList(_, seen) =>
         loop.Listed? && exists j: nat :: Answered(acts, l, j, k, seen) && loop == Listed(seen, start + j)
       case FailList(_) => loop == Stopped
       case Age(_) => loop == Reporting
       case Report(_, ok) => loop == if ok then Waiting else Stopped
       case WakeBySlot(_) => loop == AtList
       case WakeByTimeout(_) => loop == AtList
       case Stop(_) => loop == Stopped
       case _ => false
  }

  lemma LastStepSnoc(init: seq<Action>, a: Action, l: LoopId)
    ensures LastStep(init + [a], l) == if IsStepOf(a, l) then Some(|init|) else LastStep(init, l)
  {
    assert (init + [a])[..|init|] == init;
  }

  lemma PlacedStays(init: seq<Action>, a: Action, start: nat, l: LoopId, loop: Loop)
    requires Placed(init, start, l, loop) && !IsStepOf(a, l)
    ensures Placed(init + [a], start, l, loop)
  {
    LastStepSnoc(init, a, l);
    var k := LastStep(init, l).value;
    if init[k].AnswerList? {
      var seen := init[k].seen;
      var j: nat :| Answered(init, l, j, k, seen) && loop == Listed(seen, start + j);
      assert (init + [a])[..k] == init[..k];
      assert Answered(init + [a], l, j, k, seen);
    }
  }

  lemma AnswerIsPlaced(init: seq<Action>, start: nat, l: LoopId, loop: Loop, seen: set<Id>)
    requires Placed(init, start, l, loop) && loop.Listing?
    ensures Placed(init + [AnswerList(l, seen)], start, l, Listed(seen, loop.issued))
  {
    LastStepSnoc(init, AnswerList(l, seen), l);
    LastStepIs(init, l);
    var j := LastStep(init, l).value;
    assert (init + [AnswerList(l, seen)])[..|init|] == init;
    assert Answered(init + [AnswerList(l, seen)], l, j, |init|, seen);
  }

  lemma OwnStepPlaces(s: State, init: seq<Action>, start: nat, a: Action, l: LoopId)
    requires Enabled(s, a) && IsStepOf(a, l) && s.now == start + |init|
    requires l in s.loops ==> Placed(init, start, l, s.loops[l])
    ensures l in Apply(s, a).loops && Placed(init + [a], start, l, Apply(s, a).loops[l])
  {
    if a.AnswerList? {
      AnswerIsPlaced(init, start, l, s.loops[l], a.seen);
    } else {
      LastStepSnoc(init, a, l);
    }
  }

  lemma OthersKeepLoop(s: State, a: Action, l: LoopId)
    requires Enabled(s, a) && !IsStepOf(a, l)
    ensures l in Apply(s, a).loops <==> l in s.loops
    ensures l in s.loops ==> Apply(s, a).loops[l] == s.loops[l]
  {
  }

  /**
   In every run a loop is where its last step has put it.  When it is about to age, the ids
   it goes by are those of the last answer it got, to the List that it issued before.
   */
  lemma {:induction false} LoopFollowsItsSteps(s: State, acts: seq<Action>, l: LoopId)
    requires IsInit(s) && Run(s, acts).Some?
    ensures l in Run(s, acts).value.loops <==> LastStep(acts, l).Some?
    ensures l in Run(s, acts).value.loops ==> Placed(acts, s.now, l, Run(s, acts).value.loops[l])
  {
    if acts == [] {
    } else {
      var init, a := acts[..|acts| - 1], acts[|acts| - 1];
      LoopFollowsItsSteps(s, init, l);
      ClockCounts(s, init);
      assert acts == init + [a];
      var mid := Run(s, init).value;
      LastStepSnoc(init, a, l);
      hide Placed, Apply, Enabled, IsInit;
      if IsStepOf(a, l) {
        OwnStepPlaces(mid, init, s.now, a, l);
      } else {
        OthersKeepLoop(mid, a, l);
        if l in mid.loops {
          PlacedStays(init, a, s.now, l, mid.loops[l]);
        }
      }
    }
  }

  // ---------- when a token was allocated ----------

  /** Action k is a batch that names id and succeeds. */
  ghost predicate Allocates(s: State, acts: seq<Action>, k: nat, id: Id) {
    && k < |acts| && acts[k].Use? && id in acts[k].ids && Run(s, acts[..k]).Some?
    && Distinct(acts[k].ids) && forall x :: x in acts[k].ids ==> x in Run(s, acts[..k]).value.free
  }

  /** Action k is the last one that allocates id. */
  ghost predicate LastAllocates(s: State, acts: seq<Action>, k: nat, id: Id) {
    Allocates(s, acts, k, id) && forall m: nat :: k < m < |acts| ==> !Allocates(s, acts, m, id)
  }

  lemma AllocatesSnoc(s: State, init: seq<Action>, a: Action, k: nat, id: Id)
    ensures k < |init| ==> (Allocates(s, init + [a], k, id) <==> Allocates(s, init, k, id))
  {
    if k < |init| {
      assert (init + [a])[..k] == init[..k];
    }
  }

  lemma AllocatesNow(s: State, init: seq<Action>, a: Action, id: Id)
    requires Run(s, init).Some? && Enabled(Run(s, init).value, a)
    ensures var mid := Run(s, init).value;
            if Allocates(s, init + [a], |init|, id) then
              id in Apply(mid, a).allocAt && Apply(mid, a).allocAt[id] == mid.now
            else
              && (id in Apply(mid, a).allocAt <==> id in mid.allocAt)
              && (id in mid.allocAt ==> Apply(mid, a).allocAt[id] == mid.allocAt[id])
  {
    assert (init + [a])[..|init|] == init;
    if a.Use? {
      assert SetOf(a.ids) <= Run(s, init).value.free <==> forall x :: x in a.ids ==> x in Run(s, init).value.free;
    }
  }

  /** The recorded time of a token's allocation is that of the last batch of the run that allocated it. */
  lemma {:induction false} AllocatedWhen(s: State, acts: seq<Action>, id: Id)
    requires IsInit(s) && Run(s, acts).Some?
    ensures var allocAt := Run(s, acts).value.allocAt;
            if id in allocAt then allocAt[id] >= s.now && LastAllocates(s, acts, allocAt[id] - s.now, id)
            else forall k: nat :: !Allocates(s, acts, k, id)
  {
    if acts == [] {
    } else {
      var init, a := acts[..|acts| - 1], acts[|acts| - 1];
      AllocatedWhen(s, init, id);
      ClockCounts(s, init);
      AllocatesNow(s, init, a, id);
      assert acts == init + [a];
      forall k: nat ensures k < |init| ==> (Allocates(s, acts, k, id) <==> Allocates(s, init, k, id)) {
        AllocatesSnoc(s, init, a, k, id);
      }
      assert forall k: nat :: k > |init| ==> !Allocates(s, acts, k, id);
      hide Allocates, Apply, Enabled;
    }
  }

  lemma AgeingStep(s: State, a: Action)
    requires Enabled(s, a)
    ensures Apply(s, a).agedAt == if a.Age? then s.now else s.agedAt
  {
  }

  lemma {:induction false} AgedWhen(s: State, acts: seq<Action>, j: nat)
    requires IsInit(s) && Run(s, acts).Some? && forall m :: j <= m < |acts| ==> !acts[m].Age?
    ensures Run(s, acts).value.agedAt < s.now + j
  {
    if acts == [] {
    } else {
      var init, a := acts[..|acts| - 1], acts[|acts| - 1];
      ClockCounts(s, init);
      AgeingStep(Run(s, init).value, a);
      if !a.Age? {
        AgedWhen(s, init, j);
      }
    }
  }

  /** Some loop has aged since loop l issued its last List. */
  predicate AgedSinceList(acts: seq<Action>, l: LoopId) {
    acts != [] &&
    var last := acts[|acts| - 1];
    last.Age? || (last != IssueList(l) && AgedSinceList(acts[..|acts| - 1], l))
  }

  lemma {:induction false} NotAgedSince(acts: seq<Action>, l: LoopId, j: nat)
    requires j < |acts| && acts[j] == IssueList(l) && !AgedSinceList(acts, l)
    requires forall m :: j < m < |acts| ==> acts[m] != IssueList(l)
    ensures forall m :: j <= m < |acts| ==> !acts[m].Age?
  {
    if j < |acts| - 1 {
      NotAgedSince(acts[..|acts| - 1], l, j);
    }
  }

  lemma OnlyListIs(acts: seq<Action>, l: LoopId, j: nat, k: nat)
    requires Answered(acts, l, j, k, if k < |acts| && acts[k].AnswerList? then acts[k].seen else {})
    ensures forall m :: j < m < |acts| ==> acts[m] != IssueList(l)
  {
    LastStepIs(acts, l);
    LastStepIs(acts[..k], l);
    forall m | j < m < |acts| ensures acts[m] != IssueList(l) {
      if m < k {
        assert acts[..k][m] == acts[m];
      }
    }
  }

  /**
   No stale evidence, told by the actions alone: if loop l is about to age, its List was
   issued at step j and answered at step k, and no loop has aged since it was issued, then
   the token that it frees was last allocated before step j, and the answer does not list it.
   */
  lemma {:induction false} FreedOnFreshEvidence(s: State, acts: seq<Action>, l: LoopId, id: Id)
    returns (u: nat, j: nat, k: nat, seen: set<Id>)
    requires IsInit(s) && Run(s, acts).Some? && Enabled(Run(s, acts).value, Age(l))
    requires id in Run(s, acts).value.tracked && id !in Apply(Run(s, acts).value, Age(l)).tracked
    requires !AgedSinceList(acts, l)
    ensures Answered(acts, l, j, k, seen) && LastAllocates(s, acts, u, id) && u < j && id !in seen
  {
    var s' := Run(s, acts).value;
    LoopFollowsItsSteps(s, acts, l);
    var loop := s'.loops[l];
    k := LastStep(acts, l).value;
    seen := acts[k].seen;
    j :| Answered(acts, l, j, k, seen) && loop == Listed(seen, s.now + j);
    OnlyListIs(acts, l, j, k);
    NotAgedSince(acts, l, j);
    AgedWhen(s, acts, j);
    AllocatedWhen(s, acts, id);
    hide Run, Allocates, Answered, Enabled;
    NeverFreedOnStaleEvidence(s, acts, l, id);
    u := s'.allocAt[id] - s.now;
  }

  /** The loop ends with this step: the List or the Send failed, or the server stops. */
  predicate Ends(a: Action) {
    a.FailList? || a.Stop? || (a.Report? && !a.ok)
  }

  /** Loop l was started and has not ended. */
  predicate StillRuns(acts: seq<Action>, l: LoopId) {
    LastStep(acts, l).Some? && LastStep(acts, l).value < |acts| && !Ends(acts[LastStep(acts, l).value])
  }

  /** At some moment a loop was started while another one was running. */
  ghost predicate Overlap(acts: seq<Action>) {
    acts != [] &&
    var init := acts[..|acts| - 1];
    Overlap(init) || (acts[|acts| - 1].StartLoop? && exists l :: StillRuns(init, l))
  }

  lemma RunsIfNotStopped(s: State, acts: seq<Action>, l: LoopId)
    requires IsInit(s) && Run(s, acts).Some?
    ensures StillRuns(acts, l) <==> l in Run(s, acts).value.loops && !Run(s, acts).value.loops[l].Stopped?
  {
    LoopFollowsItsSteps(s, acts, l);
    hide Run;
  }

  lemma OverlapStep(s: State, a: Action)
    requires Enabled(s, a)
    ensures Apply(s, a).overlapped <==>
              s.overlapped || (a.StartLoop? && exists l :: l in s.loops && !s.loops[l].Stopped?)
  {
  }

  lemma {:induction false} OverlapIsRecorded(s: State, acts: seq<Action>)
    requires IsInit(s) && Run(s, acts).Some?
    ensures Run(s, acts).value.overlapped <==> Overlap(acts)
  {
    if acts == [] {
    } else {
      var init := acts[..|acts| - 1];
      OverlapIsRecorded(s, init);
      OverlapStep(Run(s, init).value, acts[|acts| - 1]);
      forall l ensures StillRuns(init, l) <==> l in Run(s, init).value.loops && !Run(s, init).value.loops[l].Stopped? {
        RunsIfNotStopped(s, init, l);
      }
      hide StillRuns, Apply, Enabled, IsInit;
    }
  }

  /**
   With poll loops that never overlap no token is ever freed on stale evidence: the List
   behind the ageing that frees it was issued after the token's last allocation.
   */
  lemma {:induction false} OneLoopIsNeverStale(s: State, acts: seq<Action>, l: LoopId, id: Id)
    returns (u: nat, j: nat, k: nat, seen: set<Id>)
    requires IsInit(s) && Run(s, acts).Some? && Enabled(Run(s, acts).value, Age(l)) && !Overlap(acts)
    requires id in Run(s, acts).value.tracked && id !in Apply(Run(s, acts).value, Age(l)).tracked
    ensures Answered(acts, l, j, k, seen) && LastAllocates(s, acts, u, id) && u < j && id !in seen
  {
    LoopFollowsItsSteps(s, acts, l);
    OverlapIsRecorded(s, acts);
    RunInv(s, acts);
    AllocatedWhen(s, acts, id);
    var s' := Run(s, acts).value;
    assert l in s'.loops && s'.loops[l].Listed?;
    assert id in Released(s'.tracked, s'.loops[l].seen);
    hide Run, Allocates, Answered, Enabled, Overlap, IsInit, Apply;
    assert ListsFollowAgeing(s') && s'.agedAt < s'.loops[l].issued;
    NeverFreedOnStaleEvidence(s, acts, l, id);
    hide Inv, ListsFollowAgeing;
    k := LastStep(acts, l).value;
    seen := acts[k].seen;
    j :| Answered(acts, l, j, k, seen) && s'.loops[l] == Listed(seen, s.now + j);
    u := s'.allocAt[id] - s.now;
  }

  // ---------- the grace period among interleaved loops ----------

  /** What the last answer to loop l lists. */
  function LastAnswer(acts: seq<Action>, l: LoopId): set<Id> {
    if acts == [] then {}
    else
      var last := acts[|acts| - 1];
      if last.AnswerList? && last.l == l then last.seen else LastAnswer(acts[..|acts| - 1], l)
  }

  lemma AnsweredLast(acts: seq<Action>, l: LoopId, k: nat)
    requires LastStep(acts, l) == Some(k) && k < |acts| && acts[k].AnswerList? && acts[k].l == l
    ensures LastAnswer(acts, l) == acts[k].seen
    decreases |acts|
  {
    LastStepIs(acts, l);
    if k < |acts| - 1 {
      AnsweredLast(acts[..|acts| - 1], l, k);
    }
  }

  lemma ListedIsLastAnswer(s: State, acts: seq<Action>, l: LoopId)
    requires IsInit(s) && Run(s, acts).Some? && l in Run(s, acts).value.loops
    requires Run(s, acts).value.loops[l].Listed?
    ensures Run(s, acts).value.loops[l].seen == LastAnswer(acts, l)
  {
    LoopFollowsItsSteps(s, acts, l);
    LastStepIs(acts, l);
    AnsweredLast(acts, l, LastStep(acts, l).value);
  }

  /** The batches and polls of a run, in the order in which they took the lock, with what the Lists answered. */
  ghost function OpsOf(s: State, acts: seq<Action>): seq<TokenOp>
    requires Run(s, acts).Some?
  {
    if acts == [] then []
    else
      var init := acts[..|acts| - 1];
      OpsOf(s, init) +
      match acts[|acts| - 1]
      case Use(ids) =>
        [Batch(ids, Distinct(ids) && forall x :: x in ids ==> x in Run(s, init).value.free)]
      case Age(l) => [Poll(LastAnswer(init, l))]
      case _ => []
  }

  lemma BatchOkMeans(free: set<Id>, ids: seq<Id>)
    ensures BatchOk(free, ids) <==> Distinct(ids) && forall x :: x in ids ==> x in free
  {
    assert SetOf(ids) <= free <==> forall x :: x in ids ==> x in free;
  }

  lemma TrackUse(s: State, ops: seq<TokenOp>, ids: seq<Id>, ok: bool)
    requires Enabled(s, Use(ids)) && s.tracked == Track(ops)
    requires ok <==> Distinct(ids) && forall x :: x in ids ==> x in s.free
    ensures Apply(s, Use(ids)).tracked == Track(ops + [Batch(ids, ok)])
  {
    assert (ops + [Batch(ids, ok)])[..|ops|] == ops;
    BatchOkMeans(s.free, ids);
    hide BatchOk, Distinct, SetOf, AllFresh;
  }

  lemma TrackAge(s: State, ops: seq<TokenOp>, l: LoopId)
    requires Enabled(s, Age(l)) && s.tracked == Track(ops)
    ensures Apply(s, Age(l)).tracked == Track(ops + [Poll(s.loops[l].seen)])
  {
    assert (ops + [Poll(s.loops[l].seen)])[..|ops|] == ops;
  }

  lemma TrackOther(s: State, a: Action)
    requires Enabled(s, a) && !a.Use? && !a.Age?
    ensures Apply(s, a).tracked == s.tracked
  {
  }

  /** The tracked tokens of a run are those of its batches and of the answers that were aged by. */
  lemma {:induction false} TrackedIsTrack(s: State, acts: seq<Action>)
    requires IsInit(s) && Run(s, acts).Some?
    ensures Run(s, acts).value.tracked == Track(OpsOf(s, acts))
  {
    if acts == [] {
      assert OpsOf(s, acts) == [];
    } else {
      var init, a := acts[..|acts| - 1], acts[|acts| - 1];
      TrackedIsTrack(s, init);
      var mid := Run(s, init).value;
      match a
      case Use(ids) =>
        TrackUse(mid, OpsOf(s, init), ids, Distinct(ids) && forall x :: x in ids ==> x in mid.free);
      case Age(l) =>
        ListedIsLastAnswer(s, init, l);
        TrackAge(mid, OpsOf(s, init), l);
      case _ =>
        TrackOther(mid, a);
        assert OpsOf(s, acts) == OpsOf(s, init);
    }
  }

  /**
   In every run, with any number of loops and batches interleaved, the flag of a tracked
   token is a counter of the answers that did not list it, and the next ageing frees the
   token if and only if its answer is the second such one in a row.
   */
  lemma {:induction false} RunFreesAtSecondMiss(s: State, acts: seq<Action>, l: LoopId, id: Id)
    requires IsInit(s) && Run(s, acts).Some? && Enabled(Run(s, acts).value, Age(l))
    requires id in Run(s, acts).value.tracked
    ensures var s', ops := Run(s, acts).value, OpsOf(s, acts);
            && (s'.tracked[id] <==> Misses(ops, id) == 0)
            && (id !in Apply(s', Age(l)).tracked <==> Misses(ops + [Poll(LastAnswer(acts, l))], id) == 2)
  {
    TrackedIsTrack(s, acts);
    var s' := Run(s, acts).value;
    ListedIsLastAnswer(s, acts, l);
    var ops := OpsOf(s, acts);
    FlagCountsMisses(ops, id);
    FreedAtSecondMiss(ops, s'.loops[l].seen, id);
    TrackAge(s', ops, l);
  }

  /** The last poll did not see the token, and it was not allocated since. */
  lemma {:induction false} OneMissMeans(ops: seq<TokenOp>, id: Id) returns (k: nat)
    requires id in Track(ops) && Misses(ops, id) == 1
    ensures k < |ops| && ops[k].Poll? && id !in ops[k].seen
    ensures forall m :: k < m < |ops| ==> !ops[m].Poll? && !(ops[m].ok && id in ops[m].ids)
  {
    var before, op := ops[..|ops| - 1], ops[|ops| - 1];
    if op.Poll? {
      k := |ops| - 1;
    } else {
      k := OneMissMeans(before, id);
    }
  }

  /**
   An ageing frees a token only if neither the answer it goes by nor that of the ageing
   before it lists the token, and the token was not allocated in between.
   */
  lemma {:induction false} TwoAnswersMissIt(s: State, acts: seq<Action>, l: LoopId, id: Id) returns (k: nat)
    requires IsInit(s) && Run(s, acts).Some? && Enabled(Run(s, acts).value, Age(l))
    requires id in Run(s, acts).value.tracked && id !in Apply(Run(s, acts).value, Age(l)).tracked
    ensures id !in LastAnswer(acts, l)
    ensures var ops := OpsOf(s, acts);
            && k < |ops| && ops[k].Poll? && id !in ops[k].seen
            && forall m :: k < m < |ops| ==> !ops[m].Poll? && !(ops[m].ok && id in ops[m].ids)
  {
    RunFreesAtSecondMiss(s, acts, l, id);
    TrackedIsTrack(s, acts);
    var ops := OpsOf(s, acts);
    assert (ops + [Poll(LastAnswer(acts, l))])[..|ops|] == ops;
    FlagCountsMisses(ops, id);
    hide Run, Apply, Enabled, OpsOf, LastAnswer;
    k := OneMissMeans(ops, id);
  }

  // ---------- wake-ups ----------

  /** A wake-up is sent: at the end of an Allocate, or by the pool's listener. */
  predicate Signals(a: Action) {
    a.Notify? || a.PoolChanged?
  }

  /** Some wake-up came after the last List that was issued. */
  predicate Unanswered(acts: seq<Action>) {
    acts != [] &&
    var last := acts[|acts| - 1];
    Signals(last) || (!last.IssueList? && Unanswered(acts[..|acts| - 1]))
  }

  /** Some wake-up came after the last one that was taken from the slot. */
  predicate Untaken(acts: seq<Action>) {
    acts != [] &&
    var last := acts[|acts| - 1];
    Signals(last) || (!last.WakeBySlot? && Untaken(acts[..|acts| - 1]))
  }

  function Batches(acts: seq<Action>): nat {
    if acts == [] then 0 else Batches(acts[..|acts| - 1]) + (if acts[|acts| - 1].Use? then 1 else 0)
  }

  function Notifies(acts: seq<Action>): nat {
    if acts == [] then 0 else Notifies(acts[..|acts| - 1]) + (if acts[|acts| - 1].Notify? then 1 else 0)
  }

  lemma WakeUpStep(s: State, a: Action)
    requires Enabled(s, a)
    ensures var s' := Apply(s, a);
            && (s'.dirty <==> Signals(a) || (s.dirty && !a.IssueList?))
            && (s'.slot <==> Signals(a) || (s.slot && !a.WakeBySlot?))
            && s'.pending + (if a.Notify? then 1 else 0) == s.pending + (if a.Use? then 1 else 0)
  {
  }

  /**
   The one-slot channel coalesces: it is full exactly if a wake-up was sent since the last
   one was taken.  Every batch, successful or not, is owed one wake-up.
   */
  lemma {:induction false} SlotCoalesces(s: State, acts: seq<Action>)
    requires IsInit(s) && Run(s, acts).Some?
    ensures var s' := Run(s, acts).value;
            && (s'.slot <==> Untaken(acts)) && (s'.dirty <==> Unanswered(acts))
            && s'.pending + Notifies(acts) == Batches(acts)
            && (s'.pending > 0 ==> Enabled(s', Notify))
  {
    if acts == [] {
    } else {
      SlotCoalesces(s, acts[..|acts| - 1]);
      WakeUpStep(Run(s, acts[..|acts| - 1]).value, acts[|acts| - 1]);
    }
  }

  lemma {:induction false} SentAndNoList(acts: seq<Action>, k: nat)
    requires k < |acts| && Signals(acts[k]) && forall m :: k < m < |acts| ==> !acts[m].IssueList?
    ensures Unanswered(acts)
  {
    if k < |acts| - 1 {
      SentAndNoList(acts[..|acts| - 1], k);
    }
  }

  /**
   No wake-up is lost: whenever an Allocate has sent one, or the pool's listener, and no
   List was issued since, the slot is full or a loop is about to list.
   */
  lemma {:induction false} NoLostWakeUp(s: State, acts: seq<Action>, k: nat)
    requires IsInit(s) && Run(s, acts).Some?
    requires k < |acts| && Signals(acts[k]) && forall m :: k < m < |acts| ==> !acts[m].IssueList?
    ensures var s' := Run(s, acts).value;
            s'.slot || exists l :: l in s'.loops && s'.loops[l].AtList?
  {
    SlotCoalesces(s, acts);
    SentAndNoList(acts, k);
    RunInv(s, acts);
  }

  // ---------- what can happen ----------

  /** The last step of loop l, if it has started. */
  function LastOf(acts: seq<Action>, l: LoopId): Option<Action> {
    if LastStep(acts, l).Some? && LastStep(acts, l).value < |acts| then Some(acts[LastStep(acts, l).value]) else None
  }

  lemma PlaceIsLast(s: State, acts: seq<Action>, l: LoopId)
    requires IsInit(s) && Run(s, acts).Some?
    ensures var loops := Run(s, acts).value.loops;
            match LastOf(acts, l)
            case None => l !in loops
            case Some(a) => l in loops && Placed(acts, s.now, l, loops[l])
  {
    LoopFollowsItsSteps(s, acts, l);
    LastStepIs(acts, l);
  }

  /**
   The round of a ListAndWatch loop, told by its last step: it lists when it starts and after
   each wake-up, the List may answer anything or fail, then it ages, then it reports, then it
   waits for the slot, the timeout or the end.
   */
  lemma {:induction false} RoundOrder(s: State, acts: seq<Action>, l: LoopId, seen: set<Id>, ok: bool)
    requires IsInit(s) && Run(s, acts).Some?
    ensures var s' := Run(s, acts).value;
            var last := LastOf(acts, l);
            && (Enabled(s', StartLoop(l)) <==> last.None?)
            && (Enabled(s', IssueList(l)) <==>
                  last.Some? && (last.value.StartLoop? || last.value.WakeBySlot? || last.value.WakeByTimeout?))
            && (Enabled(s', AnswerList(l, seen)) <==> last.Some? && last.value.IssueList?)
            && (Enabled(s', FailList(l)) <==> last.Some? && last.value.IssueList?)
            && (Enabled(s', Age(l)) <==> last.Some? && last.value.AnswerList?)
            && (Enabled(s', Report(l, ok)) <==> last.Some? && last.value.Age?)
            && (Enabled(s', WakeBySlot(l)) <==> last.Some? && last.value.Report? && last.value.ok && Untaken(acts))
            && (Enabled(s', WakeByTimeout(l)) <==> last.Some? && last.value.Report? && last.value.ok)
            && (Enabled(s', Stop(l)) <==> last.Some? && last.value.Report? && last.value.ok)
  {
    PlaceIsLast(s, acts, l);
    SlotCoalesces(s, acts);
    hide Run, IsInit, LastStep;
  }

  /** The tokens that are owned are free and held as before. */
  ghost predicate SameOwned(s: State, owned: set<Id>, free: set<Id>, held: set<Id>) {
    forall id :: id in owned ==> (id in free <==> id in s.free) && (id in held <==> id in s.held)
  }

  lemma BatchesAreFree(s: State, ids: seq<Id>)
    ensures Enabled(s, Use(ids)) <==> forall id :: id in ids ==> id in s.owned
    ensures (Enabled(s, Notify) <==> s.pending > 0) && Enabled(s, PoolChanged)
  {
  }

  lemma OthersAreFree(s: State, free: set<Id>, held: set<Id>)
    requires free !! held
    requires SameOwned(s, s.owned, free, held)
    ensures Enabled(s, Others(free, held))
    ensures Apply(s, Others(free, held)).free == free && Apply(s, Others(free, held)).held == held
  {
    assert free * s.owned == s.free * s.owned && held * s.owned == s.held * s.owned;
  }

  /**
   The kubelet may ask for any batch of the server's tokens at any time, every batch is owed
   one wake-up, and the other servers may change the rest of the pool as they like.
   */
  lemma {:induction false} CallersAreFree(s: State, acts: seq<Action>, ids: seq<Id>, free: set<Id>, held: set<Id>)
    requires IsInit(s) && Run(s, acts).Some?
    ensures var s' := Run(s, acts).value;
            && (Enabled(s', Use(ids)) <==> forall id :: id in ids ==> id in s.owned)
            && (Enabled(s', Notify) <==> Notifies(acts) < Batches(acts)) && Enabled(s', PoolChanged)
            && (free !! held && SameOwned(s', s.owned, free, held) ==>
                  && Enabled(s', Others(free, held))
                  && Apply(s', Others(free, held)).free == free && Apply(s', Others(free, held)).held == held)
  {
    ClockCounts(s, acts);
    SlotCoalesces(s, acts);
    var s' := Run(s, acts).value;
    hide Run, IsInit, Batches, Notifies, Untaken, Unanswered;
    BatchesAreFree(s', ids);
    if free !! held && SameOwned(s', s.owned, free, held) {
      OthersAreFree(s', free, held);
    }
    hide Enabled, Apply;
  }
}
