/**
 The poll loop of the device plugin interleaved with any Allocate calls, with other
 users of the token pool and with wake-ups.  A poll is five steps: List is issued,
 List answers, the tokens are aged, the response is sent, the loop waits.
 */
module DeviceProtocol {
  import opened Wrappers
  import opened DeviceTokens

  type LoopId = nat

  /** Where a ListAndWatch loop is; `issued` is when its List was issued. */
  datatype Loop = AtList | Listing(issued: nat) | Listed(seen: set<Id>, issued: nat) | Reporting | Waiting | Stopped

  /**
   `now` counts steps.  History: `allocAt` is when a token was last allocated, `agedAt`
   when tokens were last aged, `dirty` that a wake-up was sent and no List was
   issued since, `overlapped` that a loop was started while another was running.
   */
  datatype State = State(
    owned: set<Id>, free: set<Id>, held: set<Id>, tracked: Tracked, slot: bool, pending: nat,
    loops: map<LoopId, Loop>, now: nat, allocAt: map<Id, nat>, agedAt: nat, dirty: bool,
    overlapped: bool)

  datatype Action =
    | StartLoop(l: LoopId)
    | IssueList(l: LoopId)
    | AnswerList(l: LoopId, seen: set<Id>)
    | FailList(l: LoopId)
    | Age(l: LoopId)
    | Report(l: LoopId, ok: bool)
    | WakeBySlot(l: LoopId)
    | WakeByTimeout(l: LoopId)
    | Stop(l: LoopId)
    | Use(ids: seq<Id>)              // the locked part of Allocate
    | Notify                         // the wake-up at the end of Allocate
    | PoolChanged                    // the pool's listener
    | Others(free: set<Id>, held: set<Id>)  // other servers use the pool

  predicate Enabled(s: State, a: Action) {
    match a
    case StartLoop(l) => l !in s.loops
    case IssueList(l) => l in s.loops && s.loops[l].AtList?
    case AnswerList(l, _) => l in s.loops && s.loops[l].Listing?
    case FailList(l) => l in s.loops && s.loops[l].Listing?
    case Age(l) => l in s.loops && s.loops[l].Listed?
    case Report(l, _) => l in s.loops && s.loops[l].Reporting?
    case WakeBySlot(l) => l in s.loops && s.loops[l].Waiting? && s.slot
    case WakeByTimeout(l) => l in s.loops && s.loops[l].Waiting?
    case Stop(l) => l in s.loops && s.loops[l].Waiting?
    case Use(ids) => SetOf(ids) <= s.owned
    case Notify => s.pending > 0
    case PoolChanged => true
    case Others(free, held) =>
      free !! held && free * s.owned == s.free * s.owned && held * s.owned == s.held * s.owned
  }

  function Move(s: State, l: LoopId, loop: Loop): State {
    s.(loops := s.loops[l := loop])
  }

  function Effect(s: State, a: Action): State
    requires Enabled(s, a)
  {
    match a
    case StartLoop(l) =>
      Move(s, l, AtList).(overlapped := s.overlapped || exists k :: k in s.loops && !s.loops[k].Stopped?)
    case IssueList(l) => Move(s, l, Listing(s.now)).(dirty := false)
    case AnswerList(l, seen) => Move(s, l, Listed(seen, s.loops[l].issued))
    case FailList(l) => Move(s, l, Stopped)
    case Age(l) =>
      var seen := s.loops[l].seen;
      Move(s, l, Reporting).(
        tracked := Aged(s.tracked, seen), agedAt := s.now,
        held := s.held - Released(s.tracked, seen), free := s.free + Released(s.tracked, seen))
    case Report(l, ok) => Move(s, l, if ok then Waiting else Stopped)
    case WakeBySlot(l) => Move(s, l, AtList).(slot := false)
    case WakeByTimeout(l) => Move(s, l, AtList)
    case Stop(l) => Move(s, l, Stopped)
    case Use(ids) =>
      s.(tracked := TrackedAfter(s.tracked, s.free, ids),
         held := HeldAfter(s.held, s.free, ids), free := FreeAfter(s.held, s.free, ids),
         pending := s.pending + 1,
         allocAt := if BatchOk(s.free, ids) then s.allocAt + (map id | id in ids :: s.now) else s.allocAt)
    case Notify => s.(pending := s.pending - 1, slot := true, dirty := true)
    case PoolChanged => s.(slot := true, dirty := true)
    case Others(free, held) => s.(free := free, held := held)
  }

  function Apply(s: State, a: Action): State
    requires Enabled(s, a)
  {
    var s' := Effect(s, a);
    s'.(now := s.now + 1)
  }

  /** At start-up some of the server's tokens are held already: they are restored and not tracked. */
  predicate IsInit(s: State) {
    && s.free !! s.held && s.tracked == map[] && !s.slot && s.pending == 0 && s.loops == map[]
    && s.now == 1 && s.allocAt == map[] && s.agedAt == 0 && !s.dirty && !s.overlapped
  }

  function Run(s: State, acts: seq<Action>): Option<State> {
    if acts == [] then Some(s)
    else
      var before, a := Run(s, acts[..|acts| - 1]), acts[|acts| - 1];
      if before.Some? && Enabled(before.value, a) then Some(Apply(before.value, a)) else None
  }

  lemma Follow(s: State, acts: seq<Action>, mid: State, a: Action) returns (acts': seq<Action>, mid': State)
    requires Run(s, acts) == Some(mid) && Enabled(mid, a)
    ensures acts' == acts + [a] && mid' == Apply(mid, a) && Run(s, acts') == Some(mid')
  {
    assert (acts + [a])[..|acts|] == acts;
    acts', mid' := acts + [a], Apply(mid, a);
  }

  lemma {:induction false} RunConcat(s: State, first: seq<Action>, second: seq<Action>)
    requires Run(s, first).Some?
    ensures Run(s, first + second) == Run(Run(s, first).value, second)
    decreases |second|
  {
    if second == [] {
      assert first + second == first;
    } else {
      var init, a := second[..|second| - 1], second[|second| - 1];
      RunConcat(s, first, init);
      assert (first + second)[..|first + second| - 1] == first + init;
    }
  }

  // ---------- the invariant ----------

  /** Tracked tokens are this server's and held in the pool. */
  ghost predicate PoolOk(s: State) {
    s.free !! s.held && s.tracked.Keys <= s.held * s.owned
  }

  /** No wake-up is lost: it is still in the slot, or a loop is about to list. */
  ghost predicate WakeOk(s: State) {
    s.dirty ==> s.slot || exists l :: l in s.loops && s.loops[l].AtList?
  }

  predicate Issued(loop: Loop) {
    loop.Listing? || loop.Listed?
  }

  /** A stale token was allocated before the last ageing. */
  ghost predicate TimesOk(s: State) {
    && s.agedAt < s.now
    && (forall id :: id in s.tracked ==> id in s.allocAt && s.allocAt[id] < s.now)
    && (forall id :: id in s.tracked && !s.tracked[id] ==> s.allocAt[id] < s.agedAt)
    && (forall l :: l in s.loops && Issued(s.loops[l]) ==> s.loops[l].issued < s.now)
  }

  /** While loops do not overlap, one of them runs and its List is later than the last ageing. */
  ghost predicate ListsFollowAgeing(s: State) {
    !s.overlapped ==>
      && (forall l, k :: l in s.loops && k in s.loops && !s.loops[l].Stopped? && !s.loops[k].Stopped? ==> l == k)
      && (forall l :: l in s.loops && Issued(s.loops[l]) ==> s.agedAt < s.loops[l].issued)
  }

  ghost predicate Inv(s: State) {
    PoolOk(s) && WakeOk(s) && TimesOk(s) && ListsFollowAgeing(s)
  }

  lemma PoolStep(s: State, a: Action)
    requires PoolOk(s) && Enabled(s, a)
    ensures PoolOk(Apply(s, a))
  {
  }

  lemma WakeStep(s: State, a: Action)
    requires WakeOk(s) && Enabled(s, a)
    ensures WakeOk(Apply(s, a))
  {
    var s' := Apply(s, a);
    if s'.dirty && !s'.slot {
      if a.WakeBySlot? {
        assert s'.loops[a.l].AtList?;
      } else {
        var l :| l in s.loops && s.loops[l].AtList?;
        assert l in s'.loops && s'.loops[l].AtList?;
      }
    }
  }

  lemma UseTimes(s: State, ids: seq<Id>)
    requires TimesOk(s) && Enabled(s, Use(ids))
    ensures TimesOk(Apply(s, Use(ids)))
  {
  }

  lemma AgeTimes(s: State, l: LoopId)
    requires TimesOk(s) && Enabled(s, Age(l))
    ensures TimesOk(Apply(s, Age(l)))
  {
  }

  lemma TimesStep(s: State, a: Action)
    requires TimesOk(s) && Enabled(s, a)
    ensures TimesOk(Apply(s, a))
  {
    if a.Use? {
      UseTimes(s, a.ids);
    } else if a.Age? {
      AgeTimes(s, a.l);
    }
  }

  lemma StartLists(s: State, l: LoopId)
    requires ListsFollowAgeing(s) && Enabled(s, StartLoop(l))
    ensures ListsFollowAgeing(Apply(s, StartLoop(l)))
  {
  }

  lemma ListsStep(s: State, a: Action)
    requires TimesOk(s) && ListsFollowAgeing(s) && Enabled(s, a)
    ensures ListsFollowAgeing(Apply(s, a))
  {
    if a.StartLoop? {
      StartLists(s, a.l);
    }
  }

  /** Every state of every run satisfies the invariant. */
  lemma {:induction false} RunInv(s: State, acts: seq<Action>)
    requires IsInit(s) && Run(s, acts).Some?
    ensures Inv(Run(s, acts).value)
  {
    if acts == [] {
    } else {
      RunInv(s, acts[..|acts| - 1]);
      var mid, a := Run(s, acts[..|acts| - 1]).value, acts[|acts| - 1];
      PoolStep(mid, a);
      WakeStep(mid, a);
      TimesStep(mid, a);
      ListsStep(mid, a);
    }
  }

  // ---------- what every run guarantees ----------

  /**
   No token is freed on stale evidence by a poll in whose List no ageing has come since it
   was issued: that List was issued after the token's latest successful allocation, and
   does not report it.  This holds with any number of loops.
   */
  lemma {:induction false} NeverFreedOnStaleEvidence(s: State, acts: seq<Action>, l: LoopId, id: Id)
    requires IsInit(s) && Run(s, acts).Some?
    requires l in Run(s, acts).value.loops && Run(s, acts).value.loops[l].Listed?
    requires Run(s, acts).value.agedAt < Run(s, acts).value.loops[l].issued
    requires id in Released(Run(s, acts).value.tracked, Run(s, acts).value.loops[l].seen)
    ensures var s' := Run(s, acts).value;
            id in s'.allocAt && s'.allocAt[id] < s'.loops[l].issued && id !in s'.loops[l].seen
  {
    RunInv(s, acts);
  }

  lemma OwnTokensOnly(s: State, a: Action)
    requires Enabled(s, a) && PoolOk(s) && !a.Others?
    ensures Apply(s, a).held - s.owned == s.held - s.owned && Apply(s, a).free - s.owned == s.free - s.owned
  {
    if a.Age? {
      assert Released(s.tracked, s.loops[a.l].seen) <= s.owned;
    }
  }

  /**
   Over any run of batches, polls and other servers' use of the pool, the tracked tokens
   are held in the pool, and no step of this server touches a token it does not own.
   */
  lemma {:induction false} TrackedStayHeld(s: State, acts: seq<Action>, a: Action)
    requires IsInit(s) && Run(s, acts).Some? && Enabled(Run(s, acts).value, a)
    ensures var s' := Run(s, acts).value;
            && s'.tracked.Keys <= s'.held * s'.owned && s'.free !! s'.held
            && (!a.Others? ==>
                  var next := Apply(s', a);
                  next.held - s'.owned == s'.held - s'.owned && next.free - s'.owned == s'.free - s'.owned)
  {
    RunInv(s, acts);
    if !a.Others? {
      OwnTokensOnly(Run(s, acts).value, a);
    }
  }
}
