/**
 Delivery: a watcher of either registry that has lost nothing can always catch up by its
 own steps, and is then sent everything.
 */
module FanoutDelivery {
  import opened Wrappers
  import opened Fanout
  import opened FanoutInvariant

  /** A step of the watch loop of this watcher. */
  predicate IsOwnStep(a: Action, id: SubId) {
    (a.Join? || a.Dequeue? || a.Check? || a.Deliver? || a.Finish?) && a.id == id
  }

  ghost predicate AllOwn(acts: seq<Action>, id: SubId) {
    forall k :: 0 <= k < |acts| ==> IsOwnStep(acts[k], id)
  }

  /** The next step of a watch loop whose Sends succeed. */
  function NextRead(sub: Sub, id: SubId): Action
    requires !sub.pc.Returned?
  {
    match sub.pc
    case Joining => Join(id)
    case Reading => if sub.ch.buf == [] then Finish(id) else Dequeue(id)
    case Checking(_) => Check(id)
    case Delivering(_) => Deliver(id, true)
  }

  /** Nothing is left to do: the buffer is drained, and the channel open or the end seen. */
  predicate IsDone(sub: Sub) {
    sub.ch.buf == [] && (sub.pc == Returned(Nil) || (sub.pc.Reading? && !sub.ch.closed))
  }

  function StepsLeft(sub: Sub): nat {
    4 * |sub.ch.buf| +
    match sub.pc
    case Joining => 4
    case Reading => 1
    case Checking(_) => 3
    case Delivering(_) => 2
    case Returned(_) => 0
  }

  /** The watcher has lost nothing and its watch has not failed. */
  predicate Keeps(sub: Sub) {
    && sub.added && sub.good == sub.offered && !sub.ch.lagged
    && (sub.pc.Returned? ==> sub.pc.outcome.Nil? && sub.ch.closed && sub.ch.buf == [])
  }

  lemma ReadAdvances(c: Config, s: State, id: SubId)
    requires !s.panicked && id in s.subs && Keeps(s.subs[id]) && !IsDone(s.subs[id])
    ensures !s.subs[id].pc.Returned? && Enabled(c, s, NextRead(s.subs[id], id))
    ensures var s' := Apply(c, s, NextRead(s.subs[id], id));
            && id in s'.subs && Keeps(s'.subs[id]) && StepsLeft(s'.subs[id]) < StepsLeft(s.subs[id])
            && s'.subs[id].offered == s.subs[id].offered && s'.subs[id].ch.closed == s.subs[id].ch.closed
  {
  }

  lemma KeptSub(c: Config, s: State, id: SubId)
    requires Inv(c, s) && id in s.subs && s.subs[id].added && s.subs[id].good == s.subs[id].offered
    requires s.subs[id].pc.Returned? ==> s.subs[id].pc.outcome.Nil?
    ensures !s.panicked && Keeps(s.subs[id])
  {
    assert SubOk(c, id, s.subs[id], MarkingFor(s, id));
  }

  lemma DoneHasAll(c: Config, s: State, id: SubId)
    requires Inv(c, s) && id in s.subs && Keeps(s.subs[id]) && IsDone(s.subs[id])
    ensures s.subs[id].sent == Matching(c, id, s.subs[id].offered)
  {
    var sub := s.subs[id];
    assert SubOk(c, id, sub, MarkingFor(s, id));
    assert sub.passed[..|sub.passed|] == sub.passed;
  }

  lemma OwnFirst(sub: Sub, id: SubId, rest: seq<Action>)
    requires !sub.pc.Returned? && AllOwn(rest, id)
    ensures AllOwn([NextRead(sub, id)] + rest, id)
  {
  }

  lemma {:induction false} ReadAll(c: Config, s: State, id: SubId) returns (acts: seq<Action>, s': State)
    requires Inv(c, s) && id in s.subs && Keeps(s.subs[id])
    ensures Run(c, s, acts) == Some(s') && AllOwn(acts, id) && Inv(c, s') && |acts| <= StepsLeft(s.subs[id])
    ensures id in s'.subs && Keeps(s'.subs[id]) && IsDone(s'.subs[id])
    ensures s'.subs[id].offered == s.subs[id].offered && s'.subs[id].ch.closed == s.subs[id].ch.closed
    decreases StepsLeft(s.subs[id])
  {
    assert !s.panicked && AllOwn([], id);
    RunNone(c, s);
    hide *;
    if IsDone(s.subs[id]) {
      acts, s' := [], s;
    } else {
      ReadAdvances(c, s, id);
      var a := NextRead(s.subs[id], id);
      var next := Apply(c, s, a);
      StepKeepsInv(c, s, a);
      RunOne(c, s, a);
      var rest: seq<Action>;
      rest, s' := ReadAll(c, next, id);
      RunConcat(c, s, [a], rest);
      OwnFirst(s.subs[id], id, rest);
      acts := [a] + rest;
    }
  }

  /**
   From every state a watcher that has lost nothing and has not failed can, by steps of its
   own alone, read all that is buffered for it: it is then sent the matching part of every
   event offered to it, and has returned nil if its channel is closed.
   */
  lemma {:induction false} CatchesUp(c: Config, s: State, id: SubId) returns (acts: seq<Action>, s': State)
    requires Inv(c, s) && id in s.subs && s.subs[id].added && s.subs[id].good == s.subs[id].offered
    requires s.subs[id].pc.Returned? ==> s.subs[id].pc.outcome.Nil?
    ensures Run(c, s, acts) == Some(s') && AllOwn(acts, id) && id in s'.subs && |acts| <= StepsLeft(s.subs[id])
    ensures s'.subs[id].sent == Matching(c, id, s.subs[id].offered) && s'.subs[id].ch.buf == []
    ensures if s.subs[id].ch.closed then s'.subs[id].pc == Returned(Nil) else s'.subs[id].pc.Reading?
  {
    KeptSub(c, s, id);
    hide Inv, Run, AllOwn, StepsLeft;
    acts, s' := ReadAll(c, s, id);
    DoneHasAll(c, s', id);
  }
}
