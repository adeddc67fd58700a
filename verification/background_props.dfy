/** Properties of the background process over sequences of events. */
module BackgroundProps {
  import opened Wrappers
  import opened Storage
  import opened Messages
  import opened Background

  /** `e` is a `chat-in-progress` from a tab other than `t`. */
  predicate TakesOverFrom(e: Event, t: int)
  {
    e.Received? && e.msg.ChatInProgress? && e.senderTab.Some? && e.senderTab != Some(t)
  }

  /** `e` is a `chat-in-progress` or `chat-complete` sent by tab `t`. */
  predicate ChatMessageFrom(e: Event, t: int)
  {
    e.Received? && !e.msg.GetStatus? && e.senderTab == Some(t)
  }

  /** Handling `a + b` is handling `a`, then `b` from where `a` left off,
      whatever the step function. */
  lemma {:induction false} FoldAppend(step: (Session, Store, Event) -> Outcome, s: Session, st: Store, a: seq<Event>, b: seq<Event>)
    ensures var mid := Fold(step, s, st, a);
            var end := Fold(step, mid.session, mid.store, b);
            Fold(step, s, st, a + b) == Outcome(end.session, end.store, mid.outputs + end.outputs)
    decreases |a|
  {
    if |a| == 0 {
      assert a + b == b;
    } else {
      var first := step(s, st, a[0]);
      var rest := Fold(step, first.session, first.store, a[1..]);
      var end := Fold(step, rest.session, rest.store, b);
      assert (a + b)[0] == a[0];
      assert (a + b)[1..] == a[1..] + b;
      FoldAppend(step, first.session, first.store, a[1..], b);
      assert first.outputs + (rest.outputs + end.outputs) == (first.outputs + rest.outputs) + end.outputs;
    }
  }

  /** Once tab `t` is tracked it stays tracked until another tab starts a chat
      or `t` closes; completions from other tabs cannot take it away. While
      `t` itself sends nothing either, the session does not change at all. */
  lemma {:induction false} TrackedTabPersists(s: Session, st: Store, t: int, events: seq<Event>)
    requires s.trackedTabId == Some(t)
    requires forall i :: 0 <= i < |events| ==> !TakesOverFrom(events[i], t) && events[i] != TabRemoved(t)
    ensures Run(s, st, events).session.trackedTabId == Some(t)
    ensures (forall i :: 0 <= i < |events| ==> !ChatMessageFrom(events[i], t))
            ==> Run(s, st, events).session == s
    decreases |events|
  {
    if |events| > 0 {
      var first := Step(s, st, events[0]);
      assert first.session.trackedTabId == Some(t);
      assert first.session != s ==> ChatMessageFrom(events[0], t);
      TrackedTabPersists(first.session, first.store, t, events[1..]);
    }
  }

  /** Most recent wins: after a `chat-in-progress` from tab `t`, `t` is the
      tracked tab however the later events interleave, as long as no other
      tab starts a chat and `t` is not closed. */
  lemma MostRecentInProgressWins(s: Session, st: Store, before: seq<Event>, t: int, url: string, after: seq<Event>)
    requires forall i :: 0 <= i < |after| ==> !TakesOverFrom(after[i], t) && after[i] != TabRemoved(t)
    ensures Run(s, st, before + [Received(ChatInProgress(url), Some(t))] + after).session.trackedTabId == Some(t)
  {
    var start := [Received(ChatInProgress(url), Some(t))];
    FoldAppend(Step, s, st, before + start, after);
    FoldAppend(Step, s, st, before, start);
    var mid := Run(s, st, before);
    var started := Run(mid.session, mid.store, start);
    assert started.session.trackedTabId == Some(t);
    TrackedTabPersists(started.session, started.store, t, after);
  }

  /** From a store holding no session keys (a fresh install, or one with only
      preferences), every reachable session is well formed, the store mirrors
      it, and `get-status` answers with exactly the in-memory session. */
  lemma ReachableStateIsMirrored(st: Store, events: seq<Event>)
    requires SessionKeys !! st.Keys
    ensures var o := Run(Initial, st, events);
            Inv(o.session, o.store) && ReadStatus(o.store) == ReplyOf(o.session)
  {
    RunKeepsInv(Initial, st, events);
  }

  /** As written: from a store holding no session keys, every reachable
      session is well formed, the store mirrors it (or holds no session key
      after a clear), and `get-status` answers with exactly the session. */
  lemma ReachableStateIsMirroredAsWritten(st: Store, events: seq<Event>)
    requires SessionKeys !! st.Keys
    ensures var o := RunAsWritten(Initial, st, events);
            Inv(o.session, o.store) && ReadStatus(o.store) == ReplyOf(o.session)
  {
    RunAsWrittenKeepsInv(Initial, st, events);
  }

  /** Two stores that hold the same items under the three session keys. */
  predicate SameSessionItems(a: Store, b: Store)
  {
    forall k :: k in SessionKeys ==> Get(a, k) == Get(b, k)
  }

  /** One event: the corrected and the as-written handlers reach the same
      session and emit the same outputs, and their stores keep agreeing on
      the session keys. */
  lemma StepsAgree(s: Session, st1: Store, st2: Store, e: Event)
    requires SameSessionItems(st1, st2)
    ensures Step(s, st1, e).session == StepAsWritten(s, st2, e).session
    ensures Step(s, st1, e).outputs == StepAsWritten(s, st2, e).outputs
    ensures SameSessionItems(Step(s, st1, e).store, StepAsWritten(s, st2, e).store)
  {
  }

  /** The correction changes nothing but the keys outside the session: over
      any sequence of events, the corrected and the as-written process reach
      the same session, emit the same outputs, and hold the same session
      items. */
  lemma {:induction false} CorrectionOnlyKeepsOtherKeys(s: Session, st1: Store, st2: Store, events: seq<Event>)
    requires SameSessionItems(st1, st2)
    ensures Run(s, st1, events).session == RunAsWritten(s, st2, events).session
    ensures Run(s, st1, events).outputs == RunAsWritten(s, st2, events).outputs
    ensures SameSessionItems(Run(s, st1, events).store, RunAsWritten(s, st2, events).store)
    decreases |events|
  {
    if |events| > 0 {
      var one := Step(s, st1, events[0]);
      var two := StepAsWritten(s, st2, events[0]);
      StepsAgree(s, st1, st2, events[0]);
      CorrectionOnlyKeepsOtherKeys(one.session, one.store, two.store, events[1..]);
      assert Run(s, st1, events).outputs == one.outputs + Run(one.session, one.store, events[1..]).outputs;
      assert RunAsWritten(s, st2, events).outputs == two.outputs + RunAsWritten(two.session, two.store, events[1..]).outputs;
    }
  }

  /** Most recent wins for the code as written as well: the corrected and
      the as-written process reach the same session. */
  lemma MostRecentInProgressWinsAsWritten(s: Session, st: Store, before: seq<Event>, t: int, url: string, after: seq<Event>)
    requires forall i :: 0 <= i < |after| ==> !TakesOverFrom(after[i], t) && after[i] != TabRemoved(t)
    ensures RunAsWritten(s, st, before + [Received(ChatInProgress(url), Some(t))] + after).session.trackedTabId == Some(t)
  {
    MostRecentInProgressWins(s, st, before, t, url, after);
    CorrectionOnlyKeepsOtherKeys(s, st, st, before + [Received(ChatInProgress(url), Some(t))] + after);
  }
}
