/** The script injected into the chat page. It hooks the first Send/Submit
    button found at load time; a click on it announces a chat in progress and
    (re)starts a poll; each poll tick looks for the done indicator and
    announces completion once per click. The page's buttons are represented by
    their texts, and timers by interval ids: `live` holds the intervals still
    scheduled, `pollId` the one the script remembers. */
module ContentScript {
  import opened Wrappers
  import opened Messages

  /** The text of the button that appears once a response has finished. */
  const DoneLabel: string := "Regenerate"

  predicate IsSendLabel(text: string)
  {
    text == "Send" || text == "Submit"
  }

  /** Some button reads exactly "Regenerate". */
  predicate HasDoneIndicator(buttons: seq<string>)
  {
    DoneLabel in buttons
  }

  /** The index of the first button whose text is exactly "Send" or "Submit". */
  function FindSendButton(buttons: seq<string>): (r: Option<nat>)
    ensures r.Some? ==> r.value < |buttons| && IsSendLabel(buttons[r.value])
    ensures r.Some? ==> forall j :: 0 <= j < r.value ==> !IsSendLabel(buttons[j])
    ensures r.None? ==> forall j :: 0 <= j < |buttons| ==> !IsSendLabel(buttons[j])
  {
    if |buttons| == 0 then
      None
    else if IsSendLabel(buttons[0]) then
      Some(0)
    else
      match FindSendButton(buttons[1..])
      case None => None
      case Some(i) => Some(i + 1)
  }

  /** `hasFired`, the hooked button (absent when no listener was attached),
      the remembered interval, the scheduled intervals, and the next id the
      browser will hand out. */
  datatype Monitor = Monitor(
    hasFired: bool,
    sendButton: Option<nat>,
    pollId: Option<nat>,
    live: set<nat>,
    nextTimer: nat)

  /** At most the remembered interval is scheduled, and fresh ids are unused. */
  predicate Inv(m: Monitor)
  {
    && (forall i :: i in m.live ==> m.pollId == Some(i))
    && (m.pollId.Some? ==> m.pollId.value < m.nextTimer)
  }

  /** Page load: `observeSendButton` runs once over the buttons then present. */
  function Boot(buttons: seq<string>): (m: Monitor)
    ensures Inv(m) && !m.hasFired && m.live == {}
    ensures m.sendButton.Some? <==> exists j :: 0 <= j < |buttons| && IsSendLabel(buttons[j])
    ensures m.sendButton.Some? ==> m.sendButton.value < |buttons| && IsSendLabel(buttons[m.sendButton.value])
  {
    Monitor(false, FindSendButton(buttons), None, {}, 0)
  }

  datatype PageEvent =
    | Click(href: string)
    | Tick(href: string, buttons: seq<string>)
    | Unload

  /** The monitor after an event, and the message it sent, if any. */
  datatype Reaction = Reaction(monitor: Monitor, sent: Option<Message>)

  /** The click listener: clear the remembered interval, announce the chat,
      start a fresh interval. Without a hooked button a click does nothing. */
  function OnClick(m: Monitor, href: string): (r: Reaction)
    ensures m.sendButton.None? ==> r == Reaction(m, None)
    ensures m.sendButton.Some? ==>
      && !r.monitor.hasFired
      && r.sent == Some(ChatInProgress(href))
      && r.monitor.sendButton == m.sendButton
      && r.monitor.pollId.Some? && r.monitor.pollId.value in r.monitor.live
    ensures Inv(m) ==> Inv(r.monitor)
    // the previous interval is cleared first, so exactly one stays scheduled
    ensures Inv(m) && m.sendButton.Some? ==>
      && |r.monitor.live| == 1
      && (m.pollId.Some? ==> m.pollId.value !in r.monitor.live)
  {
    if m.sendButton.None? then
      Reaction(m, None)
    else
      var kept := (match m.pollId case Some(id) => m.live - {id} case None => m.live);
      var newId := m.nextTimer;
      Reaction(Monitor(false, m.sendButton, Some(newId), kept + {newId}, newId + 1),
               Some(ChatInProgress(href)))
  }

  /** `checkForCompletion`: announce completion when the indicator is present
      and nothing was announced since the last click. */
  function CheckForCompletion(m: Monitor, href: string, buttons: seq<string>): (r: Reaction)
    ensures r.sent.Some? <==> HasDoneIndicator(buttons) && !m.hasFired
    ensures r.sent.Some? ==> r.sent == Some(ChatComplete(href)) && r.monitor == m.(hasFired := true)
    ensures r.sent.None? ==> r.monitor == m
  {
    if HasDoneIndicator(buttons) && !m.hasFired then
      Reaction(m.(hasFired := true), Some(ChatComplete(href)))
    else
      Reaction(m, None)
  }

  /** A tick comes from a scheduled interval; with none scheduled there is no tick. */
  function OnTick(m: Monitor, href: string, buttons: seq<string>): (r: Reaction)
    ensures r.sent.Some? <==> m.live != {} && HasDoneIndicator(buttons) && !m.hasFired
    ensures r.sent.Some? ==> r.sent == Some(ChatComplete(href)) && r.monitor == m.(hasFired := true)
    ensures r.sent.None? ==> r.monitor == m
    ensures !HasDoneIndicator(buttons) ==> r == Reaction(m, None)
  {
    if m.live == {} then Reaction(m, None) else CheckForCompletion(m, href, buttons)
  }

  /** The `beforeunload` listener: clear the remembered interval. */
  function OnUnload(m: Monitor): (m': Monitor)
    ensures Inv(m) ==> m'.live == {}
    ensures m'.live <= m.live
    ensures m'.hasFired == m.hasFired && m'.sendButton == m.sendButton
    ensures m'.pollId == m.pollId && m'.nextTimer == m.nextTimer
  {
    match m.pollId
    case Some(id) => m.(live := m.live - {id})
    case None => m
  }

  function Handle(m: Monitor, e: PageEvent): (r: Reaction)
    ensures Inv(m) ==> Inv(r.monitor)
  {
    match e
    case Click(href) => OnClick(m, href)
    case Tick(href, buttons) => OnTick(m, href, buttons)
    case Unload => Reaction(OnUnload(m), None)
  }

  /** The monitor after `events`, and every message sent on the way, in order. */
  datatype Trace = Trace(monitor: Monitor, sent: seq<Message>)

  function RunPage(m: Monitor, events: seq<PageEvent>): (t: Trace)
    ensures Inv(m) ==> Inv(t.monitor)
    ensures |t.sent| <= |events|
    decreases |events|
  {
    if |events| == 0 then
      Trace(m, [])
    else
      var r := Handle(m, events[0]);
      var rest := RunPage(r.monitor, events[1..]);
      var now := (match r.sent case Some(msg) => [msg] case None => []);
      Trace(rest.monitor, now + rest.sent)
  }

  /** How many `chat-complete` messages are in `msgs`. */
  function CompletionCount(msgs: seq<Message>): nat
  {
    if |msgs| == 0 then 0
    else (if msgs[0].ChatComplete? then 1 else 0) + CompletionCount(msgs[1..])
  }

  /** Exactly once: with no click in between, at most one `chat-complete` is
      sent however many ticks see the indicator, and none at all once one was
      sent. */
  lemma {:induction false} AtMostOneCompletionPerClick(m: Monitor, events: seq<PageEvent>)
    requires forall i :: 0 <= i < |events| ==> !events[i].Click?
    ensures CompletionCount(RunPage(m, events).sent) <= if m.hasFired then 0 else 1
    ensures m.hasFired ==> RunPage(m, events).monitor.hasFired
    decreases |events|
  {
    if |events| > 0 {
      var r := Handle(m, events[0]);
      AtMostOneCompletionPerClick(r.monitor, events[1..]);
      var rest := RunPage(r.monitor, events[1..]);
      var now := (match r.sent case Some(msg) => [msg] case None => []);
      assert RunPage(m, events).sent == now + rest.sent;
      if r.sent.Some? {
        assert r.monitor.hasFired && !m.hasFired;
        assert CompletionCount(now + rest.sent) == CompletionCount(now) + CompletionCount(rest.sent) by {
          assert (now + rest.sent)[1..] == rest.sent;
        }
      } else {
        assert now + rest.sent == rest.sent;
      }
    }
  }

  /** Without a hooked button the page never sends anything. */
  lemma {:induction false} UnhookedPageIsSilent(m: Monitor, events: seq<PageEvent>)
    requires m.sendButton.None? && m.live == {}
    ensures RunPage(m, events).sent == []
    decreases |events|
  {
    if |events| > 0 {
      var r := Handle(m, events[0]);
      assert r.sent.None? && r.monitor.sendButton.None? && r.monitor.live == {};
      UnhookedPageIsSilent(r.monitor, events[1..]);
    }
  }
}
