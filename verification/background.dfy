/** The background process: one tracked chat session held in memory and
    mirrored into the local store, changed by messages from chat pages and by
    tab removal. Every handler is a pure function from the current session and
    store to the next ones plus what the handler emits. */
module Background {
  import opened Wrappers
  import opened Storage
  import opened Messages

  datatype Status = Idle | InProgress | Done

  /** How a status is spelled in the store and on the wire. */
  function Name(s: Status): string
  {
    match s
    case Idle => "idle"
    case InProgress => "in-progress"
    case Done => "done"
  }

  /** The in-memory session: `trackedTabId`, `currentStatus`, `trackedUrl`. */
  datatype Session = Session(trackedTabId: Option<int>, status: Status, trackedUrl: string)

  /** The values the module starts with, and returns to when the tracked tab closes. */
  const Initial: Session := Session(None, Idle, "")

  /** No tracked tab means an idle session with no url. */
  predicate WellFormed(s: Session)
  {
    s.trackedTabId.None? ==> s.status == Idle && s.trackedUrl == ""
  }

  const TabIdKey: string := "trackedTabId"
  const StatusKey: string := "status"
  const UrlKey: string := "trackedUrl"
  const SessionKeys: set<string> := {TabIdKey, StatusKey, UrlKey}

  function TabIdValue(id: Option<int>): Value
  {
    match id
    case None => Null
    case Some(n) => Num(n)
  }

  /** The record `persistStatus` writes. */
  function Payload(s: Session): (r: map<string, Value>)
    ensures r.Keys == SessionKeys
  {
    map[TabIdKey := TabIdValue(s.trackedTabId), StatusKey := Str(Name(s.status)), UrlKey := Str(s.trackedUrl)]
  }

  /** The store mirrors the session: either the three session keys hold the
      session's values, or none of them is present and the session is the
      initial one. */
  predicate Mirrors(s: Session, st: Store)
  {
    if TabIdKey in st || StatusKey in st || UrlKey in st then
      && TabIdKey in st && st[TabIdKey] == TabIdValue(s.trackedTabId)
      && StatusKey in st && st[StatusKey] == Str(Name(s.status))
      && UrlKey in st && st[UrlKey] == Str(s.trackedUrl)
    else
      s == Initial
  }

  /** What every handler keeps. */
  predicate Inv(s: Session, st: Store)
  {
    WellFormed(s) && Mirrors(s, st)
  }

  /** `persistStatus`: merge the session into the store. */
  function PersistStatus(st: Store, s: Session): (r: Store)
    ensures Mirrors(s, r)
    ensures forall k :: k !in SessionKeys ==> Get(r, k) == Get(st, k)
  {
    SetItems(st, Payload(s))
  }

  /** The `??` operator on a stored item: missing or null falls back to `default`. */
  function OrDefault(item: Option<Value>, default: Value): (r: Value)
    ensures item.None? || item == Some(Null) ==> r == default
    ensures item.Some? && item.value != Null ==> r == item.value
  {
    if item.Some? && item.value != Null then item.value else default
  }

  /** The `get-status` response: the stored values, untyped as they are read. */
  datatype Reply = Reply(trackedTabId: Value, status: Value, trackedUrl: Value)

  /** The reply that describes session `s`. */
  function ReplyOf(s: Session): Reply
  {
    Reply(TabIdValue(s.trackedTabId), Str(Name(s.status)), Str(s.trackedUrl))
  }

  /** Read the three session keys, with `null`, `"idle"` and `""` as defaults. */
  function ReadStatus(st: Store): (r: Reply)
    ensures SessionKeys !! st.Keys ==> r == ReplyOf(Initial)
    ensures forall s :: Mirrors(s, st) ==> r == ReplyOf(s)
  {
    Reply(OrDefault(Get(st, TabIdKey), Null),
          OrDefault(Get(st, StatusKey), Str("idle")),
          OrDefault(Get(st, UrlKey), Str("")))
  }

  datatype Notification = Notification(iconUrl: string, title: string, message: string)

  /** The desktop notification created for an accepted completion. */
  const CompletionNotification: Notification :=
    Notification("/totoro-done.png", "Chat Complete!", "Your AI response is ready.")

  datatype Output =
    | NotificationCreated(notification: Notification)
    | StatusResponse(reply: Reply)

  /** `senderTab` is the id of the sending tab, absent when the sender is not
      a tab (the popup, say). */
  datatype Event =
    | Received(msg: Message, senderTab: Option<int>)
    | TabRemoved(tabId: int)

  datatype Outcome = Outcome(session: Session, store: Store, outputs: seq<Output>)

  /** A completion from tab `t` is taken when nothing is tracked or `t` is the tracked tab. */
  predicate Accepts(s: Session, t: int)
  {
    s.trackedTabId.None? || s.trackedTabId == Some(t)
  }

  /** The `runtime.onMessage` listener. */
  function OnMessage(s: Session, st: Store, msg: Message, senderTab: Option<int>): (o: Outcome)
    // in-progress from a tab: that tab takes over, whatever was tracked before
    ensures msg.ChatInProgress? && senderTab.Some? ==>
      && o.session == Session(senderTab, InProgress, msg.url)
      && Mirrors(o.session, o.store)
      && o.outputs == []
    // accepted completion: done, stored, exactly one notification
    ensures msg.ChatComplete? && senderTab.Some? && Accepts(s, senderTab.value) ==>
      && o.session == Session(senderTab, Done, msg.url)
      && Mirrors(o.session, o.store)
      && o.outputs == [NotificationCreated(CompletionNotification)]
    // completion from another tab than the tracked one: dropped
    ensures msg.ChatComplete? && senderTab.Some? && !Accepts(s, senderTab.value) ==>
      o == Outcome(s, st, [])
    // page messages from a sender without a tab: nothing at all
    ensures !msg.GetStatus? && senderTab.None? ==> o == Outcome(s, st, [])
    // get-status only reads, and answers with the stored values
    ensures msg.GetStatus? ==>
      && o.session == s && o.store == st
      && o.outputs == [StatusResponse(ReadStatus(st))]
      && (Mirrors(s, st) ==> o.outputs == [StatusResponse(ReplyOf(s))])
    // only the session keys are ever written
    ensures forall k :: k !in SessionKeys ==> Get(o.store, k) == Get(st, k)
    ensures Inv(s, st) ==> Inv(o.session, o.store)
  {
    match msg
    case ChatInProgress(url) =>
      if senderTab.Some? then
        var s' := Session(senderTab, InProgress, url);
        Outcome(s', PersistStatus(st, s'), [])
      else
        Outcome(s, st, [])
    case ChatComplete(url) =>
      if senderTab.Some? && Accepts(s, senderTab.value) then
        var s' := Session(senderTab, Done, url);
        Outcome(s', PersistStatus(st, s'), [NotificationCreated(CompletionNotification)])
      else
        Outcome(s, st, [])
    case GetStatus =>
      Outcome(s, st, [StatusResponse(ReadStatus(st))])
  }

  /** The `tabs.onRemoved` listener exactly as the code has it: closing the
      tracked tab resets the session and clears the WHOLE store, including
      keys the background never wrote (the popup's preferences). */
  function OnTabRemovedAsWritten(s: Session, st: Store, closed: int): (o: Outcome)
    ensures s.trackedTabId == Some(closed) ==>
      o.session == Initial && forall k :: Get(o.store, k).None?
    ensures s.trackedTabId != Some(closed) ==> o == Outcome(s, st, [])
    ensures o.outputs == []
  {
    if s.trackedTabId == Some(closed) then Outcome(Initial, ClearAll(st), [])
    else Outcome(s, st, [])
  }

  /** The `tabs.onRemoved` listener as intended: closing the tracked tab resets
      the session and removes only the three session keys. */
  function OnTabRemoved(s: Session, st: Store, closed: int): (o: Outcome)
    ensures s.trackedTabId == Some(closed) ==>
      o.session == Initial && SessionKeys !! o.store.Keys
    ensures s.trackedTabId != Some(closed) ==> o == Outcome(s, st, [])
    ensures forall k :: k !in SessionKeys ==> Get(o.store, k) == Get(st, k)
    ensures o.outputs == []
    ensures Inv(s, st) ==> Inv(o.session, o.store)
  {
    if s.trackedTabId == Some(closed) then Outcome(Initial, RemoveKeys(st, SessionKeys), [])
    else Outcome(s, st, [])
  }

  /** One event handled by the background process. */
  function Step(s: Session, st: Store, e: Event): (o: Outcome)
    ensures |o.outputs| <= 1
    ensures Inv(s, st) ==> Inv(o.session, o.store)
  {
    match e
    case Received(msg, senderTab) => OnMessage(s, st, msg, senderTab)
    case TabRemoved(closed) => OnTabRemoved(s, st, closed)
  }

  /** One event handled exactly as the code has it: tab removal clears the
      whole store. */
  function StepAsWritten(s: Session, st: Store, e: Event): (o: Outcome)
    ensures |o.outputs| <= 1
    ensures Inv(s, st) ==> Inv(o.session, o.store)
  {
    match e
    case Received(msg, senderTab) => OnMessage(s, st, msg, senderTab)
    case TabRemoved(closed) => OnTabRemovedAsWritten(s, st, closed)
  }

  /** Events handled in arrival order by `step`, outputs collected in order. */
  function Fold(step: (Session, Store, Event) -> Outcome, s: Session, st: Store, events: seq<Event>): Outcome
    decreases |events|
  {
    if |events| == 0 then
      Outcome(s, st, [])
    else
      var first := step(s, st, events[0]);
      var rest := Fold(step, first.session, first.store, events[1..]);
      Outcome(rest.session, rest.store, first.outputs + rest.outputs)
  }

  /** The background process handling a sequence of events. */
  function Run(s: Session, st: Store, events: seq<Event>): Outcome
  {
    Fold(Step, s, st, events)
  }

  /** The background process exactly as the code has it. */
  function RunAsWritten(s: Session, st: Store, events: seq<Event>): Outcome
  {
    Fold(StepAsWritten, s, st, events)
  }

  /** The invariant holds after any sequence of events that starts where it
      holds, and no event emits more than one output. */
  lemma {:induction false} RunKeepsInv(s: Session, st: Store, events: seq<Event>)
    requires Inv(s, st)
    ensures Inv(Run(s, st, events).session, Run(s, st, events).store)
    ensures |Run(s, st, events).outputs| <= |events|
    decreases |events|
  {
    if |events| > 0 {
      var first := Step(s, st, events[0]);
      RunKeepsInv(first.session, first.store, events[1..]);
      assert Run(s, st, events).outputs == first.outputs + Run(first.session, first.store, events[1..]).outputs;
    }
  }

  /** As written too, the invariant holds after any sequence of events: after
      a clear, the session keys are all absent and the session is the initial
      one. */
  lemma {:induction false} RunAsWrittenKeepsInv(s: Session, st: Store, events: seq<Event>)
    requires Inv(s, st)
    ensures Inv(RunAsWritten(s, st, events).session, RunAsWritten(s, st, events).store)
    ensures |RunAsWritten(s, st, events).outputs| <= |events|
    decreases |events|
  {
    if |events| > 0 {
      var first := StepAsWritten(s, st, events[0]);
      RunAsWrittenKeepsInv(first.session, first.store, events[1..]);
      assert RunAsWritten(s, st, events).outputs
             == first.outputs + RunAsWritten(first.session, first.store, events[1..]).outputs;
    }
  }
}
