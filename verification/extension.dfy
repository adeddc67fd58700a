/** Properties that span the page script, the background process and the
    popup, which talk only through messages and the shared store. */
module Extension {
  import opened Wrappers
  import opened Storage
  import opened Messages
  import opened Background
  import ContentScript
  import Popup

  /** What the popup shows always agrees with the background's session: the
      reply decodes to the session, and text, picture and colour all name the
      session's status. */
  lemma PopupShowsTrackedStatus(s: Session, st: Store)
    requires Inv(s, st)
    ensures Popup.FromReply(ReadStatus(st))
            == Some(Popup.StatusData(s.trackedTabId, Name(s.status), s.trackedUrl, None))
    ensures Popup.ViewOf(Popup.FromReply(ReadStatus(st)).value) == Popup.ExpectedView(s.status)
  {
  }

  /** The popup's initial state is what the background answers before any
      session exists, so the first poll on a fresh store replaces nothing. */
  lemma PopupStartsInSync(st: Store)
    requires SessionKeys !! st.Keys
    ensures Popup.FromReply(ReadStatus(st)) == Some(Popup.InitialStatus)
    ensures !Popup.PollUpdate(Popup.InitialStatus, Popup.FromReply(ReadStatus(st))).replaced
  {
  }

  /** A click on the hooked button of tab `t`, then a tick that sees the done
      indicator: the background ends with `t` done at the page's url and
      exactly one notification, whatever it tracked before. */
  lemma ClickThenCompletionNotifiesOnce(
    m: ContentScript.Monitor, href: string, buttons: seq<string>,
    s: Session, st: Store, t: int)
    requires m.sendButton.Some? && ContentScript.HasDoneIndicator(buttons)
    ensures var click := ContentScript.OnClick(m, href);
            var tick := ContentScript.OnTick(click.monitor, href, buttons);
            click.sent.Some? && tick.sent.Some? &&
            var first := OnMessage(s, st, click.sent.value, Some(t));
            var second := OnMessage(first.session, first.store, tick.sent.value, Some(t));
            && second.session == Session(Some(t), Done, href)
            && Mirrors(second.session, second.store)
            && first.outputs + second.outputs == [NotificationCreated(CompletionNotification)]
  {
  }

  /** Closing the tracked tab, as the code has it, loses a preference the
      user had just saved: the popup reopens with the default again. */
  lemma ClosingTrackedTabErasesPreferences()
    ensures var saved := Popup.ToggleImageVisibility(Popup.DefaultPrefs, map[]);
            var started := OnMessage(Initial, saved.store, ChatInProgress("https://claude.ai/chat/1"), Some(7));
            var closed := OnTabRemovedAsWritten(started.session, started.store, 7);
            && saved.prefs.imageHidden
            && Popup.LoadPrefs(started.store).imageHidden
            && !Popup.LoadPrefs(closed.store).imageHidden
  {
  }

  /** As the code has it, closing the tracked tab always sends both
      preferences back to their defaults, whatever the user had saved. */
  lemma ClosingTrackedTabResetsPreferences(s: Session, st: Store, closed: int)
    requires s.trackedTabId == Some(closed)
    ensures Popup.LoadPrefs(OnTabRemovedAsWritten(s, st, closed).store) == Popup.DefaultPrefs
  {
  }

  /** With the corrected removal, preferences survive any tab closing, and
      the session still returns to its initial values. */
  lemma ClosingTrackedTabKeepsPreferences(s: Session, st: Store, closed: int)
    requires Inv(s, st)
    ensures var o := OnTabRemoved(s, st, closed);
            && Popup.LoadPrefs(o.store) == Popup.LoadPrefs(st)
            && Inv(o.session, o.store)
            && (s.trackedTabId == Some(closed) ==> ReadStatus(o.store) == ReplyOf(Initial))
  {
  }
}
