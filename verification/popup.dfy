/** The popup's view of the tracked session (the `ExtensionProvider`
    context): pure derivations from the status record to what is shown,
    the rule for applying a polled status, and the two preference toggles. */
module Popup {
  import opened Wrappers
  import opened Strings
  import opened Storage
  import Background

  /** The status record as the popup types it. `status` stays the raw string
      it was sent, and `tabTitle` is optional. */
  datatype StatusData = StatusData(
    trackedTabId: Option<int>,
    status: string,
    trackedUrl: string,
    tabTitle: Option<string>)

  /** The popup's state before any reply arrives. */
  const InitialStatus: StatusData := StatusData(None, "idle", "", None)

  const ChatGptHost: string := "chat.openai.com"
  const ClaudeHost: string := "claude.ai"
  const ChatGptSuffix: string := " - ChatGPT"
  const ClaudeSuffix: string := " - Claude"

  datatype Logo = ChatGptLogo | ClaudeLogo

  /** `getServiceLogo`: ChatGPT is checked first, then Claude. */
  function ServiceLogo(d: StatusData): (r: Option<Logo>)
    ensures r == Some(ChatGptLogo) <==> Contains(d.trackedUrl, ChatGptHost)
    ensures r == Some(ClaudeLogo) <==> !Contains(d.trackedUrl, ChatGptHost) && Contains(d.trackedUrl, ClaudeHost)
    ensures r.None? <==> !Contains(d.trackedUrl, ChatGptHost) && !Contains(d.trackedUrl, ClaudeHost)
  {
    if Includes(d.trackedUrl, ChatGptHost) then Some(ChatGptLogo)
    else if Includes(d.trackedUrl, ClaudeHost) then Some(ClaudeLogo)
    else None
  }

  /** A title counts only when present and non-empty (JavaScript truthiness). */
  predicate HasTitle(d: StatusData)
  {
    d.tabTitle.Some? && d.tabTitle.value != ""
  }

  /** `getTabTitle`: the tab title without the service's trailing suffix, or
      a name derived from the url when there is no title. */
  function TabTitle(d: StatusData): (r: string)
    ensures HasTitle(d) ==> r <= d.tabTitle.value
    // on a Claude url one trailing " - Claude" goes, and nothing else changes
    ensures HasTitle(d) && Contains(d.trackedUrl, ClaudeHost) ==>
      if EndsWith(d.tabTitle.value, ClaudeSuffix) then r + ClaudeSuffix == d.tabTitle.value
      else r == d.tabTitle.value
    // on a ChatGPT url (that is not also a Claude url) likewise for " - ChatGPT"
    ensures HasTitle(d) && !Contains(d.trackedUrl, ClaudeHost) && Contains(d.trackedUrl, ChatGptHost) ==>
      if EndsWith(d.tabTitle.value, ChatGptSuffix) then r + ChatGptSuffix == d.tabTitle.value
      else r == d.tabTitle.value
    // titles on any other url are shown verbatim
    ensures HasTitle(d) && !Contains(d.trackedUrl, ClaudeHost) && !Contains(d.trackedUrl, ChatGptHost) ==>
      r == d.tabTitle.value
    // without a title: the service name, ChatGPT checked first
    ensures !HasTitle(d) ==>
      r == (if Contains(d.trackedUrl, ChatGptHost) then "ChatGPT"
            else if Contains(d.trackedUrl, ClaudeHost) then "Claude"
            else "Chat")
  {
    if HasTitle(d) then
      if Includes(d.trackedUrl, ClaudeHost) then StripSuffix(d.tabTitle.value, ClaudeSuffix)
      else if Includes(d.trackedUrl, ChatGptHost) then StripSuffix(d.tabTitle.value, ChatGptSuffix)
      else d.tabTitle.value
    else if Includes(d.trackedUrl, ChatGptHost) then "ChatGPT"
    else if Includes(d.trackedUrl, ClaudeHost) then "Claude"
    else "Chat"
  }

  /** `getStatusText`. */
  function StatusText(d: StatusData): (r: string)
    ensures r == "In progress" <==> d.status == "in-progress"
    ensures r == "Done" <==> d.status == "done"
    ensures r == "Idle" <==> d.status != "in-progress" && d.status != "done"
  {
    if d.status == "in-progress" then "In progress"
    else if d.status == "done" then "Done"
    else "Idle"
  }

  datatype Image = IdleImage | DoneImage | InProgressImage

  /** `getImageSrc`: note that here the fall-through is the in-progress image. */
  function ImageSrc(d: StatusData): (r: Image)
    ensures r == IdleImage <==> d.status == "idle"
    ensures r == DoneImage <==> d.status == "done"
    ensures r == InProgressImage <==> d.status != "idle" && d.status != "done"
  {
    if d.status == "idle" then IdleImage
    else if d.status == "done" then DoneImage
    else InProgressImage
  }

  /** `getStatusTextColorClass`. */
  function StatusColorClass(d: StatusData): (r: string)
    ensures r == "text-[#D77655]" <==> d.status == "done"
    ensures r == "text-[#6F635F]" <==> d.status == "in-progress"
    ensures r == "text-[#CAC6C6]" <==> d.status != "done" && d.status != "in-progress"
  {
    if d.status == "done" then "text-[#D77655]"
    else if d.status == "in-progress" then "text-[#6F635F]"
    else "text-[#CAC6C6]"
  }

  /** Without a title, the fallback name and the logo pick the same service. */
  lemma FallbackTitleMatchesLogo(d: StatusData)
    requires !HasTitle(d)
    ensures TabTitle(d) == "ChatGPT" <==> ServiceLogo(d) == Some(ChatGptLogo)
    ensures TabTitle(d) == "Claude" <==> ServiceLogo(d) == Some(ClaudeLogo)
    ensures TabTitle(d) == "Chat" <==> ServiceLogo(d).None?
  {
  }

  /** What the popup shows for one status: text, picture and text colour. */
  datatype View = View(text: string, image: Image, colorClass: string)

  function ViewOf(d: StatusData): View
  {
    View(StatusText(d), ImageSrc(d), StatusColorClass(d))
  }

  /** The intended view of each status, written as a table. */
  function ExpectedView(s: Background.Status): View
  {
    match s
    case Idle => View("Idle", IdleImage, "text-[#CAC6C6]")
    case InProgress => View("In progress", InProgressImage, "text-[#6F635F]")
    case Done => View("Done", DoneImage, "text-[#D77655]")
  }

  /** For each of the three status spellings the text, picture and colour
      all describe that status, and different statuses look different. */
  lemma ViewMatchesStatus(d: StatusData, s: Background.Status)
    requires d.status == Background.Name(s)
    ensures ViewOf(d) == ExpectedView(s)
    ensures forall e: StatusData :: e.status != d.status && (e.status in {"idle", "in-progress", "done"})
              ==> ViewOf(e) != ViewOf(d)
  {
  }

  /** The setter state after one poll: the status kept, and whether it was
      replaced (which is what makes React render again). */
  datatype Applied = Applied(data: StatusData, replaced: bool)

  /** The poll callback: an absent response is ignored, and a response is
      taken only if it differs from the current state. */
  function PollUpdate(prev: StatusData, response: Option<StatusData>): (r: Applied)
    ensures response.None? ==> r == Applied(prev, false)
    ensures response.Some? ==> r.data == response.value
    ensures r.replaced <==> response.Some? && response.value != prev
  {
    match response
    case None => Applied(prev, false)
    case Some(next) =>
      if next != prev then Applied(next, true) else Applied(prev, false)
  }

  /** Applying the same polled response twice is applying it once: the second
      time nothing is replaced. */
  lemma PollUpdateIdempotent(prev: StatusData, response: Option<StatusData>)
    ensures var once := PollUpdate(prev, response);
            var twice := PollUpdate(once.data, response);
            twice.data == once.data && !twice.replaced
  {
  }

  /** The cast of a `get-status` reply to `StatusData`: defined when the reply
      has the declared shape. The background never sends a title. */
  function FromReply(r: Background.Reply): (d: Option<StatusData>)
    ensures d.Some? ==> d.value.tabTitle.None?
    ensures d.Some? <==> (r.trackedTabId.Null? || r.trackedTabId.Num?) && r.status.Str? && r.trackedUrl.Str?
  {
    match (r.trackedTabId, r.status, r.trackedUrl)
    case (Null, Str(status), Str(url)) => Some(StatusData(None, status, url, None))
    case (Num(id), Str(status), Str(url)) => Some(StatusData(Some(id), status, url, None))
    case _ => None
  }

  /** Reading a reply that describes a session recovers that session. */
  lemma FromReplyOfSession(s: Background.Session)
    ensures FromReply(Background.ReplyOf(s))
            == Some(StatusData(s.trackedTabId, Background.Name(s.status), s.trackedUrl, None))
  {
  }

  datatype Prefs = Prefs(imageHidden: bool, soundEnabled: bool)

  const ImageHiddenKey: string := "imageHidden"
  const SoundEnabledKey: string := "soundEnabled"

  /** The preferences before the store is read. */
  const DefaultPrefs: Prefs := Prefs(false, true)

  /** A stored boolean preference, or `default` when none is stored. */
  function StoredFlag(st: Store, key: string, default: bool): (b: bool)
    ensures key in st && st[key].Bool? ==> b == st[key].b
    ensures key !in st ==> b == default
  {
    if key in st && st[key].Bool? then st[key].b else default
  }

  /** Loading the preferences when the popup opens. */
  function LoadPrefs(st: Store): (p: Prefs)
    ensures ImageHiddenKey !in st ==> !p.imageHidden
    ensures SoundEnabledKey !in st ==> p.soundEnabled
    ensures ImageHiddenKey in st && st[ImageHiddenKey].Bool? ==> p.imageHidden == st[ImageHiddenKey].b
    ensures SoundEnabledKey in st && st[SoundEnabledKey].Bool? ==> p.soundEnabled == st[SoundEnabledKey].b
  {
    Prefs(StoredFlag(st, ImageHiddenKey, DefaultPrefs.imageHidden),
          StoredFlag(st, SoundEnabledKey, DefaultPrefs.soundEnabled))
  }

  datatype PrefsUpdate = PrefsUpdate(prefs: Prefs, store: Store)

  /** `toggleImageVisibility`: flip the flag and save the new value. */
  function ToggleImageVisibility(p: Prefs, st: Store): (u: PrefsUpdate)
    ensures u.prefs == p.(imageHidden := !p.imageHidden)
    ensures LoadPrefs(u.store).imageHidden == u.prefs.imageHidden
    ensures u.store.Keys == st.Keys + {ImageHiddenKey}
    ensures forall k :: k in st && k != ImageHiddenKey ==> u.store[k] == st[k]
  {
    var hidden := !p.imageHidden;
    PrefsUpdate(p.(imageHidden := hidden), SetItems(st, map[ImageHiddenKey := Bool(hidden)]))
  }

  /** `toggleSoundEnabled`: flip the flag and save the new value. */
  function ToggleSoundEnabled(p: Prefs, st: Store): (u: PrefsUpdate)
    ensures u.prefs == p.(soundEnabled := !p.soundEnabled)
    ensures LoadPrefs(u.store).soundEnabled == u.prefs.soundEnabled
    ensures u.store.Keys == st.Keys + {SoundEnabledKey}
    ensures forall k :: k in st && k != SoundEnabledKey ==> u.store[k] == st[k]
  {
    var enabled := !p.soundEnabled;
    PrefsUpdate(p.(soundEnabled := enabled), SetItems(st, map[SoundEnabledKey := Bool(enabled)]))
  }

  /** Toggling the image preference twice restores it, and leaves the store
      holding the original value under its key. */
  lemma ToggleImageTwiceRestores(p: Prefs, st: Store)
    ensures var u := ToggleImageVisibility(p, st);
            var v := ToggleImageVisibility(u.prefs, u.store);
            v.prefs == p && v.store == st[ImageHiddenKey := Bool(p.imageHidden)]
  {
  }

  /** Toggling the sound preference twice restores it, and leaves the store
      holding the original value under its key. */
  lemma ToggleSoundTwiceRestores(p: Prefs, st: Store)
    ensures var u := ToggleSoundEnabled(p, st);
            var v := ToggleSoundEnabled(u.prefs, u.store);
            v.prefs == p && v.store == st[SoundEnabledKey := Bool(p.soundEnabled)]
  {
  }
}
