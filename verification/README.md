# notifs — a Dafny model of the chat-completion tracker

This project models the core of a browser extension that tells the user when an
AI chat page has finished answering. The extension has three parts:

- **Page script** (`src/content-script.ts`). It hooks the first button labelled
  "Send" or "Submit". A click on that button announces `chat-in-progress` and
  (re)starts a poll. The poll announces `chat-complete` once per click, the first
  time a button labelled "Regenerate" is present.
- **Background process** (`src/background.ts`). It holds one tracked session
  (`trackedTabId`, `status`, `trackedUrl`) and mirrors it into the local store.
  When it accepts a completion, it creates a desktop notification. It answers
  `get-status` from the store. When the tracked tab is closed, it resets the
  session.
- **Popup context** (`popup/src/contexts/ExtensionContext.tsx`). It derives the
  logo, title, status text, picture and colour from the status record. A polled
  status is applied only when it differs from the current one. The popup also
  toggles and persists two preferences.

Each handler is a pure function. The background's is
`Background.Step(session, store, event) -> Outcome(session', store', outputs)`.
`Background.StepAsWritten` is the same step with tab removal exactly as the
code has it. Both are folded over event sequences (`Run`, `RunAsWritten`). The
outputs are "notification created" and "get-status response". The page's
handler is `ContentScript.Handle(monitor, event) -> Reaction(monitor', sent)`,
which sends at most one message.

The store (`chrome.storage.local`) is a `map<string, Value>` with three
operations: merge-set, remove and clear. The code itself calls only merge-set
and clear. Remove is used only by the corrected tab-removal handler (see
Findings). The page's DOM is represented by the texts of its buttons. Interval
timers are represented by ids: `live` is the set of intervals still scheduled,
and `pollId` is the one the script remembers.

Modules:

- `Wrappers`: `Option`.
- `Strings`: `includes` and suffix removal.
- `Storage`: the key/value store.
- `Messages`: the messages a page sends to the background process.
- `Background` and `BackgroundProps`: the background handlers and their
  properties over event sequences.
- `ContentScript`: the page script.
- `Popup`: the popup context.
- `Extension`: properties that span the three parts.

Behaviour of the code worth knowing:

- No persisted session is loaded at start-up. The module's variables start as
  `null` / `"idle"` / `""`.
- A completion is accepted only from the tracked tab, or when nothing is
  tracked. There is no domain-match fallback.
- The poll is not cancelled when a completion is sent. It keeps ticking, and
  `hasFired` stops any second message, until the next click or unload.
- "Done" is detected by a single test: some button's text is exactly
  `"Regenerate"`.
- The background never stores a `tabTitle`, so the popup always receives none.

For a status string other than the three the background writes, `getStatusText`
says "Idle" while `getImageSrc` shows the in-progress picture. The background
never writes such a string, and its read falls back to `"idle"`.
`Extension.PopupShowsTrackedStatus` states that the popup's view always matches
the background's session.

## Model

| member | source | states |
|---|---|---|
| Storage.SetItems | src/background.ts:56 | `storage.local.set` is a merge: the written keys take the new values and every other key keeps its old value |
| Storage.ClearAll | src/background.ts:126 | `storage.local.clear` leaves no key at all, including keys written by other components |
| Strings.Includes | popup/src/contexts/ExtensionContext.tsx:152-153 | `url.includes(host)` is true exactly when `host` occurs at some position of `url` |
| Strings.StripSuffix | popup/src/contexts/ExtensionContext.tsx:162-166 | `replace(/ - X$/, '')` gives a prefix of the title. When the title ends with the suffix, the result plus the suffix is the title; otherwise the title is returned unchanged |
| Background.PersistStatus | src/background.ts:50-57 | after `persistStatus` the three session keys hold the in-memory record, and every other key is unchanged |
| Background.OrDefault | src/background.ts:104-106 | `??`: a missing or null item gives the default; any other item is kept |
| Background.ReadStatus | src/background.ts:99-110 | `get-status` reads the store with defaults `null` / `"idle"` / `""`. With no session keys it gives the idle reply; on a store that mirrors a session it gives exactly that session |
| Background.OnMessage | src/background.ts:63-115 | `chat-in-progress` from tab T: T becomes tracked as in-progress at the message url, whatever was tracked before. A completion from the tracked tab, or when nothing is tracked: done at the message url, with exactly one notification. A completion from any other tab, or a page message from a sender without a tab: nothing changes and nothing is emitted. `get-status` changes nothing and replies with the stored values. Only the three session keys are written, and the invariant is kept |
| Background.OnTabRemovedAsWritten | src/background.ts:121-128 | as written: closing the tracked tab resets the session to null / idle / "" and leaves the store with no key at all. Closing any other tab changes nothing |
| Background.OnTabRemoved | src/background.ts:121-128 | corrected (see Findings): closing the tracked tab resets the session and removes the three session keys. Every other key survives, and the invariant is kept. Closing any other tab changes nothing |
| Background.Step | src/background.ts:63-128 | each event (tab removal handled as corrected under Findings) emits at most one output and keeps the invariant: no tracked tab means idle with an empty url, and the store mirrors the session |
| Background.StepAsWritten | src/background.ts:63-128 | as written (tab removal clears the whole store): each event emits at most one output and keeps the invariant |
| Background.RunKeepsInv | src/background.ts:42-44 | the invariant holds after any sequence of events that starts from a state where it holds, and no event emits more than one output |
| Background.RunAsWrittenKeepsInv | src/background.ts:42-57 | as written: after any sequence of events, no tracked tab means idle with an empty url, and the three stored session keys equal the in-memory record, or are all absent after a clear; no event emits more than one output |
| BackgroundProps.TrackedTabPersists | src/background.ts:79-96 | once tab T is tracked, completions from other tabs never take tracking away; only a start from another tab or closing T does. If T sends nothing, the session does not change at all. Stated over the corrected process; it carries over to the code as written through `BackgroundProps.CorrectionOnlyKeepsOtherKeys`, which gives both the same session |
| BackgroundProps.MostRecentInProgressWins | src/background.ts:70-74 | after a `chat-in-progress` from T, T stays the tracked tab through any later events, unless another tab starts a chat or T is closed. Stated over the corrected process; `BackgroundProps.MostRecentInProgressWinsAsWritten` states it for the code as written |
| BackgroundProps.MostRecentInProgressWinsAsWritten | src/background.ts:70-74 | as written: after a `chat-in-progress` from T, T stays the tracked tab through any later events, unless another tab starts a chat or T is closed |
| BackgroundProps.ReachableStateIsMirrored | src/background.ts:42-57 | from a store with no session keys, every reachable session is well formed, mirrored in the store, and is exactly what `get-status` replies |
| BackgroundProps.ReachableStateIsMirroredAsWritten | src/background.ts:121-127 | as written: from a store with no session keys, every reachable session is well formed and mirrored (or all its keys are absent after a clear), and `get-status` replies exactly that session |
| BackgroundProps.StepsAgree | src/background.ts:121-127 | for one event, the corrected and the as-written handlers reach the same session and outputs, and their stores agree on the three session keys |
| BackgroundProps.CorrectionOnlyKeepsOtherKeys | src/background.ts:121-127 | over any sequence of events, the corrected and the as-written process reach the same session, emit the same outputs and hold the same session items; the correction changes only the keys outside the session |
| ContentScript.FindSendButton | src/content-script.ts:36-38 | finds the first button whose text is exactly "Send" or "Submit"; finds none only when no button has either text |
| ContentScript.Boot | src/content-script.ts:35-40 | at load a listener is attached exactly when some button reads "Send" or "Submit"; nothing has fired and no poll is scheduled |
| ContentScript.OnClick | src/content-script.ts:41-53 | a click on the hooked button resets `hasFired` and sends exactly one `chat-in-progress` with the page url. It clears the previous interval, so exactly one poll stays scheduled. Without a hooked button a click does nothing |
| ContentScript.CheckForCompletion | src/content-script.ts:17-30 | sends `chat-complete` with the page url exactly when "Regenerate" is among the button texts and nothing has fired yet, and then marks `hasFired`; otherwise the state is unchanged |
| ContentScript.OnTick | src/content-script.ts:19-29 | a tick sends a completion only while a poll is scheduled, the indicator is present and nothing has fired. A tick without the indicator changes nothing and sends nothing |
| ContentScript.OnUnload | src/content-script.ts:61-65 | unload leaves no scheduled poll |
| ContentScript.Handle | src/content-script.ts:41-65 | every page event keeps the timer invariant: at most the remembered interval is scheduled, and new ids are unused |
| ContentScript.RunPage | src/content-script.ts:10-65 | the timer invariant holds after any sequence of page events, and at most one message is sent per event |
| ContentScript.AtMostOneCompletionPerClick | src/content-script.ts:23-24 | exactly once: between two clicks at most one `chat-complete` is sent however many ticks see the indicator, and none once `hasFired` is set |
| ContentScript.UnhookedPageIsSilent | src/content-script.ts:40-58 | when no send button was found at load, the page never sends any message |
| Popup.ServiceLogo | popup/src/contexts/ExtensionContext.tsx:151-155 | the ChatGPT logo exactly when the url contains chat.openai.com; the Claude logo exactly when it contains claude.ai but not chat.openai.com; no logo otherwise |
| Popup.TabTitle | popup/src/contexts/ExtensionContext.tsx:157-175 | a non-empty title is shown as a prefix of itself. On a claude.ai url one trailing " - Claude" is removed, and likewise " - ChatGPT" on a chat.openai.com url. On other urls the title is shown verbatim. Without a title the fallback is "ChatGPT", "Claude" or "Chat", with ChatGPT checked first |
| Popup.FallbackTitleMatchesLogo | popup/src/contexts/ExtensionContext.tsx:171-174 | without a title, the fallback name is "ChatGPT", "Claude" or "Chat" exactly when the logo is ChatGPT's, Claude's or none |
| Popup.StatusText | popup/src/contexts/ExtensionContext.tsx:177-181 | "In progress" exactly for in-progress, "Done" exactly for done, "Idle" for every other string |
| Popup.ImageSrc | popup/src/contexts/ExtensionContext.tsx:183-187 | the idle picture exactly for idle, the done picture exactly for done, and the in-progress picture for every other string |
| Popup.StatusColorClass | popup/src/contexts/ExtensionContext.tsx:189-198 | the done colour exactly for done, the in-progress colour exactly for in-progress, and the idle colour for every other string |
| Popup.ViewMatchesStatus | popup/src/contexts/ExtensionContext.tsx:177-198 | for each of the three status spellings, text, picture and colour match an independent table of that status, and different statuses look different |
| Popup.PollUpdate | popup/src/contexts/ExtensionContext.tsx:129-140 | an absent response keeps the state. Otherwise the state becomes the response, and it is replaced (re-rendered) exactly when the response differs from it |
| Popup.PollUpdateIdempotent | popup/src/contexts/ExtensionContext.tsx:131-138 | applying the same polled response twice equals applying it once, and the second application replaces nothing |
| Popup.FromReply | popup/src/contexts/ExtensionContext.tsx:15-20 | a reply has the declared shape exactly when its tab id is null or a number and its status and url are strings; a decoded reply never carries a title |
| Popup.FromReplyOfSession | src/background.ts:103-108 | the reply built from a session decodes back to that session's id, status spelling and url |
| Popup.StoredFlag | popup/src/contexts/ExtensionContext.tsx:67-72 | a stored boolean overrides the default; a missing key keeps the default |
| Popup.LoadPrefs | popup/src/contexts/ExtensionContext.tsx:61-73 | preferences default to image shown and sound on; stored booleans override each default |
| Popup.ToggleImageVisibility | popup/src/contexts/ExtensionContext.tsx:218-223 | flips `imageHidden` and saves the new value, so a later load reads it back; no other key changes |
| Popup.ToggleSoundEnabled | popup/src/contexts/ExtensionContext.tsx:225-230 | flips `soundEnabled` and saves the new value, so a later load reads it back; no other key changes |
| Popup.ToggleImageTwiceRestores | popup/src/contexts/ExtensionContext.tsx:218-223 | two image toggles restore the preference, and the store ends with the original value under `imageHidden` |
| Popup.ToggleSoundTwiceRestores | popup/src/contexts/ExtensionContext.tsx:225-230 | two sound toggles restore the preference, and the store ends with the original value under `soundEnabled` |
| Extension.PopupShowsTrackedStatus | src/background.ts:99-110 | whenever the background invariant holds, the popup decodes the `get-status` reply to the tracked session, and its text, picture and colour name that session's status |
| Extension.PopupStartsInSync | popup/src/contexts/ExtensionContext.tsx:55-60 | the popup's initial status equals the decoded `get-status` reply of a store with no session, so the first poll on such a store replaces nothing |
| Extension.ClickThenCompletionNotifiesOnce | src/content-script.ts:41-52 | a click on the hooked button of tab T, then a tick that sees "Regenerate": the background ends with T done at the page url and exactly one notification, whatever it tracked before |
| Extension.ClosingTrackedTabErasesPreferences | src/background.ts:121-127 | as written: with `imageHidden` saved, starting a chat in tab 7 and then closing tab 7 erases the preference, and the popup reopens with the default |
| Extension.ClosingTrackedTabResetsPreferences | src/background.ts:121-127 | as written, for every session and store: closing the tracked tab makes the popup load the default preferences (image shown, sound on), whatever was saved |
| Extension.ClosingTrackedTabKeepsPreferences | src/background.ts:121-127 | corrected: closing any tab leaves the loaded preferences as they were and keeps the invariant; closing the tracked tab makes `get-status` answer idle |

## Findings

| source | as written | input that shows it | evidently intended | confidence | as-written member | corrected member |
|---|---|---|---|---|---|---|
| src/background.ts:126 | closing the tracked tab calls `chrome.storage.local.clear()`, which erases every key in the shared store, including the popup's `imageHidden` and `soundEnabled` | save `imageHidden = true`; `chat-in-progress` from tab 7; close tab 7. The store is now empty, and the popup reopens with the image shown | reset only the three session keys, because the preferences live in the same store and must survive a session reset | medium; not executed | Background.OnTabRemovedAsWritten, Extension.ClosingTrackedTabErasesPreferences | Background.OnTabRemoved, Extension.ClosingTrackedTabKeepsPreferences |

## Left out

- Browser APIs (`runtime.sendMessage` / `onMessage`, `notifications.create`, `tabs.update`, `window.open` / `close`). Messages are events, and notifications and replies are outputs. Their delivery, loss and failure are not modelled.
- Asynchrony of the store. `storage.local.get` / `set` / `clear` take effect immediately and in event order.
- Timer periods (800 ms in the page, 2000 ms in the popup) and real time. An interval is an id in `live`, and each `Tick` event is one firing of a scheduled interval.
- The live DOM. A page is represented only by the texts of its buttons. The hooked button is identified by its index at load time, and a `Click` event is a click on it.
- React state and hooks. The provider's state updates are pure functions.
- Restarting the background process. It would re-run the module's initialisers while the store keeps its values. The code loads nothing at start-up, so this is outside the event model. The consequence: after a restart the module holds the initial session while the store still holds the old one, so `Background.Inv` no longer holds. Closing the previously tracked tab then resets nothing, because the in-memory tracked id is `null`. A completion from any tab is accepted.
- Popup handlers `handleGoToChat`, `handleOpenNewChat` and `handleClose`. They only call browser tab and window APIs.
- The popup's initial status fetch and its storage-change listener (popup/src/contexts/ExtensionContext.tsx:77-119). Both call `setStatusData(response)` without comparing, so only the polled comparison rule is modelled. The listener also copies `imageHidden` and `soundEnabled` from any change record that names them (lines 96-101). After the as-written `clear()`, an open popup therefore receives a change with no new value for a preference it had saved, and sets that flag to `undefined`. This adds to the preference loss recorded under Findings.
- Popup.LoadPrefs: a non-boolean value stored under a preference key is treated as absent. JavaScript would pass it through untyped. Only the toggles write these keys, and they always write booleans.
- Popup.FromReply: a reply whose values do not have the declared types is not decoded. The code would pass it through untyped. The background only ever stores the declared types.
- Rendering-only and build-only files: `Navbar.tsx`, `BottomBar.tsx`, `MainImage.tsx`, `App.tsx`, `main.tsx`, `eslint.config.js` and `tailwind.config.js`.
- Tab activation and tab update events. The background registers no listener for them, so tab removal is the only tab event the model has.
