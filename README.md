# Voice-alchemy classes: session notes, guided tour, tuner and auth decisions in Dafny

This project models the parts of the mentorship-session web application that have behaviour of their own. The rest of the application is page markup and calls into an auth/database service and a video-room service.

- **Session view** (`components/SessionView.tsx`). Each browser holds a copy of a student's shared notes. The copy is kept in sync through a broadcast channel and through change notifications on the `notes` table. A class-session flag decides whether edits are persisted. A debounce timer writes the notes 500 ms after the last change. Typing presence counts the *other* connections that are typing. The admin's `startClass` and `endClass` write the session row, the notes row and the archive. `SessionView.Client` is a class whose methods are the component's event handlers. Every handler takes the clock reading (milliseconds) at which it runs. Timers are deadlines that a later handler call fires. A ghost clock records the last event's time: handlers require that the clock does not run back and that no timer is past its deadline, so a timer always fires before any later event, the earlier deadline first. `SessionStore.Store` is the durable store: the notes row, the session row, the append-only archive, and a log of accepted writes in order. Every write takes a flag saying whether it succeeded.
- **Guided tour** (`components/GuidedTour.tsx`). The step index machine (`start`, `next`, `end`), the auto-start rule, and the bookkeeping of the elements the tour rings.
- **Chromatic tuner** (`public/chromatic-tuner/tuner.js`, `tone.js`). The tuner's integer defaults. The decomposition of a MIDI note number into a name and an octave, with JavaScript's truncating `%` and `parseInt`. The sensitivity gate on audio frames. The single reusable oscillator. The tolerance tables, exclusive button selection, the key-press guard, the match highlight and the range check.
- **Auth pages and configuration.** Password-reset validation and outcome (`app/reset-password/page.tsx`). Role resolution and routing after login (`app/login/LoginClient.tsx`). Sign-up field checks, full name and metadata (`app/signup/SignupClient.tsx`). The site-URL fallback chain (`lib/siteUrl.ts`).

## How the code's merge rules behave

The handlers are modelled as written. The lemmas and runs below record some consequences of that.

- A client's own edit does not raise its broadcast high-water mark `lastRemoteAt`. Say, in an active class, client A types "x" at time 1 and client B types "y" at time 2, and each receives the other's broadcast. Then A ends with "y" and B with "x": the two copies do not converge. `SessionScenarios.CrossedBroadcasts` proves this run.
- The notes-table grace window compares times only. Within 800 ms of its own successful save, a client drops every notes-table change, including one that carries another writer's content (`SessionScenarios.GraceWindowDropsForeignContent`).
- `endClass` does not clear the local `notes`. It clears the stored row, and the notes-table notification that follows clears the local copy, unless it arrives within 800 ms of this client's last successful save, in which case the local text stays.
- `startClass` writes `started_at` from one clock reading but sets the local `startedAt` from a later one.
- The code does not keep "a start time whenever active". `Load` and a session-row change can set `active` with no start time.

## Model

| member | source | states |
|---|---|---|
| SessionStore.Store.Perform | components/SessionView.tsx:159-179 | A write the store accepts is appended to the log and updates exactly its row. The archive only grows. A rejected write changes nothing. |
| SessionPresence.PipelineIsPerPeerSum | components/SessionView.tsx:77-82 | The filter/flatMap/filter/length pipeline equals the sum, over keys other than the client's own, of each key's typing metas. |
| SessionPresence.PeersTyping | components/SessionView.tsx:77-82 | The count stored in `peersTyping` equals the independent per-key sum of typing metas over the other keys. |
| SessionPresence.OwnEntryNeverCounts | components/SessionView.tsx:79 | Adding the client's own entry, anywhere and with any content, leaves the count unchanged. |
| SessionPresence.PeerTypingRaisesCount | components/SessionView.tsx:78-82 | A further peer entry whose `typing` is true raises the count by exactly one. |
| SessionPresence.NoPeerTypingIffZero | components/SessionView.tsx:77-82 | The count is zero if and only if no meta under another key is typing. |
| SessionPresence.Others | components/SessionView.tsx:79 | No kept entry has the client's own key; every kept entry comes from the input, and every entry under another key is kept. |
| SessionPresence.TypingMetas | components/SessionView.tsx:81 | Exactly the typing metas are kept: none is added, every typing meta is kept, and the length is the reference count of typing metas. |
| SessionView.ChangedContent | components/SessionView.tsx:135-136 | A notes change carries content exactly when the chosen row (`new`, else `old`) has a string `content`, and then it is that content. |
| SessionView.ActiveAfter | components/SessionView.tsx:61-62 | `active` follows a present `is_active`, and a null one gives false (`!!null`). It is kept when the column or the row is absent. |
| SessionView.StartedAtAfter | components/SessionView.tsx:61-63 | `startedAt` follows a present `started_at` (null clears it). It is kept when the column or the row is absent. |
| SessionView.Rescheduled | components/SessionView.tsx:144-148 | Without a change the pending save is kept. After a change a save is pending exactly while active, due 500 ms later and carrying the current notes. |
| SessionView.Client.constructor | components/SessionView.tsx:10-29 | Initial state: empty notes, idle, inactive, no start time. Both marks are 0. Not typing, nothing pending, nothing sent. |
| SessionView.Client.SetNotes | components/SessionView.tsx:144-148 | `setNotes` plus the debounce effect. The effect re-runs only on a real change: it cancels the pending save and, while active, schedules one 500 ms later with the new notes. The invariant that a pending save exists only while active, and carries the latest notes, is kept. |
| SessionView.Client.SetActive | components/SessionView.tsx:144-148 | A change of `active` re-runs the debounce effect. Going inactive cancels the pending save; going active schedules one for the current notes. |
| SessionView.Client.Commit | components/SessionView.tsx:144-148 | A batch of notes and active updates followed by one run of the debounce effect. |
| SessionView.Client.Load | components/SessionView.tsx:32-51 | Notes are the stored content, or '' when missing or unread. `active` is the stored flag. `startedAt` is the stored start. The debounce follows the change. |
| SessionView.Client.OnLocalEdit | components/SessionView.tsx:150-156 | Called only while active, since the editor is read-only otherwise (SessionView.tsx:227). Notes become the typed value at once. One broadcast `{content, from: clientId, ts: now}` is appended. Typing is on, with the off-timer replaced by one 1200 ms later. A changed value schedules its save 500 ms later. |
| SessionView.Client.OnTypingIdle | components/SessionView.tsx:155 | When the typing-off timer is due, the typing flag and the timer are cleared. |
| SessionView.Client.OnBroadcast | components/SessionView.tsx:85-92 | An own echo is ignored. Otherwise the message applies only when `ts` exceeds the high-water mark, which then becomes `ts`. The mark never decreases, and an equal or older `ts` leaves the notes unchanged. |
| SessionView.Client.OnNotesChange | components/SessionView.tsx:134-139 | A change without string content is ignored. Otherwise it overwrites the notes only when at least 800 ms have passed since the last local save. |
| SessionView.Client.OnSessionChange | components/SessionView.tsx:60-64 | `active` and `startedAt` follow the changed row's present columns. A change of `active` re-runs the debounce. |
| SessionView.Client.OnPresenceSync | components/SessionView.tsx:76-83 | `peersTyping` becomes the number of typing metas under keys other than the client's own. |
| SessionView.Client.Save | components/SessionView.tsx:118-127 | Inactive: nothing changes. Success: the notes row holds the content, `lastLocalSaveAt` is the clock and the status is saved. Failure: the store and `lastLocalSaveAt` are untouched and the status is idle. |
| SessionView.Client.OnDebounceDue | components/SessionView.tsx:144-148 | The due timer persists the latest notes (the invariant guarantees that is what it carries) and is consumed. |
| SessionView.Client.StartClass | components/SessionView.tsx:158-164 | The log gains the session upsert `{active, started_at: now, ended_at: null}` and then the notes upsert ''. Whatever the write outcomes, the local notes are '', `active` holds and `startedAt` is set. |
| SessionView.Client.EndClass | components/SessionView.tsx:166-180 | The log gains, in order, the archive insert, the session upsert and the notes clear. The archive insert holds the stored notes ('' if absent or unread) and starts at `startedAt`, or at the fresh reading when there is none. The session upsert is `{inactive, startedAt, ended}`. The archive gains at most that one entry. Locally the class is inactive with no start time and no pending save. |
| SessionScenarios.ClassLifecycle | components/SessionView.tsx:144-180 | Start; the student's edit "Scale practice" replaces the save the session change scheduled; every timer fires before any later event; then end: the archive is exactly one entry with that content, and the stored notes are ''. |
| SessionScenarios.DebounceCoalesces | components/SessionView.tsx:144-156 | Three keystrokes each less than 500 ms apart while active are persisted once: the log holds a single notes upsert of the last text. |
| SessionScenarios.CrossedBroadcasts | components/SessionView.tsx:85-105 | In an active class, two clients editing at times 1 and 2 that receive each other's broadcasts end with different text. |
| SessionScenarios.GraceWindowDropsForeignContent | components/SessionView.tsx:123-138 | A notes change with another writer's content, 500 ms after a local save, is dropped. |
| GuidedTour.NextIndex | components/GuidedTour.tsx:61-66 | Null is read as -1. The result is i+1 exactly when i+1 < step count, and null otherwise. |
| GuidedTour.Rings | components/GuidedTour.tsx:115-132 | A `.keys` target rings its `.key` children. A numbers-keys target rings the pressed `li` found inside it, else the one found in the document, else itself. Any other target rings itself. The shape is a circle if and only if the target is a key group, a numbers-keys target with a pressed `li`, or (not numbers-keys) `#center`. |
| GuidedTour.ClearedAllAt | components/GuidedTour.tsx:99-105 | Resetting a list of elements leaves each of them cleared and every other element's style as it was. |
| GuidedTour.RingedAllAt | components/GuidedTour.tsx:107-113 | Ringing a list of elements gives each of them the ring and leaves every other style as it was. |
| GuidedTour.ClearedAllUnrings | components/GuidedTour.tsx:52-58 | When every ringed element is listed, resetting the list leaves no ring anywhere. |
| GuidedTour.HighlightExactly | components/GuidedTour.tsx:97-132 | After clearing the old outlines and ringing the step's elements, an element carries a ring exactly when it is one of the step's elements. |
| GuidedTour.ShouldAutoStart | components/GuidedTour.tsx:75-79 | Without only-once it starts exactly when mounted with auto-start on. With only-once, a stored done flag prevents it, and a missing key lets it start. |
| GuidedTour.ShownOnce | components/GuidedTour.tsx:48-79 | With only-once, a tour that auto-started and was ended is not auto-started again by the next mount over the same storage. |
| GuidedTour.Tour.constructor | components/GuidedTour.tsx:21-45 | Starts with a null index, not mounted, nothing outlined, and the given storage and options. |
| GuidedTour.Tour.Mount | components/GuidedTour.tsx:68-69 | The mount effect sets `mounted`. |
| GuidedTour.Tour.Start | components/GuidedTour.tsx:47 | `start` sets the index to 0. |
| GuidedTour.Tour.ClearOutlines | components/GuidedTour.tsx:52-58 | Every outlined element is reset, `outlined` is left empty, and no ring remains. |
| GuidedTour.Tour.End | components/GuidedTour.tsx:48-59 | `end` nulls the index, writes '1' under the storage key, resets every outlined element and empties `outlined`. |
| GuidedTour.Tour.Next | components/GuidedTour.tsx:61-66 | The index becomes `NextIndex`. Past the last step it runs `end`. The invariant keeps the index null or within the steps when there are steps. |
| GuidedTour.Tour.RunAutoStart | components/GuidedTour.tsx:75-79 | Starts only when mounted, auto-start is on, and not (only-once and the storage flag is set). |
| GuidedTour.Tour.RingEach | components/GuidedTour.tsx:107-113 | Rings each element in order, so that `outlined` is exactly those elements. |
| GuidedTour.Tour.Place | components/GuidedTour.tsx:87-133 | A null index does nothing. A missing target or tip advances with `next`: while a step remains storage, styles and `outlined` are unchanged; past the last step it records the done flag and resets every ring as `end` does. Otherwise, when highlighting, the old rings are cleared and `outlined` is exactly the step's ringed elements. |
| Tuner.JsRem12 | public/chromatic-tuner/tuner.js:80 | JavaScript `note % 12`: Euclidean for non-negative notes, never positive for negative ones. |
| Tuner.JsTruncDiv12 | public/chromatic-tuner/tuner.js:83 | `parseInt(note / 12)` truncates, and with the remainder recomposes the note. |
| Tuner.NoteName | public/chromatic-tuner/tuner.js:80 | The name is defined exactly when the JavaScript index is non-negative, and is that entry of the 12 names. |
| Tuner.Octave | public/chromatic-tuner/tuner.js:83 | `parseInt(note / 12) - 1`: with the JavaScript remainder it recomposes the note, and for note ≥ 0 it is `note / 12 - 1`. |
| Tuner.NoteDecomposes | public/chromatic-tuner/tuner.js:80-83 | For note ≥ 0: name index `note % 12`, and `12*(octave+1) + index == note`. |
| Tuner.NegativeNoteHasNoName | public/chromatic-tuner/tuner.js:80-83 | Below 0 only multiples of 12 have a name ("C"); other notes read `undefined`. |
| Tuner.SemitoneIsA4 | public/chromatic-tuner/tuner.js:3-18 | There are exactly 12 names, index 9 is "A", and note 69 is ("A", octave 4). |
| Tuner.OnAudioFrame | public/chromatic-tuner/tuner.js:56-86 | Sensitivity 0 drops the frame. An event is produced exactly when the frame is loud enough, a pitch is found and a callback is set, and it carries the note's name, number and octave. |
| Tuner.Tuner.constructor | public/chromatic-tuner/tuner.js:1-24 | `middleA` is `a4`, or 440 when `a4` is falsy. `semitone` is 69. The 12 names are set. Sensitivity is 50 and there is no oscillator. |
| Tuner.Tuner.Play | public/chromatic-tuner/tuner.js:155-162 | Creates and starts an oscillator only when none exists, otherwise reuses the same one. Either way it is retuned to the frequency. |
| Tuner.Tuner.StopOscillator | public/chromatic-tuner/tuner.js:164-169 | Stops and drops an existing oscillator; with none, it changes nothing. |
| Tuner.Tuner.SetSensitivity | public/chromatic-tuner/tuner.js:172-174 | Stores the value verbatim. |
| Tuner.StopThenPlay | public/chromatic-tuner/tuner.js:155-169 | After `stopOscillator`, `play` starts a fresh, running oscillator at the frequency. |
| Tone.Uncertainty | public/chromatic-tuner/tone.js:125-128 | A non-array gives []. Otherwise the length is 3·n, and positions 3i, 3i+1, 3i+2 hold v−d, v, v+d. |
| Tone.Expand | public/chromatic-tuner/tone.js:127 | The map-and-flat expansion has length 3·n with each value's triple at 3i. |
| Tone.ExpandAllLayout | public/chromatic-tuner/tone.js:95-101 | Concatenating expanded 12-entry tables puts table t's entry i at 36t + 3i + 1, flanked by ∓ its tolerance. |
| Tone.DifferenceFreqArray | public/chromatic-tuner/tone.js:95-101 | The spread of the five expansions equals the independent in-order concatenation `ExpandAll` over the tables and their tolerances. |
| Tone.DifferenceFreqArrayLayout | public/chromatic-tuner/tone.js:83-101 | `differenceFreqArray` has 180 values laid out table by table, entry by entry. |
| Tone.ButtonRow.Click | public/chromatic-tuner/tone.js:60-78 | After clicking button k, exactly button k carries the marker class ("pressed" for octaves, "clicked" for keys). |
| Tone.Keyboard.PlayNote | public/chromatic-tuner/tone.js:5-18 | A key code with no `.key` changes nothing. Otherwise the key gets "playing", the display shows its note, and its audio plays when present. |
| Tone.Keyboard.RemoveTransition | public/chromatic-tuner/tone.js:20-23 | A finished transition removes "playing" from that key. |
| Tone.InvertBackground | public/chromatic-tuner/tone.js:131-150 | Highlight if and only if a note is playing and the detected name and octave both equal it; otherwise the defaults are restored. |
| Tone.IsFrequencyInRange | public/chromatic-tuner/tone.js:154-156 | True exactly for a number within both bounds, inclusive; NaN is never in range. |
| ResetPassword.Validate | app/reset-password/page.tsx:37-44 | No error if and only if the length is ≥ 8 and both fields match. The length error takes precedence over the mismatch. |
| ResetPassword.ResetPasswordPage.OnAuthEvent | app/reset-password/page.tsx:21-23 | A PASSWORD_RECOVERY event makes the page ready. Readiness is never reset. |
| ResetPassword.ResetPasswordPage.OnSessionResolved | app/reset-password/page.tsx:26 | The resolved session lookup makes the page ready. |
| ResetPassword.ResetPasswordPage.Submit | app/reset-password/page.tsx:33-47 | The error is cleared and then set to the validation result. `updateUser` is called, and loading set, only when validation passes. |
| ResetPassword.ResetPasswordPage.OnUpdateResult | app/reset-password/page.tsx:47-55 | Loading ends. An error is shown and `done` stays as it was; success sets `done`. |
| Login.Route | app/login/LoginClient.tsx:46-50 | `/admin` if and only if the resolved role is "admin"; `/dashboard` otherwise. |
| Login.ResolveRole | app/login/LoginClient.tsx:30-44 | A non-empty metadata role, lowercased, is the role whatever the profile says. A missing or empty metadata role defers to the lowercased profile role. |
| Login.LowerChar | app/login/LoginClient.tsx:31 | An ASCII upper-case letter becomes its own lower case (code + 32); every other character is kept. |
| Login.AdminAnyCase | app/login/LoginClient.tsx:30-47 | Every ASCII casing of "admin" routes to `/admin`. |
| Login.LoginPage.Trigger | app/login/LoginClient.tsx:97-101 | A login starts only when none is running. |
| Login.LoginPage.OnPasswordKey | app/login/LoginClient.tsx:80-82 | Enter starts a login only when not loading; other keys do nothing. |
| Login.LoginPage.Finish | app/login/LoginClient.tsx:14-56 | A sign-in error, a missing user or an exception alerts and does not navigate. A signed-in user navigates to the route of the resolved role. The profile is looked up only when the metadata role is unresolved. Loading always ends false. |
| Signup.Prepare | app/signup/SignupClient.tsx:20-39 | A request exists if and only if all four fields are non-empty. It carries the email, the password, the trimmed full name, both names verbatim and role "student". |
| Signup.HandleSignup | app/signup/SignupClient.tsx:17-56 | Navigates to `/enter-class` if and only if the fields pass and sign-up returned a session. Missing fields stop before the call. |
| Signup.BlankFieldsPass | app/signup/SignupClient.tsx:20-25 | Whitespace-only fields pass the required-field check, and give an empty full name. |
| Signup.FullName | app/signup/SignupClient.tsx:25 | The full name has no surrounding whitespace. It is `first + " " + last` when those carry none at the ends. |
| SiteUrl.GetSiteUrl | lib/siteUrl.ts:1-3 | A non-empty site URL is returned unchanged; else a non-empty Vercel URL gives "https://" + it; else the localhost URL. The result is never empty. |

## Left out

- The Supabase client, channel subscription and teardown, the `mounted` guard of the load effect, and the Daily video component and room fetch. These are foreign I/O. Reads and writes are abstract operations on `SessionStore.Store`, and deliveries are handler calls.
- Real interleaving of the channels. Each handler runs atomically at its clock reading.
- SessionView.Client.Save: runs atomically across its one await, so the transient 'saving' status is never observable between events.
- The archive listing (`setArchive` after `endClass` and at load) and the `ArchivedContent` fetch. Their order comes from the database.
- The `cssUrl` effect, JSX rendering and status texts. The read-only textarea is modelled only as `OnLocalEdit`'s requirement that the class be active.
- SessionView.Client.EndClass and SessionView.Client.StartClass: the awaits between writes are not interleaving points. Another handler cannot run between two writes of one call.
- Tooltip placement and arrow geometry in `place` (floating-point DOMRect arithmetic), `scrollIntoView`, and the `window.startTour` / `exposeStart` hooks.
- `getNote`, `getStandardFrequency`, `getCents`, the RMS threshold and the meter angle use floating point. The model takes their results as parameters (`loudEnough`, `note`) and leaves cents out of `Tuner.NoteEvent`.
- Microphone, AudioContext and aubio setup, and the `app.js` wiring.
- The key click handler of `tone.js` (lines 35-56) that picks an audio by octave and sets `currentlyPlayingNote`, and the hint transition delays. `Tone.InvertBackground` takes the playing note as a parameter.
- Login.LowerChar: `toLowerCase` is modelled on ASCII letters only.
- Signup.IsSpace: `trim` is modelled on ASCII whitespace only.
- ResetPassword.Validate: string length counts characters, not UTF-16 code units.
- Tone.Keyboard.PlayNote: a missing audio element makes `playNote` throw a TypeError after the key lit up and the display changed. The model ends the call there without an error value.
- Login.LoginPage.Finish: alert texts and the console log of a profile error are not modelled; alerts are counted.
- The thin auth pages, admin pages, the CSP builder in `next.config.ts`, the UI-only components and the Tailwind configuration.
