# SecureThought mock telemetry service — Dafny model

This project models the one stateful part of the SecureThought demo dashboard: the mock
vector-database service `CyborgDBService` (`services/cyborgdb.ts`) and the small view reducers
that consume it.

The service holds three things:

- a newest-first buffer of synthetic threats, seeded with 50 and capped at 200;
- an unbounded newest-first audit history;
- an optional signed-in user.

Its operations are `login`, `logout`, `getCurrentUser`, `addToHistory`, `getUserHistory`,
`getStats`, one firing of the `streamThreats` timer, and `search`. The consuming views are:

- the shell's screen gate and ten-item notification feed (`Layout`);
- the four-step wizard (`Onboarding`);
- the eight-item live feed and its counters (`Dashboard`);
- the notification drop-down (`Notifications`);
- the clamped camera zoom (`ThreeViz`).

Every operation is a pure function over an immutable state record. Each `Math.random()` the
source calls becomes a `Draw` argument, a real in [0, 1). Each `generateId()` becomes a string
argument. `Math.floor(Math.random() * n)` is `CyborgDB.Pick` in the stats call. In threat
generation, each such value is an index field of `CyborgDB.ThreatDraw` whose type bounds it
below `n`. Similarity scores are the exact reals `0.85 + r * 0.14`.

Modules, one per source file, plus `Feed`, `Ranking` and `ServiceTrace`:

- `Types`: the records of `types.ts`.
- `Feed`: the `[x, ...prev].slice(0, n)` update shared by the shell and the dashboard.
- `CyborgDB`: the service.
- `Ranking`: the sort inside `search`.
- `ServiceTrace`: runs of many service calls.
- `Layout`, `Onboarding`, `Dashboard`, `Notifications`, `ThreeViz`: the views.

Source quirks kept as written:

- `login` puts the raw typed username, not the defaulted one, into the avatar seed and the
  history text.
- `logout` records no history entry.
- A threat's title and its `type` come from two independent draws.
- A search result's match-reason number comes from a second draw and need not equal the
  result's score.
- `isConnected` is set by the constructor and never read.
- The login form refuses a username that is blank after `trim()` before calling `login`.
  `Layout.IsBlank` checks this over the characters JavaScript trims. The form passes the
  untrimmed input, so `login`'s `SecOp_Admin` default for an empty username cannot be
  reached from the UI.
- The notification drop-down belongs to the main layout, so it shows on no other screen even
  when its flag is still set after a logout.

## Model

| member | source | states |
|---|---|---|
| `CyborgDB.GenerateMockThreat` | services/cyborgdb.ts:16-27 | every generated threat is Active and encrypted; its id, type, severity, `vec_` vector id and confidence 85 + step come from their own draws; its title starts with the title draw's type and its source address with `192.168.` |
| `CyborgDB.MockTitle` | services/cyborgdb.ts:18 | a title starts with the attack type of its own draw |
| `CyborgDB.MockSourceIp` | services/cyborgdb.ts:22 | every source address starts with `192.168.` |
| `CyborgDB.TitleAndTypeAreIndependent` | services/cyborgdb.ts:18-19 | some draws give a threat titled "Ransomware…" whose type is "Phishing": the title and the type are drawn separately |
| `CyborgDB.NewService` | services/cyborgdb.ts:36-43 | construction seeds exactly 50 threats, one per draw in draw order, with empty history, no user, the connected flag set, and the service invariant established |
| `CyborgDB.AddToHistory` | services/cyborgdb.ts:69-79 | exactly one encrypted entry is added at the head; an omitted status means Success; all older entries stay unchanged and in order; threats and session are untouched |
| `CyborgDB.Login` | services/cyborgdb.ts:46-58 | the session becomes an Admin of clearance 5 named by the input, or `SecOp_Admin` for empty input; the avatar seed and the one new LOGIN/Success entry use the raw input; threats are untouched |
| `CyborgDB.Logout` | services/cyborgdb.ts:60-62 | the session becomes empty and neither threats nor history change |
| `CyborgDB.CurrentUserFollowsSession` | services/cyborgdb.ts:46-66 | `getCurrentUser` returns the user `login` returned, none after `logout`, and is unchanged by a search |
| `CyborgDB.GetStats` | services/cyborgdb.ts:87-95 | total = buffer length, encrypted vectors = 768 × total, active queries in [10, 59], security score 98 |
| `CyborgDB.Unshift` | services/cyborgdb.ts:101-102 | the new threat goes to the head, only the oldest is dropped and only past 200; within the cap this equals the bounded feed push |
| `CyborgDB.StreamTick` | services/cyborgdb.ts:97-106 | a threat is inserted and handed to the callback exactly when the draw exceeds 0.7, otherwise nothing changes; the cap and the service invariant are kept and history and session are untouched |
| `CyborgDB.Similarity` | services/cyborgdb.ts:118 | every similarity score lies in [0.85, 0.99) |
| `CyborgDB.ScoreAll` | services/cyborgdb.ts:114-122 | scoring keeps the threats in order, one result each, with the result id equal to the threat id and the source metadata |
| `CyborgDB.Rank` | services/cyborgdb.ts:114-123 | the results are min(8, n) long, sorted by non-increasing score, their threats a permutation of the first min(8, n) buffered threats, each result well-formed |
| `CyborgDB.Search` | services/cyborgdb.ts:108-126 | one SEARCH/Success entry carrying the query and the mode text (semantic when omitted) is added at the head of the history; threats and session are untouched; the results are the ranking of the buffer |
| `CyborgDB.ReasonDoesNotEchoScore` | services/cyborgdb.ts:121 | a result's match-reason number can differ from its score |
| `Ranking.InsertAddsOne` | services/cyborgdb.ts:123 | one insertion step of the sort adds exactly the inserted result and nothing else |
| `Ranking.InsertAddsThreat` | services/cyborgdb.ts:123 | one insertion step adds exactly the inserted result's threat |
| `Ranking.InsertKeepsSorted` | services/cyborgdb.ts:123 | inserting into a list sorted by non-increasing score keeps it sorted |
| `Ranking.SortIsSorted` | services/cyborgdb.ts:123 | the sort's output is ordered by non-increasing score |
| `Ranking.SortIsPermutation` | services/cyborgdb.ts:123 | the sort's output is a permutation of its input |
| `Ranking.SortKeepsThreats` | services/cyborgdb.ts:114-123 | sorting neither adds nor drops a matched threat |
| `ServiceTrace.RunKeepsValid` | services/cyborgdb.ts:97-106 | over any interleaving of calls the buffer never exceeds 200, every threat stays well-formed and every history entry stays encrypted |
| `ServiceTrace.RunHistoryGrowth` | services/cyborgdb.ts:69-79 | over any run the history grows by exactly one entry per login or search and keeps every earlier entry as its tail |
| `ServiceTrace.RunKeepsSession` | services/cyborgdb.ts:64-66 | without a login or logout in between, reading the current user returns the same value |
| `ServiceTrace.LastSessionOpDecides` | services/cyborgdb.ts:46-62 | the last login or logout decides the session: none after a logout, the typed username (or `SecOp_Admin`) after a login |
| `ServiceTrace.RunThreatsArePushed` | services/cyborgdb.ts:97-106 | from within the cap, only timer firings change the buffer: a run pushes exactly its arrivals onto it, each as the bounded feed update |
| `ServiceTrace.RunThreatsAreNewestFirst` | services/cyborgdb.ts:99-104 | over any run the buffer is the newest 200 of all inserted threats, newest first, followed by the earlier buffer: eviction is oldest first |
| `Feed.Push` | components/Layout.tsx:41 | the feed update keeps at most the cap, puts the new item at the head and keeps a prefix of the previous feed behind it |
| `Feed.PushAllKeepsNewest` | components/Layout.tsx:40-42 | after any arrivals the feed is the newest `cap` of all arrivals and the old feed: older items are evicted first |
| `Feed.PushAllBounded` | components/Dashboard.tsx:160-161 | arrivals fill the feed up to its cap and the latest arrival is at the head |
| `Layout.Mount` | components/Layout.tsx:36-37 | the mounted shell's user is the service's current user; it shows Login exactly when the service has no session, and never the wizard |
| `Layout.CurrentScreen` | components/Layout.tsx:56-62 | Login exactly when there is no user, whatever the wizard flag; Onboarding exactly with a user and the flag; the main layout otherwise |
| `Layout.HandleLogin` | components/Layout.tsx:45-48 | the user is stored and the wizard turned on, so the Onboarding screen shows |
| `Layout.SubmitLogin` | components/Login.tsx:15-30 | a blank username changes neither shell nor service; otherwise the shell holds the user the service holds, under the raw typed name, shows the wizard, and the service gained one history entry |
| `Layout.BlankSubmitStaysOnLogin` | components/Login.tsx:17 | with no session, a blank submit keeps the login screen and leaves the service as it was |
| `Layout.CompleteOnboarding` | components/Layout.tsx:61 | finishing the wizard turns its flag off, revealing the main layout for a signed-in user |
| `Layout.HandleLogout` | components/Layout.tsx:50-54 | the service session and the shell user are both cleared, the wizard is off, Login shows with no drop-down, the drop-down flag is kept, and history is unchanged |
| `Layout.OnStreamedThreat` | components/Layout.tsx:40-42 | the feed is `[threat] ++ prev` cut to 10: at most 10 long, newest at the head, the rest a prefix of the previous feed |
| `Layout.ToggleNotifications` | components/Layout.tsx:152 | the bell flips the drop-down flag and changes nothing else |
| `Layout.CloseNotifications` | components/Layout.tsx:161 | closing shuts the drop-down and changes nothing else |
| `Layout.NotificationPanel` | components/Layout.tsx:56-62 | the drop-down renders exactly on the main screen with its flag set, and then composes the shell's feed |
| `Layout.PanelShowsNewestThreat` | components/Layout.tsx:159-163 | on the main screen, the open drop-down's first threat entry is the latest streamed threat |
| `Layout.SessionWalksThroughScreens` | components/Layout.tsx:45-62 | for a non-blank username, login, finishing the wizard and logout pass through Onboarding, main and Login, with shell and service agreeing on the user |
| `Onboarding.StepCount` | components/Onboarding.tsx:11-40 | the wizard has exactly four steps |
| `Onboarding.HandleNext` | components/Onboarding.tsx:42-48 | Next advances the step when it is below the last step and otherwise completes the wizard with the step unchanged; the range 0..3 is preserved |
| `Onboarding.ButtonLabel` | components/Onboarding.tsx:104 | the label is "Launch System" exactly on the last step and "Next" on every other |
| `Onboarding.Dots` | components/Onboarding.tsx:92-96 | one dot per step, highlighted exactly for the current step |
| `Onboarding.ExactlyOneDot` | components/Onboarding.tsx:92-96 | on a valid step exactly one dot is highlighted |
| `Onboarding.ProgressGrowsToFull` | components/Onboarding.tsx:68 | progress (step+1)/4 × 100 strictly increases with the step and is 100 exactly on the last step |
| `Onboarding.FourPressesComplete` | components/Onboarding.tsx:9-48 | from the start step 0, the first three presses advance and the fourth completes the wizard |
| `Dashboard.Initial` | components/Dashboard.tsx:136-137 | every counter starts at zero, the feed empty and the waiting placeholder shown |
| `Dashboard.ReceiveStats` | components/Dashboard.tsx:159 | the service's stats reply replaces every counter and leaves the feed alone |
| `Dashboard.OnStreamedThreat` | components/Dashboard.tsx:160-163 | the feed is `[threat] ++ prev` cut to 8, the threat counter goes up by one, the other counters stay, and the placeholder is gone |
| `Dashboard.StreamCountsEveryThreat` | components/Dashboard.tsx:160-162 | after any stream the counter has grown by the stream's length and the feed holds the newest eight, newest first |
| `Dashboard.CounterIsUncapped` | components/Dashboard.tsx:162 | from the initial page the counter equals the number of streamed threats with no cap, while the feed holds min(n, 8) |
| `Notifications.Compose` | components/Notifications.tsx:15-51 | closed renders nothing; open lists sys-1, one entry per threat among the first four (same order, id, severity, title "Threat Detected: " + type), then sys-2; the header count equals the list length |
| `Notifications.IconOf` | components/Notifications.tsx:64-74 | a threat entry's icon is red exactly when it is Critical and orange otherwise; a system notice is green exactly when its status is success |
| `Notifications.PreviewIconMatchesSeverity` | components/Notifications.tsx:71-73 | each previewed threat shows red exactly when the threat is Critical |
| `ThreeViz.HandleZoom` | components/ThreeViz.tsx:147-149 | the zoom moves by the delta when that stays inside [5, 50] and otherwise stops at the nearer bound, so it always stays in [5, 50] |
| `ThreeViz.ZoomIn` | components/ThreeViz.tsx:164 | zoom-in lowers the zoom by 5, no lower than 5, and at 5 stays at 5 |
| `ThreeViz.ZoomOut` | components/ThreeViz.tsx:171 | zoom-out raises the zoom by 5, no higher than 50, and at 50 stays at 50 |
| `ThreeViz.ZoomButtonsUndoEachOther` | components/ThreeViz.tsx:164-171 | away from the bounds, zoom-in and zoom-out undo each other |
| `ThreeViz.Reset` | components/ThreeViz.tsx:178-183 | reset returns to 20 only when the point cloud exists and otherwise leaves the zoom |
| `ThreeViz.ZoomStaysInRange` | components/ThreeViz.tsx:13 | starting from 20, no sequence of button presses leaves [5, 50] |
| `ThreeViz.PressAllKeepsRange` | components/ThreeViz.tsx:147-149 | from any zoom in [5, 50], every sequence of button presses stays in [5, 50] |

## Left out

- Simulated latency (`simulateLatency`) and the `setInterval` timer: each operation and each timer firing is one atomic step.
- The interleaving of awaited calls with timer firings is not modelled; `ServiceTrace` runs apply whole calls in sequence.
- Two subscribers (the shell and the dashboard) each start their own timer; that stacking is scheduling and is left out.
- `Math.random()` and `generateId()` are arguments. Id uniqueness is not claimed, because the source does not ensure it.
- `Date` timestamps, locale formatting and `toFixed` are left out. A search result keeps the unrounded number behind its match-reason text, not the text.
- Floating-point rounding is left out: draws and scores are exact reals.
- The `logs` audit array is left out: nothing writes or reads it.
- The optional threat fields `description`, `affectedSystems` and `remediation` are left out: the service never sets them.
- `services/ai.ts` and `components/AiAssistant.tsx` are left out: they wrap an external chat API, speech and file download.
- Three.js scene set-up, particles, animation and mouse rotation in `ThreeViz` are left out: rendering only.
- Charts, static pages, routing, and the `Login`, `Search` and `History` views are left out: they only render service output. The login form's hand-off is kept in `Layout.SubmitLogin`.
- `getUserHistory` is `CyborgDB.GetUserHistory`, a plain read of the history; its properties are stated through `ServiceTrace.RunHistoryGrowth`.
- Ranking.SortByScore: sortedness and permutation are proved. The definition keeps equal scores in input order, as JavaScript's stable sort does, but that stability is not stated as a proved property.
- ThreeViz.HandleZoom: zoom deltas are integers; the source only ever passes ±5.
