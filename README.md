# RailTrace offline action buffer and inspector classification, in Dafny

RailTrace is a demonstration front end for tracking railway components. This project
models two parts of it.

**The offline action buffer** (`OfflineProvider` in `src/contexts/OfflineContext.tsx`).
The provider tracks whether the browser is online. It keeps a FIFO queue of actions the
user records, and it mirrors that queue into a local-storage slot. It also has a sync
status (`idle`, `syncing`, `completed` or `error`). `offline_context.dfy` models it in two
layers:

- The provider's state is a value `State`, with one pure transition function per event:
  `Boot`, `SetOnline`, `SetOffline`, `Add`, `AddUnsaved`, `Sync`, `Finish`, `Fail` and
  `Reset`. `Run`
  applies any sequence of events. The lemmas prove facts that hold in every reachable
  state, whatever the order of the events.
- The class `OfflineProvider` holds the same state in fields. Its methods overwrite those
  fields as the source's setters do. Each method is proved to perform exactly one
  transition (`View() == F(old(View()))`), and its new fields are also stated directly.

The asynchronous sync is split into steps, so other events can happen during the
two-second delay:

- `BeginSync` runs the guard, sets the status to syncing and starts the delay.
- `FinishSync` or `FailSync` runs when the delay ends.
- `ResetStatus` is one firing of a three-second "back to idle" timer.

Syncs can overlap. Nothing stops a second sync from starting during a delay: going
offline and back online re-runs the auto-sync. So the state keeps the queue each running
sync captured (`inFlight`, oldest first) and the number of timers not yet fired
(`resetTimers`).

What the model shows about the source:

- A successful sync empties the whole queue, including actions recorded during its delay.
  Those actions were never part of the sync (`LateActionDropped`).
- The copy flagged `synced: true` is computed (`MarkSynced`) and then thrown away. No
  record in memory, in storage or in a running sync is ever flagged as synced
  (`RunKeepsUnsynced`).
- At start-up the auto-sync effect sees the queue of the first render, which is empty. So
  a queue loaded from storage is not synced at start-up, even when online (`Boot`).

**The inspector dashboard's classification helpers** (`src/components/dashboards/InspectorDashboard.tsx`).
`inspector_dashboard.dfy` models `getStatusColor`, `getRiskColor`, `getPriorityColor` and
`getHealthScoreColor`. Each one first picks a colour (a `Tone`) and then builds the exact
Tailwind class string the dashboard uses for it. Each helper's contract states which
inputs give which class string. A lemma proves that each class family separates colours.

A failed write does not leave memory and storage in step. Both `addAction` and the
sync set the in-memory queue before they touch storage:

- In `addAction`, serialising the queue or writing the slot can throw (a cyclic payload,
  a full or blocked storage). The new record then stays in memory only (`AddUnsaved`).
- In a sync over a well-formed array of records, the one statement that can throw is
  removing the slot. The in-memory queue is already empty by then, so `Fail` leaves the
  queue empty, leaves the slot as it was, and sets the status to error.

Three facts about storage are proved, each for the runs it holds in:

- `InStep`: memory and storage agree both ways. The slot holds exactly the queue, or the
  queue is empty and there is no slot, so a reload restores exactly the pending queue.
  This is proved for runs in which nothing fails, that is, with no failed `addAction`
  write and no failed sync.
- `Mirrored`: a non-empty queue is exactly what storage holds. This is one direction only,
  and it survives failed syncs. It is proved for runs in which every `addAction` saves its
  record.
- A failed sync clears the queue in memory but not in storage, so a reload brings the
  cleared records back (`FailedSyncResurrects`).

The status invariant (`Inv`) is proved for every run.

## Model

| member | source | states |
|---|---|---|
| `OfflineContext.NewAction` | src/contexts/OfflineContext.tsx:57-63 | the new record keeps the caller's type and data, takes the given timestamp, is never flagged synced, and its id is `action_` followed by the clock reading in decimal |
| `OfflineContext.Decimal` | src/contexts/OfflineContext.tsx:60 | the clock reading in an id is a non-empty string of decimal digits that spells exactly that reading, with no leading zero |
| `OfflineContext.MarkSynced` | src/contexts/OfflineContext.tsx:78-79 | the flagged copy has the queue's length, and each element is the queue's element at the same position with `synced` set to true |
| `OfflineContext.Boot` | src/contexts/OfflineContext.tsx:27-55 | at start-up the queue is the stored sequence when the slot holds one and empty otherwise; the status is idle and no sync has started |
| `OfflineContext.Sync` | src/contexts/OfflineContext.tsx:70-76 | offline or with an empty queue nothing changes; otherwise the status becomes syncing and a sync over the current queue starts, with the queue and storage untouched |
| `OfflineContext.SetOnline` | src/contexts/OfflineContext.tsx:32-55 | the online event sets the flag and leaves the queue and storage alone; if the provider was offline and the queue is non-empty, a sync starts; otherwise the status is unchanged |
| `OfflineContext.SetOffline` | src/contexts/OfflineContext.tsx:33 | the offline event clears the flag and changes nothing else |
| `OfflineContext.Add` | src/contexts/OfflineContext.tsx:57-68 | the queue grows by exactly one record at the end, every earlier element is unchanged and in place, the storage slot then holds the whole queue, and nothing else changes |
| `OfflineContext.AddUnsaved` | src/contexts/OfflineContext.tsx:57-68 | when the storage write throws, the queue still grows by exactly one record at the end with every earlier element in place, and the slot and everything else are unchanged |
| `OfflineContext.Finish` | src/contexts/OfflineContext.tsx:80-84 | a successful sync leaves the queue empty and the slot absent, sets the status to completed and schedules one reset timer |
| `OfflineContext.Fail` | src/contexts/OfflineContext.tsx:80-88 | a failing sync leaves the in-memory queue empty, leaves the storage slot as it was, sets the status to error and schedules one reset timer |
| `OfflineContext.Reset` | src/contexts/OfflineContext.tsx:84-88 | a firing timer sets the status back to idle and changes nothing else |
| `OfflineContext.BootInv` | src/contexts/OfflineContext.tsx:39-42 | the start-up state satisfies the status invariant, keeps memory and storage in step both ways, and holds no synced record when storage held none |
| `OfflineContext.StepKeepsInv` | src/contexts/OfflineContext.tsx:32-90 | every event keeps the status invariant: syncing means a sync is running, completed or error means a reset timer is pending, and every running sync carries a non-empty queue |
| `OfflineContext.StepKeepsMirrored` | src/contexts/OfflineContext.tsx:65-67 | every event except a failed write keeps a non-empty queue mirrored in storage |
| `OfflineContext.StepKeepsInStep` | src/contexts/OfflineContext.tsx:57-88 | every event except a failed write or a failed sync keeps the slot equal to the queue, or absent with the queue empty |
| `OfflineContext.ReloadRestoresQueue` | src/contexts/OfflineContext.tsx:39-42 | when memory and storage are in step, loading the slot at start-up gives back exactly the in-memory queue |
| `OfflineContext.FailedSyncResurrects` | src/contexts/OfflineContext.tsx:80-88 | a failed sync empties the queue but keeps the slot, so a reload brings back the queue the sync was clearing, and memory and storage are no longer in step |
| `OfflineContext.UnsavedAddBreaksMirror` | src/contexts/OfflineContext.tsx:66-67 | from a state with memory and storage in step, an `addAction` whose write fails leaves the slot as it was and no longer holding the queue |
| `OfflineContext.StepKeepsUnsynced` | src/contexts/OfflineContext.tsx:57-90 | no event puts a synced-flagged record into memory, storage or a running sync |
| `OfflineContext.RunKeepsInv` | src/contexts/OfflineContext.tsx:32-90 | the status invariant holds after any interleaving of events |
| `OfflineContext.RunKeepsMirrored` | src/contexts/OfflineContext.tsx:57-90 | a non-empty queue stays mirrored in storage after any interleaving of events in which every `addAction` saves its record; failed syncs are allowed |
| `OfflineContext.RunKeepsInStep` | src/contexts/OfflineContext.tsx:57-90 | memory and storage stay in step both ways after any interleaving of events in which nothing fails |
| `OfflineContext.RunKeepsUnsynced` | src/contexts/OfflineContext.tsx:78-81 | the copy flagged `synced: true` never reaches the queue, the storage slot or a later sync, after any interleaving of events |
| `OfflineContext.ReachableFromBoot` | src/contexts/OfflineContext.tsx:26-90 | every state reachable from start-up satisfies the status invariant; it mirrors a non-empty queue in storage when every `addAction` saved its record; when nothing failed, memory and storage are in step both ways and a reload restores exactly the queue; and it holds no synced record when storage held none at start-up |
| `OfflineContext.StatusSettlesToIdle` | src/contexts/OfflineContext.tsx:83-88 | once no sync is running, the pending timers bring the status back to idle, without touching the queue or storage |
| `OfflineContext.SuccessfulSync` | src/contexts/OfflineContext.tsx:71-84 | a sync that passes the guard goes syncing, then completed with the queue empty and the slot absent, then idle |
| `OfflineContext.FailedSync` | src/contexts/OfflineContext.tsx:71-88 | a sync that passes the guard and fails goes syncing, then error, then idle, with the storage slot untouched throughout |
| `OfflineContext.LateActionDropped` | src/contexts/OfflineContext.tsx:65-81 | an action recorded during a sync's delay is not in the queue that sync carries, yet the sync's success removes it from memory and storage |
| `OfflineContext.OfflineProvider.constructor` | src/contexts/OfflineContext.tsx:26-48 | mounting sets the flag, loads the stored queue (or none), starts idle with no sync or timer, and establishes the invariant |
| `OfflineContext.OfflineProvider.GoOffline` | src/contexts/OfflineContext.tsx:33 | only `isOnline` changes, to false |
| `OfflineContext.OfflineProvider.GoOnline` | src/contexts/OfflineContext.tsx:32-55 | sets `isOnline`, and when it was offline with a non-empty queue starts a sync; the queue and storage never change |
| `OfflineContext.OfflineProvider.AddAction` | src/contexts/OfflineContext.tsx:57-68 | appends the new record to the queue and writes the whole queue to storage; the other fields are unchanged |
| `OfflineContext.OfflineProvider.AddActionUnsaved` | src/contexts/OfflineContext.tsx:57-68 | the storage write throws: the new record is appended to the queue, and the slot and the other fields are unchanged |
| `OfflineContext.OfflineProvider.BeginSync` | src/contexts/OfflineContext.tsx:70-76 | a no-op when offline or empty; otherwise the status becomes syncing and the current queue becomes a running sync |
| `OfflineContext.OfflineProvider.FinishSync` | src/contexts/OfflineContext.tsx:78-84 | the oldest running sync ends: queue empty, slot absent, status completed, one timer scheduled |
| `OfflineContext.OfflineProvider.FailSync` | src/contexts/OfflineContext.tsx:80-88 | the oldest running sync fails: queue empty, slot as before, status error, one timer scheduled |
| `OfflineContext.OfflineProvider.ResetStatus` | src/contexts/OfflineContext.tsx:84-88 | a pending timer fires: the status becomes idle and nothing else changes |
| `InspectorDashboard.ClassesDistinguishTones` | src/components/dashboards/InspectorDashboard.tsx:87-121 | different colours give different badge, text and fill class strings |
| `InspectorDashboard.GetStatusColor` | src/components/dashboards/InspectorDashboard.tsx:87-94 | the class is `bg-green-100 text-green-800` exactly for `OK`, `bg-yellow-100 text-yellow-800` exactly for `Worn`, `bg-red-100 text-red-800` exactly for `Defective`, and `bg-gray-100 text-gray-800` for every other status |
| `InspectorDashboard.StatusTone` | src/components/dashboards/InspectorDashboard.tsx:87-94 | `OK`, `Worn`, `Defective` are exactly the green, yellow and red statuses; every other string is gray |
| `InspectorDashboard.GetRiskColor` | src/components/dashboards/InspectorDashboard.tsx:96-104 | the class is `text-green-600`, `text-yellow-600`, `text-orange-600`, `text-red-600` exactly for `low`, `medium`, `high`, `critical`, and `text-gray-600` for every other risk |
| `InspectorDashboard.RiskTone` | src/components/dashboards/InspectorDashboard.tsx:96-104 | `low`, `medium`, `high`, `critical` are exactly the green, yellow, orange and red risks; every other string is gray |
| `InspectorDashboard.RiskLevelsDistinct` | src/components/dashboards/InspectorDashboard.tsx:96-104 | the four known risk levels get four different class strings, none of them the gray default |
| `InspectorDashboard.GetPriorityColor` | src/components/dashboards/InspectorDashboard.tsx:106-113 | the class is `bg-red-500` exactly for `critical`, `bg-orange-500` exactly for `urgent` or `high`, `bg-yellow-500` exactly for `medium`, `bg-green-500` exactly for `normal` or `low`, and `bg-gray-500` for everything else |
| `InspectorDashboard.PriorityTone` | src/components/dashboards/InspectorDashboard.tsx:106-113 | `critical` is exactly red, `urgent`/`high` exactly orange, `medium` exactly yellow, `normal`/`low` exactly green, everything else gray |
| `InspectorDashboard.PrioritySharedColours` | src/components/dashboards/InspectorDashboard.tsx:106-113 | two priorities get the same class string exactly when they get the same colour; `urgent` matches `high` and `normal` matches `low` |
| `InspectorDashboard.HealthTone` | src/components/dashboards/InspectorDashboard.tsx:116-121 | green exactly when the score is at least 80, yellow exactly in [60, 80), orange exactly in [40, 60), red exactly below 40 |
| `InspectorDashboard.HealthBandMonotone` | src/components/dashboards/InspectorDashboard.tsx:116-121 | raising the score never moves it to a worse band in the order red < orange < yellow < green |
| `InspectorDashboard.GetHealthScoreColor` | src/components/dashboards/InspectorDashboard.tsx:116-121 | the class is `text-green-600` exactly from 80 on, `text-yellow-600` exactly in [60, 80), `text-orange-600` exactly in [40, 60), `text-red-600` exactly below 40 |

## Left out

- React rendering, the context object and the `useOffline` hook: these are framework glue.
- `localStorage` and JSON: the storage slot is an optional sequence of records, not a
  serialiser. In the model a stored sequence is read back exactly as it was written. In
  the source it is not: `JSON.stringify` and `JSON.parse` turn each record's `timestamp`
  from a `Date` into an ISO date string, so a queue loaded at start-up holds strings
  where freshly added records hold dates.
- A storage slot holding something other than an array of records. The model's slot
  always holds records. In the source, such a value makes the sync throw before the
  queue is cleared, so that error path leaves the queue untouched. An object or a
  number has no `length`, so it passes the guard and the `map` throws. A stored `null`
  throws earlier, at `.length`, already while rendering. These paths are outside the
  model.
- Real time. The two-second delay and the three-second timers are explicit steps, and
  any enabled step may come next. So the model allows orderings that the fixed
  durations rule out. For example, a reset timer may fire before a sync ends that was
  already in its delay when the timer was scheduled. The real timer fires three seconds
  later, and the sync ends within two.
- `Date.now()` and `new Date()`: they are parameters (`clock`, `time`) of
  `AddAction`. Ids are not claimed unique, because two actions recorded in the same
  millisecond get the same id.
- React state-update batching. Each event sees the state left by the previous one. Two
  `addAction` calls inside one event handler would see the same stale queue, and that
  is not modelled.
- `window` event listeners: the online and offline events are the methods `GoOnline`
  and `GoOffline`. An `online` event while already online changes nothing, because the
  flag does not change and the auto-sync effect does not re-run.
- The `console.error` call on the error path.
- HealthTone: the score is a `real`, so a JavaScript `NaN` score is not modelled. The
  source would give it red, since every comparison fails.
- The inspector dashboard's other state, its synthetic data and its handlers; the
  colour tables of the other dashboards; `BentoCard`, `Layout`, `Login` and `App`
  routing. These are presentational or random.
