# Tollway lane state machine

A model of the toll-lane logic of a small Android demo (`MainActivity`). A
driver moves through three driving states: `OffTollway` (the initial one),
`OnEntrance` and `OnTollway`. Two kinds of event change the state. The
first is three buttons: Entrance, Use and Exit. The second is two callbacks
from a proximity beacon: region entered and region exited. Each handler
checks the current state. It then does one of three things:

- sets a new state through the driving-state setter;
- shows a rejection toast;
- shows a "Whut" diagnostic or a "Bye!" farewell and keeps the state.

The setter always runs one effect routine, picked by the new state:

- `EnterTollway` hides the QR image and shows the wallet balance.
- `DriveTollway` encodes the toll-pass URL as a 400×400 QR code with no
  margin, shows it, and asks for it to be scanned at the exit.
- `ExitTollway` shows the QR image again and opens a Yes/No payment dialog.
  Its answers set the credits text.

Files:

- `tollway.dfy` (module `Tollway`): the model on values. `Machine` holds the
  driving state and the screen: QR visibility and bitmap, credits visibility
  and text, last toast, open dialogs. `Handle(m, e)` is one event and returns
  the new machine and the routine that ran. `Answer(m, c)` is one dialog
  reply. `Resumed` is a later resume, which hides both views. `Run` applies
  events in sequence. `Inv` is what events and answers keep. `Durable` is
  the weaker part that resumes keep too.
- `tollway_properties.dfy` (module `TollwayProperties`): the transition
  table, written separately and proved to match the handlers. Also each
  event's exact effect, what every accepted transition shows, the invariant,
  idempotence of ignored events, and the button and beacon round trips.
- `main_activity.dfy` (module `Android`): class `MainActivity`, with the
  activity's fields and the activity's handlers as methods. They assign the
  fields in place through the setter and the routines. Each method is proved
  equal to `Handle`/`Answer` on the snapshot of its fields. It also records
  the routines run in a ghost log. Its object invariant is `Durable`, which
  holds across resumes. The stronger `Inv` holds from construction and every
  handler keeps it when it held before, but `OnResume` can break its
  visibility parts: on the tollway or at the entrance it hides views that
  `Inv` requires to be shown. The client method `DriveThrough` replays a
  drive-through on one object: Entrance, Use, Exit, a Yes answer, a resume,
  then Entrance again.
- `click_wiring.dfy` (module `ClickWiring`): how taps reach the handlers
  across activity resumes. See Findings.

The QR encoder is modelled by the request it is given (payload, width,
height, margin), not by a bitmap. A toast is the last message requested,
with its length. A dialog is a value in the `dialogs` sequence until it is
answered. All events are sequential method calls on one object.

Two facts about the code that the model keeps as they are:

- Region exit moves `OnEntrance` to `OnTollway`. Region entry in
  `OnEntrance` and region exit in `OnTollway` only show "Whut".
- No routine clears the QR bitmap. `EnterTollway` only hides it (line 132),
  and `ExitTollway` shows the same image again (line 161).

## Model

| member | source | states |
|---|---|---|
| `Android.MainActivity.constructor` | com.codewisp.tollways/Android/MainActivity.cs:66-70 | starts in `OffTollway` (the field initialiser at line 35), with the QR image and credits hidden, no toast, no dialog, no routine run; the invariant holds |
| `Tollway.Handle` | com.codewisp.tollways/Android/MainActivity.cs:81-218 | one event: a routine runs iff the state changes, and it is the routine for the new state; an accepted event shows no toast; an ignored one keeps the dialogs and the bitmap. The `TollwayProperties` table lemmas give its exact outcome per event and state |
| `Tollway.SetDrivingState` | com.codewisp.tollways/Android/MainActivity.cs:36-44 | the new state is the value, a routine always runs, and the toast is untouched; `TollwayProperties.HandleFollowsTable` says which routine runs |
| `Tollway.Dispatch` | com.codewisp.tollways/Android/MainActivity.cs:112-128 | the switch: enter for `OnEntrance`, drive for `OnTollway`, exit by the default case; specified through `TollwayProperties.HandleFollowsTable` and `AcceptedEffects` |
| `Tollway.EnterTollway` | com.codewisp.tollways/Android/MainActivity.cs:130-136 | screen after the enter routine; specified by `TollwayProperties.AcceptedEffects` |
| `Tollway.DriveTollway` | com.codewisp.tollways/Android/MainActivity.cs:138-157 | screen after the drive routine; specified by `TollwayProperties.AcceptedEffects` |
| `Tollway.ExitTollway` | com.codewisp.tollways/Android/MainActivity.cs:159-179 | screen after the exit routine; specified by `TollwayProperties.AcceptedEffects` and `DialogOnlyOnExit` |
| `Tollway.Answer` | com.codewisp.tollways/Android/MainActivity.cs:165-175 | a dialog reply keeps the driving state, shows the credits and closes one dialog; `TollwayProperties.AnswerTable` gives the text per answer |
| `Tollway.Resumed` | com.codewisp.tollways/Android/MainActivity.cs:66-70 | a later resume keeps the state and hides the QR image and the credits; the bitmap, the credits text, the toast and the open dialogs stay as they were |
| `Tollway.Run` | com.codewisp.tollways/Android/MainActivity.cs:81-218 | events in sequence run at most one routine each; `RunAppend`, `RunKeepsInv`, `DialogsCountExits` and `IgnoredRepeated` specify it |
| `Android.MainActivity.OnResume` | com.codewisp.tollways/Android/MainActivity.cs:66-70 | a later resume hides both views and changes nothing else; it keeps `Durable` |
| `Android.MainActivity.SetDrivingState` | com.codewisp.tollways/Android/MainActivity.cs:36-44 | stores the value, and exactly one routine runs: the one the switch picks for the value |
| `Android.MainActivity.StateChanged` | com.codewisp.tollways/Android/MainActivity.cs:112-128 | `OnEntrance` runs the enter routine, `OnTollway` the drive routine, and the default (`OffTollway`) the exit routine; the state is not touched |
| `Android.MainActivity.EnterTollway` | com.codewisp.tollways/Android/MainActivity.cs:130-136 | QR hidden, credits shown with "You have Php 345.00 left on your wallet.", nothing else changed |
| `Android.MainActivity.DriveTollway` | com.codewisp.tollways/Android/MainActivity.cs:138-157 | QR shown holding `http://www.codewisp.com/` at 400×400, margin 0; credits shown with "Scan this QR code when you exit." |
| `Android.MainActivity.ExitTollway` | com.codewisp.tollways/Android/MainActivity.cs:159-179 | QR shown, one payment dialog ("Pay with your wallet?" / "…Pay Php 118.00 with your wallet?", No/Yes) added; credits untouched |
| `Android.MainActivity.AnswerNo` | com.codewisp.tollways/Android/MainActivity.cs:165-169 | closes the top dialog; credits shown with "Please proceed to the counter to pay."; driving state and routine log unchanged |
| `Android.MainActivity.AnswerYes` | com.codewisp.tollways/Android/MainActivity.cs:171-175 | closes the top dialog; credits shown with "Thank you for using the tollway!"; driving state and routine log unchanged |
| `Android.MainActivity.EntranceButtonOnClick` | com.codewisp.tollways/Android/MainActivity.cs:81-90 | from `OffTollway` goes to `OnEntrance` and runs the enter routine; in any other state only the short toast "You need to be off the tollway to enter!" changes |
| `Android.MainActivity.UseButtonOnClick` | com.codewisp.tollways/Android/MainActivity.cs:91-100 | from `OnEntrance` goes to `OnTollway` and runs the drive routine; otherwise only the toast "You need to use the entrance to drive through the tollway!" changes |
| `Android.MainActivity.ExitButtonOnClick` | com.codewisp.tollways/Android/MainActivity.cs:102-111 | from `OnTollway` goes to `OffTollway` and runs the exit routine; otherwise only the toast "You need to be using the tollway to exit" changes |
| `Android.MainActivity.BeaconManagerOnEnteredRegion` | com.codewisp.tollways/Android/MainActivity.cs:181-197 | `OffTollway` goes to `OnEntrance` (enter routine), `OnTollway` to `OffTollway` (exit routine); `OnEntrance` keeps everything but a long "Whut" toast |
| `Android.MainActivity.BeaconManagerOnExitedRegion` | com.codewisp.tollways/Android/MainActivity.cs:199-218 | `OnEntrance` goes to `OnTollway` (drive routine); `OffTollway` shows "Bye!" and hides QR and credits with no routine; `OnTollway` only shows "Whut" |
| `TollwayProperties.HandleFollowsTable` | com.codewisp.tollways/Android/MainActivity.cs:81-218 | an event runs a routine iff the separately written table has a row for (state, event); it then reaches that row's state, and the routine is the one picked for that state; otherwise the state is kept. A routine runs iff the state changes |
| `TollwayProperties.EntranceClickTable` | com.codewisp.tollways/Android/MainActivity.cs:81-90 | the exact outcome of Entrance in each state: accepted only in `OffTollway`, otherwise only the rejection toast |
| `TollwayProperties.UseClickTable` | com.codewisp.tollways/Android/MainActivity.cs:91-100 | the exact outcome of Use in each state: accepted only in `OnEntrance`, otherwise only the rejection toast |
| `TollwayProperties.ExitClickTable` | com.codewisp.tollways/Android/MainActivity.cs:102-111 | the exact outcome of Exit in each state: accepted only in `OnTollway`, otherwise only the rejection toast |
| `TollwayProperties.RegionEnteredTable` | com.codewisp.tollways/Android/MainActivity.cs:181-197 | the exact outcome of region entry in each of the three states |
| `TollwayProperties.RegionExitedTable` | com.codewisp.tollways/Android/MainActivity.cs:199-218 | the exact outcome of region exit in each state, including the "Bye!" case that hides both views without a routine |
| `TollwayProperties.AcceptedEffects` | com.codewisp.tollways/Android/MainActivity.cs:130-179 | what the screen shows after an accepted transition, by new state; an accepted transition shows no toast |
| `TollwayProperties.DialogOnlyOnExit` | com.codewisp.tollways/Android/MainActivity.cs:159-179 | the payment dialog opens iff the move is `OnTollway` to `OffTollway`, exactly one dialog each time |
| `TollwayProperties.AnswerTable` | com.codewisp.tollways/Android/MainActivity.cs:163-178 | either answer keeps the driving state, QR and toast, and closes the top dialog; No gives the counter text, Yes the thank-you text |
| `TollwayProperties.InitialInv` | com.codewisp.tollways/Android/MainActivity.cs:66-70 | the starting machine satisfies the invariant |
| `TollwayProperties.HandleKeepsInv` | com.codewisp.tollways/Android/MainActivity.cs:81-218 | every event keeps the invariant: QR never shown without the toll pass, and no other bitmap is ever set; the pass and credits are shown on the tollway; the pass is hidden and the credits shown at the entrance; every open dialog is the payment prompt |
| `TollwayProperties.AnswerKeepsInv` | com.codewisp.tollways/Android/MainActivity.cs:165-175 | both dialog answers keep the invariant |
| `TollwayProperties.InvIsDurable` | com.codewisp.tollways/Android/MainActivity.cs:66-218 | `Inv` implies `Durable` |
| `TollwayProperties.HandleKeepsDurable` | com.codewisp.tollways/Android/MainActivity.cs:81-218 | every event keeps `Durable`: the QR view holds only the toll pass, is never shown empty and holds the pass on the tollway; every open dialog is the payment prompt |
| `TollwayProperties.AnswerKeepsDurable` | com.codewisp.tollways/Android/MainActivity.cs:165-175 | both answers keep `Durable` |
| `TollwayProperties.ResumedKeepsDurable` | com.codewisp.tollways/Android/MainActivity.cs:66-70 | a resume keeps `Durable` |
| `TollwayProperties.ResumeBreaksInv` | com.codewisp.tollways/Android/MainActivity.cs:66-70 | after Entrance and Use, `Inv` holds on the tollway, and a resume breaks it by hiding the pass and credits |
| `TollwayProperties.RunKeepsDurable` | com.codewisp.tollways/Android/MainActivity.cs:81-218 | any sequence of events keeps `Durable` (by induction) |
| `TollwayProperties.RunKeepsInv` | com.codewisp.tollways/Android/MainActivity.cs:81-218 | any sequence of events keeps the invariant (by induction) |
| `TollwayProperties.RunAppend` | com.codewisp.tollways/Android/MainActivity.cs:81-218 | handling events one at a time composes: two runs back to back equal one run of the concatenation, with the routine logs concatenated |
| `TollwayProperties.DialogsCountExits` | com.codewisp.tollways/Android/MainActivity.cs:159-179 | over any event sequence, the open dialogs grow by exactly the number of exit routines run |
| `TollwayProperties.IgnoredIsIdempotent` | com.codewisp.tollways/Android/MainActivity.cs:81-218 | an event that runs no routine (rejection, "Whut", "Bye!") keeps the state, and a second occurrence gives the same result |
| `TollwayProperties.IgnoredRepeated` | com.codewisp.tollways/Android/MainActivity.cs:81-218 | such an event repeated any number of times keeps the state and runs no routine; afterwards the machine is as the first occurrence left it |
| `TollwayProperties.RejectedPressRepeated` | com.codewisp.tollways/Android/MainActivity.cs:81-111 | a button pressed any number of times outside its own state never changes the driving state and runs no routine |
| `TollwayProperties.RoundTrip` | com.codewisp.tollways/Android/MainActivity.cs:81-111 | from the start, Entrance, Use, Exit are three accepted transitions back to `OffTollway`, running enter, drive, exit in that order; the pass is shown, the credits still say "Scan this QR code when you exit.", one payment dialog is open |
| `TollwayProperties.BeaconRoundTrip` | com.codewisp.tollways/Android/MainActivity.cs:181-218 | region entered, exited, entered reaches `OffTollway` with the routines enter, drive, exit and one dialog; the whole trace equals that of Entrance, Use, Exit |
| `ClickWiring.Tap` | com.codewisp.tollways/Android/MainActivity.cs:76-78 | with no copy attached a tap does nothing; `ClickWiring.TapIsRun` states the general case |
| `ClickWiring.TapIsRun` | com.codewisp.tollways/Android/MainActivity.cs:76-78 | a tap with k copies attached is the tap's event handled k times in a row |
| `ClickWiring.ResumeAsWritten` | com.codewisp.tollways/Android/MainActivity.cs:76-78 | one more copy of each click handler per resume; specified by `ClickWiring.CopiesAsWritten` and `ClickWiring.LaterResumeRejectsAcceptedEntrance` |
| `ClickWiring.CopiesAsWritten` | com.codewisp.tollways/Android/MainActivity.cs:76-78 | after k resumes, k copies are attached |
| `ClickWiring.LaterResumeRejectsAcceptedEntrance` | com.codewisp.tollways/Android/MainActivity.cs:76-90 | after any two or more resumes, one Entrance tap in any machine off the tollway enters the tollway and also shows "You need to be off the tollway to enter!" |
| `ClickWiring.Resume` | com.codewisp.tollways/Android/MainActivity.cs:76-78 | the corrected resume (detach, then attach) attaches one copy when none is attached and keeps the count otherwise |
| `ClickWiring.Copies` | com.codewisp.tollways/Android/MainActivity.cs:76-78 | with the corrected resume, one copy is attached after any positive number of resumes |
| `ClickWiring.ResumedTapRunsHandlerOnce` | com.codewisp.tollways/Android/MainActivity.cs:76-111 | with the corrected resume, a tap is exactly one `Handle`; an accepted press shows no rejection toast |

Determinism holds by construction: `Handle` is a function of the state and
the event.

## Left out

- Bluetooth checks, the enable-Bluetooth intent and its result
  (MainActivity.cs:221-255): platform I/O.
- The beacon manager's lifecycle (lines 27, 53-57, 257-271): construction,
  scan period, connect, service-ready and start-monitoring, disconnect, and
  the monitored region. This is a foreign SDK. Its two callbacks are modelled
  as event methods only.
- QR pixel encoding by the barcode writer (lines 140-151). It is modelled as
  the payload and options it receives.
- View lookup, layout inflation and rendering (lines 51, 66-75). Toasts are
  the `toast` field and dialogs the `dialogs` sequence. The credits text the
  layout starts with is not part of this model; it is the parameter
  `layoutCredits`.
- Android.MainActivity.constructor: models the state after the first resume,
  not the rest of the activity lifecycle. `OnResume` models the two views a
  later resume hides. The extra handler copies a resume attaches are
  modelled only in `ClickWiring`. The class's handlers run once per call.
- ClickWiring.Tap: its own contract states only the case of no copies. The
  general case, one handled event per attached copy, is stated by
  `ClickWiring.TapIsRun`.
- Dismissing a dialog without answering it (the Back key) is not modelled.
  A dialog stays open until No or Yes.
- Android.MainActivity.AnswerNo, Android.MainActivity.AnswerYes: an answer always closes the most recent open dialog.
  The payment dialogs are all equal, so which one the user answers does not
  change what the model can observe.
- Which thread delivers beacon events and which delivers clicks: a
  concurrency concern. All events are sequential calls on one object.
- The ghost routine log in `MainActivity` is instrumentation. The activity
  keeps no such record.

## Findings

| source | as written | input that shows it | evidently intended | confidence | as-written member | corrected member |
|---|---|---|---|---|---|---|
| com.codewisp.tollways/Android/MainActivity.cs:72-78 | the resume callback attaches the three click handlers with `+=` on every resume and never detaches them; the buttons are the same objects each time, because the layout is set only at creation | the activity resumes two or more times (for example after the enable-Bluetooth prompt), then Entrance is tapped once off the tollway: the first copy enters the tollway, the further copies show "You need to be off the tollway to enter!" | one handler per button, so a tap is one event | medium; not executed | `ClickWiring.LaterResumeRejectsAcceptedEntrance` (with `ClickWiring.ResumeAsWritten`) | `ClickWiring.ResumedTapRunsHandlerOnce` (with `ClickWiring.Resume`) |
