# The MindOS desktop in Dafny

A model of the parts of the MindOS compositor (`mindwm`) and shell (`mindshell`) whose
correctness is a matter of whole runs: locking and suspending, desks, the IPC between the two,
capture, keys and tilings, and the shell's layout file, URLs, login conversation and helper
cache. Every part is a state machine or a pure transformation that follows the code branch by
branch. Where the code updates an object in place there is a class with the same fields. Its
methods are proved equal to the step functions the theorems are about; for the suspend watcher
and the two ends of the IPC socket, whose methods take a whole exchange at once, a lemma says
that their contracts are what the steps add up to (`Suspend.SignalAgrees`,
`Framing.EndsAreSteps`). The theorems hold over every input, every run and every interleaving.

`dafny verify dfyconfig.toml` checks everything. Some proofs use `hide` to keep the solver's
view small; it takes nothing on trust.

| file | what it is |
|---|---|
| `Common.dfy`, `Text.dfy` | duplicate-free sequences; `trim` and caseless comparison |
| `Idle.dfy`, `IdleSession.dfy` | stages, lock, inhibitors and the one idle timer; the same as an object |
| `Suspend.dfy` | logind's delay inhibitor, the watcher and the compositor, interleaved |
| `Sticky.dfy`, `Desk.dfy`, `DeskRuns.dfy`, `DeskRoundTrip.dfy`, `DeskManager.dfy` | desks: list, operations and invariant, runs, there-and-back, the object |
| `Framing.dfy`, `Correlation.dfy` | lines over a byte stream; replies matched to requests across reconnects |
| `Keys.dfy` | which key events reach a client |
| `CaptureRegion.dfy`, `CaptureQueue.dfy`, `CaptureAnswers.dfy`, `CaptureState.dfy` | capture geometry, the life of a request, what each is answered, the object |
| `Dwindle.dfy` | tilings and their dividers |
| `LayoutIds.dfy`, `Migration.dfy`, `LayoutFile.dfy` | ids, migrations and sanitizing of the layout; the loops that do it |
| `Urls.dfy` | percent escapes, window, picture and thumbnail URLs |
| `Greeter.dfy` | the greetd conversation and the login screen's slot |
| `SingleFlight.dfy` | `run_helper`: one run for all who ask, and a cache |

Time is in whole milliseconds, floating point is `real`, and what the outside world answers
(greetd, the socket, the renderer, D-Bus, X11) is a parameter or a script of answers.

## What the code does not keep

Five promises turned out to hold only under a condition. The code is modelled as it is; each
has an input on which it fails and the exact condition under which it holds.

- *A client that goes away stops holding the session awake* (mindwm/src/ipc.rs:661). True when a
  client is dropped while it is served, not when a broadcast finds it dead
  (mindwm/src/ipc.rs:566-580): `Idle.HoldersLiveIff` says exactly when, `Idle.HoldersLiveFails`
  builds the case from any session, and `Idle.LostHoldStopsIdling` shows that the session then
  never idles again.
- *No sticky window is in the stash.* Kept by everything except opening a window that a stashed
  dialog owes its stickiness to: `DeskRuns.OpenCanBreak` is such a window, `DeskRuns.ApplyKeepsIff`
  the condition for one step, and `DeskRuns.InvAlwaysIff` for whole runs. What does not depend on
  it (each window in one place, the space in order after every turn, the stash right again after
  every switch, a window reached for never left away) holds in every run, in whatever order
  windows open.
- *Switching to another desk and back restores the space.* It restores exactly the windows that
  showed; one that was in the space though it did not show (not drawn yet) stays away:
  `DeskRoundTrip.RoundTrip` has the equivalence, `DeskRoundTrip.RoundTripCanLose` a state in which
  a window is lost, `DeskRoundTrip.RoundTripOrder` what becomes of the order.
- *A sanitized layout is a fixed point.* True of widgets always (`LayoutIds.IndexedStable`), of
  the layout exactly when, among the panel ids it came with, every id replaced before a clash
  clashes as well (`Migration.SanitizeTwice`); `Migration.NotAlwaysFixedPoint` is a family where
  it is not.
- *`percent_decode` decodes any text.* It panics exactly when a percent sign has the inside of a
  UTF-8 character three bytes on (`Urls.DecodeFailsIff`; `Urls.DecodeCanFail` has a text), and it
  takes `%+F` for an escape (`Urls.DecodeTakesPlus`). What `percent_encode` prints is never
  affected (`Urls.DecodeEncode`).

## Model

| member | source | states |
|---|---|---|
| Idle.StepEffect | mindwm/src/idle.rs:93-298 | what each action (input, timer, lock key, any request, clients coming, going or found dead, inhibitors) does to stage, lock, the clock of the last sign of life, preferences, inhibitors, holds and clients, exactly and without the step function: `since` is now for input, wake, unlock, new preferences, a change of lock and the last inhibitor going, and otherwise what it was; whatever the shell sees differently it is told |
| Idle.StepKeepsInv | mindwm/src/idle.rs:77-298 | every enabled step keeps: the timer armed iff not inhibited and something is pending, due only when some pending stage is ripe and not late by more than 200 ms; displays off iff Blank; last event sent equals the present state; no two consecutive events equal |
| Idle.InvAlways | mindwm/src/idle.rs:63-298 | that invariant in every state of every run from start-up |
| Idle.NextDeadlineIsLeast | mindwm/src/idle.rs:211-229 | the running minimum is there iff a stage is pending, is the time of a ripe stage, and nothing is ripe before it |
| Idle.ArmOnTime | mindwm/src/idle.rs:231-252 | the armed timer is not late: nothing is ripe before it is due, unless it is due in 200 ms; and it is never due sooner than that |
| Idle.FireProgresses | mindwm/src/idle.rs:254-276 | every firing strictly lowers the distance to Blank plus unlocked |
| Idle.AtMostThreeFirings | mindwm/src/idle.rs:231-276 | with nothing but the timer left, at most three firings follow |
| Idle.NothingEarly | mindwm/src/idle.rs:254-276 | no stage and no lock is taken more than a second before its timeout |
| Idle.NothingUnderTheKeys | mindwm/src/idle.rs:93-102 | over every run: a firing that takes a stage or locks comes no more than a second short of the whole timeout after any input before it |
| Idle.SinceGrows | mindwm/src/idle.rs:93-102 | in every run the clock of the last sign of life never goes back, and is at least the time of every input so far |
| Idle.OnlyUnlockClears | mindwm/src/idle.rs:135-168 | over any run in which the lock disappears there is an Unlock request that took it |
| Idle.LockEffect | mindwm/src/idle.rs:135-183 | only the timer, the key and requests lock; a set lock goes iff the request is Unlock; going Blank with lock_on_blank locks |
| Idle.BlankIsLocked | mindwm/src/idle.rs:177-183 | with lock_on_blank throughout, Blank (and dark displays) implies locked in every state of every run |
| Idle.HoldersLiveIff | mindwm/src/ipc.rs:566-580 | holds belong to live clients after a step iff no broadcast buried a holder in it |
| Idle.LostHoldStays | mindwm/src/ipc.rs:566-580 | a hold whose client a broadcast buried is never given back in any run |
| Idle.LostHoldStopsIdling | mindwm/src/idle.rs:79-83 | and then the timer never fires again while busy programs may keep the session awake |
| Idle.HoldersLiveFails | mindwm/src/ipc.rs:657-663 | from any state with a client there are two steps after which a dead client holds the session |
| IdleSession.Session.constructor | mindwm/src/state.rs:950-985 | a new session is the initial state and satisfies the invariant |
| IdleSession.Session.BroadcastIdle | mindwm/src/idle.rs:289-298 | sends and remembers the payload unless it equals the last one |
| IdleSession.Session.MoveToStage | mindwm/src/idle.rs:105-133 | new stage, displays switched on entering and leaving Blank, event sent |
| IdleSession.Session.UntilNextDeadline | mindwm/src/idle.rs:211-229 | the loop over the three stages computes the least time left |
| IdleSession.Session.ArmTimer | mindwm/src/idle.rs:231-252 | the timer is replaced by the next deadline, never sooner than 200 ms, or removed |
| IdleSession.Session.LockSession | mindwm/src/idle.rs:135-168 | locking or unlocking resets the idle clock, tells and re-arms; nothing when already so |
| IdleSession.Session.WakeScreen | mindwm/src/idle.rs:170-175 | back to Active with the clock reset, lock untouched |
| IdleSession.Session.BlankScreen | mindwm/src/idle.rs:177-183 | locks first if lock_on_blank, then Blank |
| IdleSession.Session.RefreshInhibited | mindwm/src/idle.rs:199-209 | the clock restarts when the last inhibitor goes; re-armed and told |
| IdleSession.Session.HoldAwake | mindwm/src/idle.rs:187-197 | a client's hold is set or dropped, with consequences only on a change |
| IdleSession.Session.Activity | mindwm/src/idle.rs:93-102 | input restarts the clock, wakes the screen and says whether it did |
| IdleSession.Session.FireTimer | mindwm/src/idle.rs:254-276 | a firing moves the session as far as its idle time says, in the order lock, displays, screensaver |
| IdleSession.Session.ServeRequest | mindwm/src/ipc.rs:941-962 | the idle requests; the reply is the payload after the request |
| IdleSession.Session.DropClient | mindwm/src/ipc.rs:657-663 | a dropped client loses its hold |
| IdleSession.Session.BuryDead | mindwm/src/ipc.rs:566-580 | clients a broadcast finds dead are forgotten, their holds are not |
| Suspend.Watcher.CompositorActions | mindshell/src/sleepwatch.rs:129-155 | Ok iff the compositor was reached and every action was confirmed by the reply with its own id; an action is written iff all before it were confirmed |
| Suspend.Watcher.PrepareSuspend | mindshell/src/sleepwatch.rs:111-125 | with locking on the compositor is asked to lock and, that confirmed, to blank, and Ok iff both were confirmed by their own ids, locked and Blank in the replies; nothing is written without locking or when it cannot be reached; the descriptor is closed exactly once whatever happened |
| Suspend.Watcher.Signal | mindshell/src/sleepwatch.rs:87-107 | one turn of the signal loop: descriptors and wake_on_resume, and what is written: lock, then blank once confirmed before sleep; lock, then wake once confirmed on resume if the suspend locked; else nothing |
| Suspend.SignalAgrees | mindshell/src/sleepwatch.rs:87-125 | among everybody else's moves, from a signal to the next wait the watcher ends up with the descriptors held and closed that one turn of its loop gives |
| Suspend.SuspendHandshake | mindshell/src/sleepwatch.rs:87-155 | in every interleaving, an Ok with locking on means there was a moment of this attempt, its descriptor still held, when the session was locked, Blank and dark; the descriptor is closed by this move for the first time |
| Suspend.ReleasedOnlyAfter | mindshell/src/sleepwatch.rs:87-155 | in every interleaving: once a sleep signal with locking on took a descriptor, it is closed only by a move of this attempt that is a failure, the reading of a reply that does not confirm, or the Ok behind a moment of the attempt at which the session was locked and dark |
| Suspend.HeldOrClosed | mindshell/src/sleepwatch.rs:87-125 | from that signal on the descriptor is held by the attempt until it is closed |
| Suspend.Undisturbed | mindshell/src/sleepwatch.rs:87-155 | an attempt nobody disturbs runs through: locked and dark with the descriptor closed before sleep, locked and lit on resume |
| Suspend.ResumeFollows | mindshell/src/sleepwatch.rs:87-107 | whatever becomes of a suspend with locking on, the next resume starts the attempt to lock and wake |
| Suspend.DescriptorsAccounted | mindshell/src/sleepwatch.rs:57-125 | every descriptor granted is ready, in use or closed: one of the three, closed at most once, in every behaviour |
| Suspend.HeldUntilDone | mindshell/src/sleepwatch.rs:111-125 | nothing but the end of the attempt lets go of the descriptor |
| Suspend.ActIdle | mindshell/src/sleepwatch.rs:129-155 | no move of the watcher clears the lock, and every move keeps the idle invariant |
| Suspend.LockedAcrossSleep | mindshell/src/sleepwatch.rs:87-107 | a locked session stays locked through sleep and resume until another client asks to unlock |
| Sticky.CleanSticky | mindwm/src/desk.rs:65-76 | the loop builds the cleaned list |
| Sticky.CleanIdempotent | mindwm/src/desk.rs:65-76 | cleaning twice is cleaning once; no blanks, no padding, no case-insensitive repeats |
| Sticky.CleanKeepsMeaning | mindwm/src/desk.rs:54-76 | an app is sticky by the cleaned list iff some entry, trimmed, names it |
| Desk.InSpaceIffShows | mindwm/src/desk.rs:60-63 | invariant and settledness say: a drawn window that is not minimised is in the space iff it shows |
| Desk.StickyMeans | mindwm/src/desk.rs:145-167 | a window is sticky iff some trimmed entry of the list given names its app or that of a dialog parent less than eight up, all of them managed |
| Desk.NewTags | mindwm/src/desk.rs:185-207 | an untagged window gets the desk of the managed window it belongs to if that has one or is tagged before it, else the current desk |
| Desk.RefreshSettles | mindwm/src/desk.rs:212-237 | after a refresh every drawn window of the space belongs there, whatever the stash was like, and the invariant is kept |
| Desk.RefreshMeans | mindwm/src/desk.rs:212-237 | exactly the drawn windows of the space that do not show are put away, the dead leave the stash, nothing else moves |
| Desk.TurnSettles | mindwm/src/state.rs:1101-1106 | once per turn the managed windows are exactly the live ones, from any state with each window in one place |
| Desk.TurnMeans | mindwm/src/state.rs:1101-1106 | which windows are in the space, the stash and minimised after a turn, iff, window by window |
| Desk.MovedSettles | mindwm/src/desk.rs:295-322 | the moves of a switch lose no window and put each on its side |
| Desk.SetDeskSettles | mindwm/src/desk.rs:259-322 | after every switch, whatever desk, list and layout, and even from a wrong stash, everything is in its place |
| Desk.SwitchMeans | mindwm/src/desk.rs:259-355 | a switch with a list, without its code: that desk and the cleaned list are in force; a window that is not minimised is in the space iff its desk is the new one or none, or an entry of the list names it or a parent above it; the shell is told iff desk or list changed; the desk left remembers who had the keyboard |
| Desk.SwitchWithoutList | mindwm/src/desk.rs:259-275 | without a list the one in force stays, and the shell is told iff the desk changed |
| Desk.SwitchTags | mindwm/src/desk.rs:276-293 | a tagged window has the new desk afterwards if it had none or was sticky under the list before, else the one it had |
| Desk.NoStickyInStash | mindwm/src/desk.rs:147-167 | under the invariant no sticky window is stashed |
| Desk.ChainOutsideStash | mindwm/src/desk.rs:151-167 | nor any window it owes its stickiness to, so forgetting dead stashed windows makes nobody less sticky |
| Desk.StickyTravels | mindwm/src/desk.rs:276-293 | a window sticky when a switch starts belongs to the new desk afterwards and shows there, even if the switch takes its app off the list |
| Desk.OwnWindowStays | mindwm/src/desk.rs:276-293 | a later switch to the same desk with any list does not hide it |
| Desk.MoveToDeskInv | mindwm/src/desk.rs:359-377 | moving any managed window keeps the invariant |
| Desk.MoveToDeskKeeps | mindwm/src/desk.rs:359-377 | moving a live window keeps the space in order, gives it the desk, puts it on the right side and moves no other, even from a wrong stash; the invariant is kept |
| Desk.MinimizeKeeps | mindwm/src/desk.rs:397-404 | minimising, from the space or the stash, moves that window and no other and keeps each of single places, order of the space and invariant |
| Desk.AwayIsElsewhere | mindwm/src/desk.rs:175-183 | a window that is away belongs to another desk and is not sticky |
| Desk.ShowDeskOfShows | mindwm/src/desk.rs:379-393 | the "stashed although its desk is showing" branch does nothing, reaching for a window is exactly the switch to its desk, and the window is not away afterwards |
| Desk.ReachesAnyway | mindwm/src/desk.rs:376-393 | from any state with each window in one place, however wrong the stash, a window reached for is not away afterwards: what the defensive branch is for |
| Desk.NeverStranded | mindwm/src/desk.rs:387-392 | under the invariant no window is stashed although its desk is showing |
| Desk.UnminimizeKeeps | mindwm/src/state.rs:2063-2072 | bringing a window back puts a live one in the space and, but for the switch to its desk, moves no other; keeps each of single places, order of the space and invariant |
| Desk.FocusMeans | mindwm/src/desk.rs:326-348 | the keyboard goes to the window that last had it on this desk if that is in the space, else to the topmost window that is the desk's own and not sticky, else nowhere |
| DeskRuns.OpenKeepsIff | mindwm/src/desk.rs:151-167 | opening a window keeps the invariant iff no stashed window becomes sticky through it |
| DeskRuns.OpenKeeps | mindwm/src/desk.rs:185-210 | a window that opens before its dialogs keeps it |
| DeskRuns.OpenCanBreak | mindwm/src/desk.rs:151-167 | a concrete dialog and main window for which it does not |
| DeskRuns.ApplyDoes | mindwm/src/desk.rs:185-404 | each action of a run does what it is called: opened windows are in the space, hidden ones minimised, moved ones have their desk, ones reached for are not away, ones brought back are in the space |
| DeskRuns.ApplySound | mindwm/src/desk.rs:185-404 | every action from any state with each window in one place keeps it so; turns and switches put the space in order, switches the stash too; operations on windows that are there keep the order |
| DeskRuns.ApplyKeepsIff | mindwm/src/desk.rs:185-404 | the invariant survives an action iff that is not the opening of a window some stashed window owes its stickiness to |
| DeskRuns.SoundAlways | mindwm/src/desk.rs:185-404 | in every run, in whatever order windows open: each window in one place, the space in order after every turn and switch, exactly the live windows managed after every turn, the full invariant after every switch |
| DeskRuns.InvIff | mindwm/src/desk.rs:185-404 | from any moment at which it holds, the invariant holds up to a later one iff no window opened in between uncovers a stashed one |
| DeskRuns.InvAlwaysIff | mindwm/src/desk.rs:185-404 | it holds throughout a run iff no opening in the run uncovers one |
| DeskRuns.InvWhenParentsFirst | mindwm/src/desk.rs:185-404 | so in every run in which windows open before their dialogs |
| DeskRuns.SettledLasts | mindwm/src/desk.rs:259-404 | in every run, once the space is in order only windows coming, drawing or going can unsettle it |
| DeskRoundTrip.SwitchKeepsOrder | mindwm/src/desk.rs:295-322 | windows come back in the order they were stashed, above those that stayed, which keep theirs |
| DeskRoundTrip.StashKeepsOrder | mindwm/src/desk.rs:295-309 | without tiling, windows are put away in their stacking order |
| DeskRoundTrip.StashInTileOrder | mindwm/src/desk.rs:295-312 | when tiling, windows are put away in the order of their tiles |
| DeskRoundTrip.PlainSwitch | mindwm/src/desk.rs:259-322 | one switch: tags, places and managed windows afterwards, window by window |
| DeskRoundTrip.RoundTrip | mindwm/src/desk.rs:259-320 | A to B and back: exactly the windows that showed are in the space, non-sticky tags unchanged; the same set iff all of them showed |
| DeskRoundTrip.RoundTripOrder | mindwm/src/desk.rs:295-321 | without tiling, of two windows that show, the one below stays below after A to B and back, except that one put away comes back above a sticky one that stayed |
| DeskRoundTrip.RoundTripCanLose | mindwm/src/desk.rs:219-226 | a settled state with a window that opened for another desk and has not drawn yet, which the trip puts away |
| DeskManager.Manager.IsStickyUnder | mindwm/src/desk.rs:151-167 | the walk up the dialog parents, eight at most |
| DeskManager.Manager.TagNewWindows | mindwm/src/desk.rs:185-210 | untagged windows get their parent's desk or the current one, in order |
| DeskManager.Manager.StashWindow | mindwm/src/desk.rs:239-247 | one window from the space to the end of the stash, no other moved |
| DeskManager.Manager.RestoreWindow | mindwm/src/desk.rs:249-257 | one window from the stash to the top of the space, if alive |
| DeskManager.Manager.Refresh | mindwm/src/desk.rs:212-237 | the refresh as a whole |
| DeskManager.Manager.Decide | mindwm/src/desk.rs:276-293 | new tags and the lists to stash and restore, decided for all windows before any moves |
| DeskManager.Manager.MoveWindows | mindwm/src/desk.rs:295-322 | stashing and restoring one by one is the whole move |
| DeskManager.Manager.SwitchDesk | mindwm/src/desk.rs:259-355 | the switch, its event, the remembered focus and the window to activate |
| DeskManager.Manager.ChooseFocus | mindwm/src/desk.rs:326-348 | the window that last had the keyboard there, else the top one of the desk's own |
| DeskManager.Manager.MoveWindowToDesk | mindwm/src/desk.rs:359-377 | the operation of that name |
| DeskManager.Manager.ReachFor | mindwm/src/desk.rs:379-393 | the operation, and under the invariant the defensive branch is not taken |
| DeskManager.Manager.HandOverStashed | mindwm/src/desk.rs:397-404 | a stashed window goes to the minimised list, and whether it did |
| Framing.LineBuffer.Push | mindwm/src/ipc.rs:379-398 | all complete lines of what was left over and what came, in order, trimmed, blank ones skipped; keeps the rest; fails iff that exceeds MAX_LINE |
| Framing.TextsOne | mindwm/src/ipc.rs:382-397 | a line is handed out trimmed, a blank one not at all |
| Framing.DrainMeans | mindwm/src/ipc.rs:413-432 | a client survives a flush with at most MAX_PENDING bytes left, and is given up only for an error, an end of file or more than that |
| Framing.Client.Flush | mindwm/src/ipc.rs:413-432 | written ++ pending never changes; nothing lost, doubled or reordered |
| Framing.Client.Send | mindwm/src/ipc.rs:555-562 | a line and its newline are queued behind everything before |
| Framing.EndsAreSteps | mindwm/src/ipc.rs:374-432 | the contracts of reader and writer are the steps of the pipe: a flush takes bytes, a send queues and takes, a push is an arrival |
| Framing.PrefixSplits | mindwm/src/ipc.rs:379-398 | of any prefix of the stream a reader has the complete lines so far and an unfinished one that fits |
| Framing.FramingRoundTrip | mindwm/src/ipc.rs:374-431 | for every list of good lines, partial writes and chunks: no push fails, what is out is a prefix of what was sent, and all of it once everything arrived |
| Framing.ChunksDoNotMatter | mindwm/src/ipc.rs:525-553 | for arbitrary bytes the lines do not depend on the chunks; a push fails iff the unfinished line is too long after some chunk |
| Correlation.IpcClient.Send | mindshell/src/ipc.rs:73-87 | an id is spent even without a connection |
| Correlation.IpcClient.Request | mindshell/src/ipc.rs:89-112 | registered before the write, unregistered when it fails |
| Correlation.IpcClient.TakeWaiter | mindshell/src/ipc.rs:146-161 | a reply takes its waiter out |
| Correlation.IpcClient.Detach | mindshell/src/ipc.rs:166-174 | every waiter is told once and none is left |
| Correlation.Drained | mindshell/src/ipc.rs:166-174 | the drained channels are all of them, each once |
| Correlation.ClientSteps | mindshell/src/ipc.rs:73-174 | the client's part of every step of the system is what connecting, `Send`, `Request`, `TakeWaiter` and `Detach` do |
| Correlation.WireSteps | mindshell/src/ipc.rs:73-174 | what each step puts on and takes off the two wires; a new or lost connection empties both |
| Correlation.AskWaits | mindshell/src/ipc.rs:89-112 | a request that is written waits on a fresh channel and is last on the wire with its id |
| Correlation.ReadTakes | mindshell/src/ipc.rs:146-161 | reading the answer to a pending request takes it in hand for the channel that waits, which is pending no more; any other line changes nothing |
| Correlation.LoseTells | mindshell/src/ipc.rs:166-174 | when the connection is lost every waiting channel is told Disconnected, and no other anything |
| Correlation.StepKeepsInv | mindshell/src/ipc.rs:73-184 | every step of either side keeps: ids spent in order, wire and waiters agree with what ids were spent on, each waiter waiting, held or delivered once |
| Correlation.ReplyCorrelation | mindshell/src/ipc.rs:73-184 | in every interleaving a channel is sent to at most once, with the answer to the very request that waits on it; without a stream nothing is pending and everyone has been told |
| Correlation.AnswerGetsThrough | mindshell/src/ipc.rs:146-161 | over every run: once the answer to a pending request was read and delivered, its channel has exactly that answer, with the id and body of its own request, for ever |
| Correlation.AskedAndAnswered | mindshell/src/ipc.rs:89-161 | with wires empty, a request asked, served, read and delivered gives its channel exactly its answer |
| Correlation.IdsNeverReused | mindwm/src/ipc.rs:304-331 | an id means the same request for ever, across reconnects |
| Keys.Keyboard.SwallowWake | mindwm/src/input_handler.rs:501-514 | a waking press is suppressed, a waking release forgotten |
| Keys.Keyboard.Filter | mindwm/src/input_handler.rs:383-490 | the exclusive-layer and the usual path, branch by branch |
| Keys.Keyboard.OnKey | mindwm/src/input_handler.rs:1312-1321 | a key event by whichever of the three paths |
| Keys.PairedAlways | mindwm/src/input_handler.rs:383-514 | over every well-formed run a key is suppressed iff it is down and its press was withheld |
| Keys.KeyPairing | mindwm/src/input_handler.rs:383-514 | a release is forwarded iff its press was and it did not itself wake the screen |
| Keys.NothingLeft | mindwm/src/input_handler.rs:383-514 | with all keys up nothing is suppressed |
| Keys.PressWithheldIff | mindwm/src/input_handler.rs:383-490 | exactly which presses are kept on a lit screen: the display reset, shortcuts and Escape while cycling unless inhibited, everything but logo and Ctrl-Alt chords while the bar is open; with an exclusive layer only the reset |
| Keys.WakingIsKept | mindwm/src/input_handler.rs:501-514 | on a sleeping screen no key gets through; a press is remembered, a release forgotten |
| CaptureRegion.TurnedRect | mindwm/src/capture.rs:136-140 | the eight rectangle formulas are turns and mirrors of single pixels |
| CaptureRegion.RegionExact | mindwm/src/capture.rs:102-142 | for every mode, scale, transform and request, the captured pixels are exactly those that show part of the request |
| CaptureRegion.RegionInside | mindwm/src/capture.rs:102-142 | the region is a non-empty rectangle inside the mode |
| CaptureRegion.RegionNone | mindwm/src/capture.rs:108-130 | nothing comes out iff the mode or scale is unusable, the request is empty or no pixel shows any of it |
| CaptureRegion.FullCapture | mindwm/src/capture.rs:124-142 | a whole capture is the whole mode under every scale and transform |
| CaptureRegion.ValidShmExact | mindwm/src/capture.rs:144-160 | for advertised sizes, accepted iff the buffer has the advertised shape and ends inside the pool; no overflow turns a good one away |
| CaptureRegion.BytesInside | mindwm/src/capture.rs:480-507 | every byte of every row copied lies in the pool |
| CaptureQueue.StepKeeps | mindwm/src/capture.rs:276-536 | every request, tidy-up and repaint keeps the ledger (accepted = pending + told, as multisets), one use per frame and the bound, whatever the renderer answers; and, if it reports changes as they are, the meaning of generations |
| CaptureQueue.LifeCycle | mindwm/src/capture.rs:276-536 | over every run: at most MAX_PENDING wait, an accepted request is pending or was told once, nobody else is told, and what was told stands |
| CaptureQueue.AcceptedOnce | mindwm/src/capture.rs:290-329 | a frame object accepted once gets AlreadyUsed ever after |
| CaptureQueue.CopiesStayInside | mindwm/src/capture.rs:480-507 | in every reachable state a copy for a pending request writes inside the pool and at most four bytes per allowed pixel |
| CaptureQueue.WaitsIffUnchanged | mindwm/src/capture.rs:474-479 | a copy-with-damage request waits iff its client has a copy of the same region and nothing was drawn on that target since |
| CaptureQueue.RunKeeps | mindwm/src/capture.rs:331-536 | the ledger holds in every state of every run |
| CaptureQueue.HonestRunKeeps | mindwm/src/capture.rs:447-479 | with a renderer that reports changes as they are, generations tell pictures apart in every state |
| CaptureQueue.BlockedEmpties | mindwm/src/capture.rs:335-355 | once locked or blank, tidying up leaves no request and no target |
| CaptureQueue.EndsInTime | mindwm/src/capture.rs:335-349 | over every run, a tidy-up that finds the session blocked, the frame, buffer or output of an accepted request gone, or a plain copy more than five seconds old ends it: from then on it never waits again and was told its one outcome |
| CaptureQueue.OnlyRequest | mindwm/src/capture.rs:290-326 | the request a copy queues, with its buffer, manager and time, is the only one its frame ever has in the queue |
| CaptureQueue.OnlyExplained | mindwm/src/capture.rs:385-533 | whatever a pass tells a client is about a request waiting for that output: ready only with frame and buffer alive, the geometry as advertised, the target drawn and copied; failed only to a live frame |
| CaptureAnswers.PassAnswers | mindwm/src/capture.rs:370-533 | the answer to a waiting request, both ways: Ready iff it could be served (frame, buffer, shape, target, drawing), is not held back and its pixels were copied; Failed, its frame there, iff one of these is not so; a plain copy never stays |
| CaptureAnswers.PassDecides | mindwm/src/capture.rs:474-533 | a request that can be served stays iff it is held back when its turn comes, else is told Ready iff copied |
| CaptureAnswers.DeliverOneMeans | mindwm/src/capture.rs:474-533 | one decision: kept; or Ready with generation, region and picture recorded for its manager; or failed with nothing recorded |
| CaptureAnswers.MomentFresh | mindwm/src/capture.rs:447-479 | with an honest renderer generations mean what they should at each such decision, so `WaitsIffUnchanged` applies |
| CaptureAnswers.RepaintAnswers | mindwm/src/capture.rs:357-536 | over every run: a repaint of its output ends a plain request in the turn for its cursor setting, Ready iff it could be served there and was copied |
| CaptureAnswers.PassLeavesOthers | mindwm/src/capture.rs:370-404 | requests for other outputs and cursor settings stay |
| CaptureAnswers.TidyTells | mindwm/src/capture.rs:335-349 | what a tidy-up ends fails or is dropped with its frame, and nobody else is told anything |
| CaptureAnswers.TidyTargets | mindwm/src/capture.rs:350-355 | a target stays iff its output is there, it was used within two seconds and the session shows |
| CaptureAnswers.BeginMeans | mindwm/src/capture.rs:186-242 | a new frame is unused with what it captures recorded, or used and refused at once |
| CaptureAnswers.CaptureInfoIff | mindwm/src/capture.rs:244-273 | there is something to capture iff the session shows, the output is there and lit and the region is not empty; and then which |
| CaptureAnswers.CopyMeans | mindwm/src/capture.rs:276-329 | each reply iff its condition; an accepted request waits last in the queue with what the frame was made for; the frame is used up |
| CaptureAnswers.TargetMeans | mindwm/src/capture.rs:406-445 | a target keeps its generation iff output, renderer and shape are the same, and starts at 0 otherwise |
| CaptureAnswers.DrawMeans | mindwm/src/capture.rs:455-465 | drawing with changes gives a generation above every one known, drawing without changes nothing |
| CaptureQueue.CaptureInfoSized | mindwm/src/capture.rs:244-272 | what a frame advertises is a real part of an allowed mode |
| CaptureState.Captures.CreateFrame | mindwm/src/capture.rs:186-242 | a frame with nothing to capture is used and told at once |
| CaptureState.Captures.RequestCopy | mindwm/src/capture.rs:276-329 | the copy handler with all its refusals |
| CaptureState.Captures.Sift | mindwm/src/capture.rs:336-349 | fails those that meet the test and keeps the rest, in order |
| CaptureState.Captures.Tidy | mindwm/src/capture.rs:335-355 | maintain: stale requests failed, stale targets dropped |
| CaptureState.Captures.DeliverRequest | mindwm/src/capture.rs:474-533 | held back, copied or failed, as `CaptureAnswers.DeliverOneMeans` says it |
| CaptureState.Captures.DrawAndDeliver | mindwm/src/capture.rs:413-534 | target made or kept, drawn, generation advanced on damage, jobs answered; every failure fails all jobs |
| CaptureState.Captures.RenderFor | mindwm/src/capture.rs:370-535 | one turn of the render loop |
| CaptureState.Captures.RenderOutput | mindwm/src/capture.rs:357-536 | both turns |
| Dwindle.SplitAt | mindwm/src/layout.rs:370-373 | never less than a usable tile on either side when there is room |
| Dwindle.SplitNearest | mindwm/src/layout.rs:348-373 | a split falls on the pixel nearest to its share of what the gap leaves unless a tile would get too small; shares stay between a tenth and nine tenths, a half by default |
| Dwindle.DwindleRects | mindwm/src/layout.rs:339-366 | the loop produces the nested tiling |
| Dwindle.LayoutDwindles | mindwm/src/layout.rs:339-366 | every layout made is a dwindle tiling starting at the area's corner |
| Dwindle.TilingMeans | mindwm/src/layout.rs:335-373 | tile by tile in terms of the area: split along the longer side of what is left, the nearest pixel to its share along it, all of the other side; the last takes everything |
| Dwindle.TilesApart | mindwm/src/layout.rs:335-366 | tiles never overlap: the earlier is left of or above the later by the gap, and none is less than usable |
| Dwindle.TilesInside | mindwm/src/layout.rs:335-373 | with room to split every tile lies in the area |
| Dwindle.DividerExact | mindwm/src/input_handler.rs:124-170 | in every dwindle tiling, for every edge and corner: left and top find the last vertical or horizontal split before the tile, right and bottom its own, sideways first |
| Dwindle.NoDividerIffBoundary | mindwm/src/input_handler.rs:139-160 | no divider on the left (top) iff the tile lies on that side of the area |
| Dwindle.NoOwnDividerIffBoundary | mindwm/src/input_handler.rs:139-169 | no divider on the right (bottom) iff that edge is the area's, with room to split |
| LayoutIds.DistinctIff | mindshell/src/layout.rs:230-261 | ids come out distinct iff no id that stays equals the name a later one is given |
| LayoutIds.UngeneratedDistinct | mindshell/src/layout.rs:230-261 | so always when no supplied id has a generated form |
| LayoutIds.StableIff | mindshell/src/layout.rs:230-237 | a list is left alone iff every id to be replaced is the name it would get |
| LayoutIds.CountedStableIff | mindshell/src/layout.rs:230-237 | panel ids are settled after one pass iff, among the ids supplied, every id replaced before a clash clashes as well |
| LayoutIds.IndexedStable | mindshell/src/layout.rs:256-261 | widget ids are settled after one pass, distinct or not |
| LayoutIds.DistinctStay | mindshell/src/layout.rs:230-237 | distinct non-empty ids stay |
| LayoutIds.GeneratedForms | mindshell/src/layout.rs:230-261 | generated ids are `panel-` and the counter, and the owner, `-w` and the index |
| LayoutIds.CountedUnstable | mindshell/src/layout.rs:230-237 | three panels whose ids collide after one pass and change in the second |
| Migration.MigrateFaithful | mindshell/src/layout.rs:158-229 | from any version every panel keeps its widgets in order but for network and vpn beside a tray, is given no kind it had, each new kind at most once; a pre-version-2 panel with a Mind widget has perf, notifications and updates |
| Migration.MigrateAt | mindshell/src/layout.rs:196-229 | only the first panel gets more than its own upgrade, and only the view indicator; nothing else of a panel changes |
| Migration.ViewIndicator | mindshell/src/layout.rs:196-203 | after a migration some panel has the view indicator |
| Migration.NewWidgetsBeside | mindshell/src/layout.rs:158-203 | where new widgets go: perf before and notifications behind the Mind widget, updates before the bell or else behind the Mind widget |
| Migration.MigrateUpdates | mindshell/src/layout.rs:175-229 | a layout from before version 3 has updates on every panel with a Mind widget or a bell; the version afterwards; wallpaper and unknown fields stay |
| Migration.SanitizedBuildable | mindshell/src/layout.rs:230-293 | whatever was in the file, every value that comes out is in range, everything has an id, a kind and an object for its config, and no taskbar pins the old Files entry |
| Migration.ProperStays | mindshell/src/layout.rs:206-295 | a current layout with distinct ids and values in range is left exactly as it is |
| Migration.WidgetKept | mindshell/src/layout.rs:256-279 | of a widget only id, an empty kind, a config that is no object and the old Files pin change |
| Migration.PanelKept | mindshell/src/layout.rs:230-255 | each value of a panel in range stays, one out of range becomes the nearest bound or the default |
| Migration.SanitizeTwice | mindshell/src/layout.rs:206-295 | sanitizing twice is sanitizing once iff, among the panel ids the layout came with, every id replaced before a clash (a new name an earlier panel kept) clashes as well |
| Migration.SettledByIds | mindshell/src/layout.rs:206-295 | nothing but the panel ids can change in a second pass |
| Migration.DistinctIsFixedPoint | mindshell/src/layout.rs:206-295 | distinct panel ids suffice |
| Migration.PlainDistinct | mindshell/src/layout.rs:206-295 | with no supplied id of generated form all panel, widget and desktop ids are distinct and the result is a fixed point |
| Migration.NotAlwaysFixedPoint | mindshell/src/layout.rs:230-237 | every layout with panel ids panel-2, empty, empty is changed by a second pass |
| LayoutFile.MigrateV2 | mindshell/src/layout.rs:158-171 | the loop over panels that adds perf and notifications |
| LayoutFile.MigrateV3 | mindshell/src/layout.rs:175-190 | the loop that adds updates |
| LayoutFile.MigrateV4 | mindshell/src/layout.rs:216-225 | the loop that drops network and vpn beside a tray |
| LayoutFile.MigrateV5 | mindshell/src/layout.rs:196-203 | the view indicator, unless some panel has one |
| LayoutFile.MigrateAll | mindshell/src/layout.rs:206-229 | the version steps in order |
| LayoutFile.RenamePins | mindshell/src/layout.rs:268-278 | the old Files entry renamed wherever it is pinned |
| LayoutFile.SanitizeWidgets | mindshell/src/layout.rs:256-279 | the widget loop with its seen set |
| LayoutFile.SanitizePanels | mindshell/src/layout.rs:230-280 | the panel loop with its seen set and counter |
| LayoutFile.Sanitized | mindshell/src/layout.rs:206-295 | the whole of sanitized |
| Urls.PercentEncode | mindshell/src/icons.rs:204-213 | the loop prints unreserved bytes and upper-case escapes |
| Urls.PercentDecode | mindshell/src/icons.rs:215-235 | the scan with its index, including where it panics |
| Urls.EncodeAlphabet | mindshell/src/icons.rs:204-213 | nothing but unreserved characters and percent signs is printed |
| Urls.DecodeEncode | mindshell/src/icons.rs:204-235 | for all texts decoding what was encoded gives it back |
| Urls.DecodeFailsIff | mindshell/src/icons.rs:220-226 | decoding panics iff some percent sign has a continuation byte three bytes on |
| Urls.DecodeCanFail | mindshell/src/icons.rs:220-226 | a percent sign before the euro sign makes decoding panic |
| Urls.DecodeTakesPlus | mindshell/src/icons.rs:221-225 | a plus sign passes for a hexadecimal digit |
| Urls.SplitUriAt | mindshell/src/scheme.rs:154-168 | what follows the origin comes apart where it was put together |
| Urls.SplitUriHost | mindshell/src/scheme.rs:154-168 | a URI is taken iff its host is the shell; without a path it is the root |
| Urls.SplitJoin | mindshell/src/scheme.rs:170-176 | splitting undoes joining |
| Urls.QueryRoundTrip | mindshell/src/scheme.rs:170-176 | a query printed from pairs reads back as the first value of the key, or as missing |
| Urls.WindowUrl | mindshell/src/bridge.rs:92-114 | the URL is origin, page and the query of exactly the given values, absent and null ones left out |
| Urls.WindowUrlRoundTrip | mindshell/src/bridge.rs:92-114 | splitting it and reading each key gives back every value, missing for what was absent or null, and missing for any other key |
| Urls.FileUrlRoundTrip | mindshell/src/scheme.rs:179-181 | the path comes back, query empty |
| Urls.ThumbUrlRoundTrip | mindshell/src/scheme.rs:184-186 | path and width come back |
| Greeter.Login.DriveOn | mindshell/src/greeter.rs:175-224 | the conversation loop over every reply script |
| Greeter.Login.AskFor | mindshell/src/greeter.rs:159-168 | the request that starts or continues it |
| Greeter.Login.SendRequest | mindshell/src/greeter.rs:226-239 | one request, one reply, or a dead line |
| Greeter.DriveSound | mindshell/src/greeter.rs:175-224 | whatever greetd says, the conversation stays sound and the outcome fits it: Started only queued, Prompt only waiting, Failed only cancelled |
| Greeter.EveryConversation | mindshell/src/greeter.rs:148-224 | in every run of the login screen: password at most once and directly behind a secret prompt, start_session at most once and directly behind a success, answers only behind prompts, notes once and in order; and user, password, command and environment sent are those given |
| Greeter.RespondSays | mindshell/src/greeter.rs:148-168 | an answer is the next request, as typed; what was said stays said |
| Greeter.StartSays | mindshell/src/greeter.rs:148-168 | a login begins by naming the user given |
| Greeter.DriveReports | mindshell/src/greeter.rs:175-224 | the notes handed out are those the outcome carries |
| Greeter.StartedMeansStarted | mindshell/src/app.rs:1963-1973 | a login is reported started only after start_session, with success as the last word |
| Greeter.StepKeeps | mindshell/src/app.rs:1266-1297 | login, answer, cancel and the landing of a result keep a conversation in the slot only while greetd waits |
| Greeter.ScreenMeans | mindshell/src/app.rs:1266-1297 | a login cancels what was waiting and begins with what was typed, an answer goes to the conversation that waits, giving up cancels it, and a result is kept in the slot iff it is a prompt |
| SingleFlight.SharedOnlyReads | mindshell/src/app.rs:2307-2333 | no shared command changes performance settings |
| SingleFlight.AllowedIsNarrow | mindshell/src/app.rs:2290-2303 | as root only mindos-perf with its verbs and mindos-boot list are run, otherwise only the programs named, pacman only to query |
| SingleFlight.AllowedIff | mindshell/src/app.rs:2285-2316 | exactly which commands are run and exactly which are shared |
| SingleFlight.Helpers.RunHelper | mindshell/src/app.rs:2301-2332 | refused, cached, joined or run |
| SingleFlight.Helpers.HelperDone | mindshell/src/app.rs:2355-2372 | the cache is filled or cleared and every waiter gets the result |
| SingleFlight.CallMeans | mindshell/src/app.rs:2301-2332 | where a call ends up: refused, served from the cache, on the list of the run there is, or running itself and open to others iff shared |
| SingleFlight.FinishMeans | mindshell/src/app.rs:2355-2372 | a run that ends answers its own call, leaves a shared result in the cache with the time, and after a change of performance settings nothing |
| SingleFlight.NeverLost | mindshell/src/app.rs:2304-2364 | in every run a call once made is running, waiting or answered ever after |
| SingleFlight.InvAlways | mindshell/src/app.rs:2304-2364 | leaders, waiting lists, answers and cache agree in every state of every interleaving |
| SingleFlight.OneInFlight | mindshell/src/app.rs:2317-2332 | at most one run of a shared command exists at any moment |
| SingleFlight.AnsweredOnce | mindshell/src/app.rs:2355-2364 | a call is answered at most once, and then neither runs nor waits |
| SingleFlight.NeverStranded | mindshell/src/app.rs:2323-2330 | while a call waits, its run goes on and lists it |
| SingleFlight.WaiterGetsThatRun | mindshell/src/app.rs:2323-2364 | a call that joined a run gets the result of that very run when it ends, whatever happens between |
| SingleFlight.CacheIsRecent | mindshell/src/app.rs:2318-2322 | a cached answer is the result of a run of the same command less than a second old |

## Left out

- The idle timer is always inserted: a failing insertion into the event loop, instants that overflow and the idle notifier protocol are not modelled.
- Preferences reach the idle state only through the request that changes them; reading them from a file is not modelled.
- IpcServer snapshots: subscribing, coalescing of refreshes (`refresh_due`) and the claim that all subscribers hold the latest snapshot.
- JSON text, UTF-8 lossy decoding of bad input, write timeouts and mutex poisoning: lines and bodies are abstract, decoding is a parameter.
- Desks: which window of a stack activation raises (any reordering is allowed), output geometry, and the animation of windows; app ids and parents of a window are fixed.
- Desks: a window withdrawn while its client lives leaves all three places at once.
- Keys: what a shortcut does, `release_all_keys` of the nested backend, pointer and touch events; each event brings the stage of the screen and the state of the bar and layers with it.
- `resize_edges` and `resize_border_at`: easy members beside the divider lookup.
- CaptureRegion: rounding of `f64`, non-finite scales and the width of `i32` beyond the ranges proved.
- CaptureQueue.WaitsIffUnchanged: rests on a fresh target being reported as changed when first drawn, and on the generation counter not wrapping round.
- CaptureQueue: releasing the client's buffers, rendering and the pixels copied.
- Dwindle: rounding of `f32`, and title bars or client sizes that make a window differ from its tile.
- Migration: opacity is a real number, so not-a-number does not occur; layout files are values, not JSON text.
- Urls: text is its bytes; for valid UTF-8 the lossy conversion at the end of decoding changes nothing.
- Greeter: connecting to greetd, the list of users and sessions, saving the last login.
- SingleFlight: a call dropped while it waits, the helper's output as JSON; a run in flight may refill the cache after a performance change cleared it, so freshness after a change is not claimed.
- The compositor's rendering, DRM, X11 and Wayland protocol handling, PAM, D-Bus, media and tray: foreign calls with nothing to prove here.
- `mindd` and the configuration files: type definitions and defaults.
