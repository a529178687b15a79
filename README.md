# Playback queue and lip-sync bracket of EdgePersona's player

This project models, in Dafny, the audio playback core of `player.py`:

- `AbstractPlayer`: a FIFO queue of playback jobs drained by one consumer loop (`_playing`),
  the `is_playing` field, the stop flag, `play` with the `to_wav` naming rule, `stop`,
  `shutdown` and `get_playing_status`, plus `PygamePlayer`'s status that also counts a busy
  mixer (module `Playback`, file `playback.dfy`). `PygameSoundPlayer.play`, which queues a
  loaded sound with its file, is `Playback.Player.PlaySound` there too.
- `PygameSoundPlayer`: the `sync_flag` bracket and the `rms_value` writes of `do_playing`, and
  the render process's choice between the shared value and the idle animation (module
  `LipSync`, file `lipsync.dfy`).
- `EnhancedModel`: the "Mouth" parameter filter and `update_mouth` (module `Mouth`, file
  `mouth.dfy`).

Threads are removed. The consumer thread is represented by its position in `_playing`
(the `Phase` datatype): at the loop guard, blocked in `get()`, holding a dequeued job, running
a job, or exited. An interleaving of callers and consumer is a sequence of `Event`s, and
`RunEvents` gives the resulting state, the jobs started in order and the number finished.
The class `Playback.Player` holds the fields of `AbstractPlayer`; each of its methods is
specified by the pure transition function on `State` that the lemmas are about.

Backends are opaque. A backend's `do_playing` is an `Outcome` (returned or raised). A
conversion or a sound load that raises is a boolean or `Option` parameter. One run of the
analysis loop is the sequence of what `Update()` did in each iteration while the mixer channel
was busy (`Poll`), with an injected exception possible in any iteration or before the loop (`Launch`).

Behaviour of the code that the model keeps:
- `play` after `shutdown` still enqueues; nothing rejects it.
- `shutdown` does not always end the consumer. A consumer already blocked in `get()` never re-tests
  the flag and runs the next job that is put (`WaitingConsumerOutlivesShutdown`). `shutdown`
  clears the queue (line 57) before it sets the flag (line 58), so a consumer that finishes its
  job between the two lines also blocks in `get()` (`ShutdownWindowLetsConsumerWait`).
- `PygameSoundPlayer` keeps the base status. Only `PygamePlayer` adds the mixer-busy disjunct.

## Model

| member | source | states |
|---|---|---|
| `Playback.ToWav` | player.py:30-34 | the converted name is recognised as converted and gives back its input |
| `Playback.WavSource` | player.py:30-34 | a name it accepts is the source it returns with ".wav" appended |
| `Playback.WavNamesInjective` | player.py:30-34 | two inputs never share a converted file |
| `Playback.Status` | player.py:62-64 | under the consumer invariant, status holds iff a job runs or jobs are queued |
| `Playback.Player.PlayingStatus` | player.py:62-64 | for a valid player, status holds iff the consumer runs a job or jobs are queued |
| `Playback.MixerStatus` | player.py:139-141 | the mixer player's status is busy whenever the base status is or the mixer is, and equals the base status when the mixer is idle |
| `Playback.StatusReflectsConsumer` | player.py:62-64 | under the consumer invariant, the mixer status holds iff a job runs, jobs are queued or the mixer is busy; after clearing, the base status holds iff a job runs |
| `Playback.Enqueue` | player.py:51 | the job joins the end of the pending jobs and nothing else changes |
| `Playback.ClearQueue` | player.py:66-68 | only a dequeued job stays pending, status becomes `is_playing`, and nothing but the queue changes |
| `Playback.SetStopFlag` | player.py:58 | the flag is set and nothing else changes |
| `Playback.ShutdownState` | player.py:56-58 | queue empty and flag set, status becomes `is_playing`, nothing else changes |
| `Playback.ConsumerStep` | player.py:36-46 | one consumer action keeps the invariant and the flag; at the guard with the flag set it exits; a finished job resets `is_playing` whatever the outcome; a started job is the head of the pending jobs and runs with `is_playing` set; otherwise no pending job is lost |
| `Playback.DequeueAsWritten` | player.py:38 | as written, `get()` hands over the head, which stays pending, and leaves `is_playing` as it was |
| `Playback.MarkPlaying` | player.py:39 | the dequeued job runs with `is_playing` set and status true, with the queue unchanged |
| `Playback.DequeueWindowHidesJob` | player.py:38-39 | as written, right after `get()` returns a job the status is false although the job is about to run |
| `Playback.AtomicTakeIsBothLines` | player.py:38-39 | the consumer's take is lines 38 and 39 done as one action |
| `Playback.StepIsFifo` | player.py:36-51 | one put or consumer action keeps "started, then pending" equal to "pending before, then put" |
| `Playback.RunIsFifo` | player.py:36-51 | without clearing, jobs start exactly in pending-then-put order, none lost and none repeated |
| `Playback.DrainedRunsEveryJob` | player.py:36-51 | once the queue is drained, the started jobs are all pending and put jobs, in enqueue order |
| `Playback.RunKeepsInv` | player.py:36-46 | along any run, `is_playing` is set exactly while a job runs, status is true while it runs, the stop flag stays set, and every started job but the running one has finished (no overlap) |
| `Playback.NothingPendingNothingStarts` | player.py:66-68 | with nothing pending and no new puts, no job ever starts and the queue stays empty |
| `Playback.StopDuringJob` | player.py:53-54 | stop while a runs and b, c wait: a keeps running and finishes, b and c never start |
| `Playback.StoppedConsumerStartsNothing` | player.py:36-37 | once the flag is set while the consumer is at the guard, in a job or exited, no job ever starts and the consumer never enters `get()` again |
| `Playback.StoppedGuardExits` | player.py:37 | a consumer at the guard with the flag set exits on its next action and stays exited |
| `Playback.ShutdownEndsTheLoop` | player.py:56-60 | shutdown empties the queue, sets the flag, keeps `is_playing`; if the consumer is not blocked in `get()` when the flag is set, no job starts afterwards |
| `Playback.WaitingConsumerOutlivesShutdown` | player.py:36-38 | a consumer blocked in `get()` during shutdown still runs the next job put |
| `Playback.ShutdownWindowLetsConsumerWait` | player.py:56-58 | a consumer that finishes its job between the clear and the flag set blocks in `get()` and runs a job put after shutdown |
| `Playback.Player.constructor` | player.py:21-27 | empty queue, not playing, flag clear, consumer at the loop head |
| `Playback.Player.Play` | player.py:48-51 | on successful conversion exactly one job, the input path with ".wav" appended, joins the tail; earlier jobs unchanged; a failed conversion changes nothing |
| `Playback.Player.PlaySound` | player.py:264-268 | the same for the sound player, the job carrying the loaded sound; nothing is queued when converting or loading fails |
| `Playback.Player.Stop` | player.py:66-68 | the queue is emptied and `is_playing`, the flag and the consumer are unchanged |
| `Playback.Player.Shutdown` | player.py:56-60 | queue empty and flag set, `is_playing` and the consumer unchanged |
| `Playback.Player.ConsumerAction` | player.py:36-46 | one consumer action follows `ConsumerStep` and keeps the consumer invariant |
| `Playback.Player.Iteration` | player.py:36-46 | one loop iteration: exits when stopped, blocks on an empty queue, else runs the head with `is_playing` set and resets it whatever the outcome |
| `LipSync.RmsAfter` | player.py:284-287 | the value after the loop is the old value or 2.5 times the RMS of some new sample |
| `LipSync.RmsIsLastSample` | player.py:284-287 | after the loop, `rms_value` is 2.5 times the RMS of the last new sample before any exception, or its previous value when there was none |
| `LipSync.RenderedMouth` | player.py:252 | the renderer uses the shared value while the flag is set and the idle value otherwise |
| `LipSync.SyncChannel.constructor` | player.py:211-212 | the shared value starts at 0.0 and the flag cleared |
| `LipSync.DoPlaying` | player.py:269-294 | the flag is set in every loop iteration and clear on exit, also after an exception, so the renderer falls back to idle; the value follows `RmsAfter`; the error is logged iff something raised |
| `LipSync.SoundPlayerIteration` | player.py:36-46 | a sound-player iteration takes the head, the sync flag is only set while `is_playing` is, both are clear afterwards, and the stop flag is unchanged |
| `Mouth.Contains` | player.py:387 | the tag is found only if it fits, and is found at the start and at the end |
| `Mouth.ContainsIffOccurs` | player.py:387 | the substring test holds iff the tag occurs at some index |
| `Mouth.MouthParams` | player.py:387 | an id is kept iff it contains "Mouth" |
| `Mouth.MouthParamsAppend` | player.py:387 | the filter keeps order: it distributes over concatenation |
| `Mouth.Clamp` | player.py:408 | the result lies in [0,1], is the input inside it, 0 below it and 1 above it |
| `Mouth.EnhancedModel.constructor` | player.py:385-387 | the mouth parameters are the filtered parameter ids |
| `Mouth.EnhancedModel.UpdateMouth` | player.py:405-409 | every mouth parameter is set to the clamped value, so it lies in [0,1], and every other parameter is unchanged |

## Left out

- Threads, `queue.Queue` blocking, `task_done` and `join`. The consumer is a sequence of actions; blocking in `get()` is an action that changes nothing.
- `Playback.Player.Shutdown`: runs lines 57 and 58 as one method. The window between the two lines is modelled only by the separate `Clear` and `SetStop` events. `Play`, `PlaySound` and `Stop` are single actions too, since each changes the queue in one `put` or `clear`.
- The render process and the locking of `mp.Value`. The render side is only its value choice (`RenderedMouth`).
- The end of the consumer thread. `shutdown`'s join is not modelled, and nothing claims that it returns.
- All audio and render backends (pygame, pyaudio, sounddevice, pydub, playsound, `afplay`/`play`, live2d, `WavHandler`). Their effect is an `Outcome`, a `Poll` sequence or a parameter map. This covers the backend-specific `stop` overrides and the mixer and process teardown in `PygameSoundPlayer.shutdown`.
- The idle sine animation, the 100 Hz and 60 Hz clock ticks and RMS arithmetic. These are floats and wall-clock time: values are `real`, and the idle value is a parameter.
- The `__new__` singleton, `create_instance`, `LipSyncController`, `start_motion` and logging.
- The model-file existence check of `EnhancedModel.__init__`, which is file-system I/O.
- tts.py and llm.py are not part of this model.

## Findings

| source | as written | input that shows it | evidently intended | confidence | as-written member | corrected member |
|---|---|---|---|---|---|---|
| player.py:38-39 | `get()` removes the job, then a separate statement sets `is_playing = True` | queue holds one job; the consumer returns from `get()`; before line 39 runs, another thread calls `get_playing_status()` and gets False | status is true from dequeue to completion, so take-and-mark is one step | medium, not executed | `Playback.DequeueWindowHidesJob` | `Playback.RunKeepsInv` |
