/**
 * The playback queue of `AbstractPlayer` (player.py): a FIFO of jobs drained by one
 * background consumer, with an `is_playing` field and a stop flag.
 *
 * The consumer thread is modelled by its program counter inside `_playing`:
 *   AtGuard     about to test `while not self._stop_event.is_set()`
 *   Waiting     inside `self.play_queue.get()` (blocked while the queue is empty)
 *   Dequeued(j) `get()` has returned j, `is_playing = True` not yet executed
 *   Running(j)  inside `do_playing(j)`
 *   Exited      the loop has ended
 * Every other thread (callers of play/stop/shutdown/get_playing_status) acts between two
 * consumer actions, so an interleaving is a sequence of events.
 */
module Playback {
  import opened Wrappers

  /** A handle of a pre-loaded `pygame.mixer.Sound`; opaque to the model. */
  type SoundId = nat

  /** One queued request: the converted file and, for the sound player, its loaded sound. */
  datatype Job = Job(path: string, sound: Option<SoundId>)

  /** Whether the backend's `do_playing` returned or raised. */
  datatype Outcome = Completed | Raised

  datatype Phase = AtGuard | Waiting | Dequeued(job: Job) | Running(job: Job) | Exited

  datatype State = State(queue: seq<Job>, isPlaying: bool, stopped: bool, phase: Phase)

  /** What `__init__` leaves: empty queue, not playing, flag clear, consumer at the loop head. */
  const Initial := State([], false, false, AtGuard)

  const WavSuffix := ".wav"

  /** The file `to_wav` exports to: the input name with ".wav" appended. */
  function ToWav(audioFile: string): (tmp: string)
    ensures WavSource(tmp) == Some(audioFile)
  {
    audioFile + WavSuffix
  }

  /** The inverse of `ToWav`: the source name of a converted file, if it is one. */
  function WavSource(name: string): (r: Option<string>)
    ensures r.Some? ==> name == r.value + WavSuffix
  {
    if |name| >= |WavSuffix| && name[|name| - |WavSuffix|..] == WavSuffix
    then Some(name[..|name| - |WavSuffix|])
    else None
  }

  /** Distinct inputs never share a converted file. */
  lemma WavNamesInjective(audioFile: string, other: string)
    ensures ToWav(audioFile) == ToWav(other) ==> audioFile == other
  {
  }

  /** `get_playing_status` of `AbstractPlayer`. */
  function Status(s: State): (r: bool)
    ensures Inv(s) ==> (r <==> s.phase.Running? || s.queue != [])
  {
    s.isPlaying || s.queue != []
  }

  /** `get_playing_status` of `PygamePlayer`: also busy while the mixer still plays. */
  function MixerStatus(s: State, mixerBusy: bool): (busy: bool)
    ensures Status(s) ==> busy
    ensures mixerBusy ==> busy
    ensures !mixerBusy ==> busy == Status(s)
  {
    Status(s) || mixerBusy
  }

  /** The consumer invariant: `is_playing` is set exactly while a job runs. */
  ghost predicate Inv(s: State) {
    !s.phase.Dequeued? && (s.isPlaying <==> s.phase.Running?)
  }

  lemma StatusReflectsConsumer(s: State, mixerBusy: bool)
    requires Inv(s)
    ensures MixerStatus(s, mixerBusy) <==> s.phase.Running? || s.queue != [] || mixerBusy
    ensures Status(ClearQueue(s)) <==> s.phase.Running?
  {
  }

  /** `play_queue.put(job)`: append at the tail. */
  function Enqueue(s: State, job: Job): (t: State)
    ensures Pending(t) == Pending(s) + [job]
    ensures t.(queue := s.queue) == s
  {
    s.(queue := s.queue + [job])
  }

  /** `_clear_queue`: drop every pending job, touch nothing else. */
  function ClearQueue(s: State): (t: State)
    ensures Pending(t) == if s.phase.Dequeued? then [s.phase.job] else []
    ensures Status(t) == s.isPlaying
    ensures t.(queue := s.queue) == s
  {
    s.(queue := [])
  }

  /** `self._stop_event.set()`: set the flag, touch nothing else. */
  function SetStopFlag(s: State): (t: State)
    ensures t.stopped
    ensures t.(stopped := s.stopped) == s
  {
    s.(stopped := true)
  }

  /** `shutdown` up to the join: clear the queue, then set the stop flag. */
  function ShutdownState(s: State): (t: State)
    ensures t.queue == [] && t.stopped && Status(t) == s.isPlaying
    ensures t.(queue := s.queue, stopped := s.stopped) == s
  {
    SetStopFlag(ClearQueue(s))
  }

  /**
   * The consumer's next action. The second component is the job handed to `do_playing`
   * by this action, if any. Taking a job from the queue and setting `is_playing` happen
   * as one action here (see README, Findings); `Dequeued` is reached only through
   * `DequeueAsWritten`.
   */
  function ConsumerStep(s: State, outcome: Outcome): (r: (State, Option<Job>))
    ensures Inv(s) ==> Inv(r.0)
    ensures r.0.stopped == s.stopped
    ensures s.stopped && s.phase == AtGuard ==> r.0.phase == Exited && r.1 == None
    ensures s.phase.Running? ==> !r.0.isPlaying && r.0.phase == AtGuard && r.1 == None
    ensures r.1.Some? ==> Pending(s) == [r.1.value] + Pending(r.0) && r.0.phase == Running(r.1.value) && r.0.isPlaying
    ensures r.1.None? ==> Pending(r.0) == Pending(s)
  {
    match s.phase
    case AtGuard =>
      if s.stopped then (s.(phase := Exited), None) else (s.(phase := Waiting), None)
    case Waiting =>
      if s.queue == [] then (s, None)
      else (s.(queue := s.queue[1..], isPlaying := true, phase := Running(s.queue[0])), Some(s.queue[0]))
    case Dequeued(j) =>
      (s.(isPlaying := true, phase := Running(j)), Some(j))
    case Running(_) =>
      // the `finally` clause: whatever the outcome, is_playing is reset
      (s.(isPlaying := false, phase := AtGuard), None)
    case Exited =>
      (s, None)
  }

  /** Line 38 alone, as written: the job leaves the queue while is_playing is still False. */
  function DequeueAsWritten(s: State): (t: State)
    ensures Pending(t) == Pending(s) && t.isPlaying == s.isPlaying && t.stopped == s.stopped
    ensures s.phase == Waiting && s.queue != [] ==> t.phase == Dequeued(s.queue[0])
  {
    if s.phase == Waiting && s.queue != []
    then s.(queue := s.queue[1..], phase := Dequeued(s.queue[0]))
    else s
  }

  /** Line 39, as written: set is_playing for the dequeued job. */
  function MarkPlaying(s: State): (t: State)
    ensures s.phase.Dequeued? ==> t.phase == Running(s.phase.job) && t.queue == s.queue && Status(t)
  {
    if s.phase.Dequeued? then s.(isPlaying := true, phase := Running(s.phase.job)) else s
  }

  lemma {:induction false} DequeueWindowHidesJob(j: Job)
    ensures var t := DequeueAsWritten(State([j], false, false, Waiting));
            t.phase == Dequeued(j) && !Status(t)
  {
  }

  lemma AtomicTakeIsBothLines(s: State, outcome: Outcome)
    requires s.phase == Waiting && s.queue != []
    ensures MarkPlaying(DequeueAsWritten(s)) == ConsumerStep(s, outcome).0
  {
  }

  /** `shutdown()` is the two events `Clear` (line 57) and `SetStop` (line 58). */
  datatype Event = Put(job: Job) | Clear | SetStop | Consume(outcome: Outcome)

  /** The effect of one event; the second component is the job it starts, if any. */
  function Step(s: State, e: Event): (State, Option<Job>) {
    match e
    case Put(j) => (Enqueue(s, j), None)
    case Clear => (ClearQueue(s), None)
    case SetStop => (SetStopFlag(s), None)
    case Consume(o) => ConsumerStep(s, o)
  }

  /** Final state, jobs started in order, and number of jobs finished, after a run of events. */
  datatype Run = Run(final: State, started: seq<Job>, finished: nat)

  function RunEvents(s: State, es: seq<Event>): Run
    decreases |es|
  {
    if es == [] then Run(s, [], 0)
    else
      var (t, j) := Step(s, es[0]);
      var rest := RunEvents(t, es[1..]);
      var fin := if s.phase.Running? && es[0].Consume? then 1 else 0;
      Run(rest.final, (if j.Some? then [j.value] else []) + rest.started, rest.finished + fin)
  }

  /** The jobs the events put, in order. */
  function Puts(es: seq<Event>): seq<Job> {
    if es == [] then [] else (if es[0].Put? then [es[0].job] else []) + Puts(es[1..])
  }

  predicate NoClearing(es: seq<Event>) {
    forall i :: 0 <= i < |es| ==> !es[i].Clear?
  }

  predicate NoPuts(es: seq<Event>) {
    forall i :: 0 <= i < |es| ==> !es[i].Put?
  }

  /** Jobs handed over but not yet started, followed by the queue. */
  function Pending(s: State): seq<Job> {
    (if s.phase.Dequeued? then [s.phase.job] else []) + s.queue
  }

  /** The job an event puts, if any. */
  function PutOf(e: Event): seq<Job> {
    if e.Put? then [e.job] else []
  }

  function StartedOf(j: Option<Job>): seq<Job> {
    if j.Some? then [j.value] else []
  }

  /** One event keeps "started, then pending" equal to "pending before, then put". */
  lemma StepIsFifo(s: State, e: Event)
    requires !e.Clear?
    ensures StartedOf(Step(s, e).1) + Pending(Step(s, e).0) == Pending(s) + PutOf(e)
  {
  }

  /** FIFO: without clearing, jobs start exactly in the order in which they were pending or put. */
  lemma {:induction false} RunIsFifo(s: State, es: seq<Event>)
    requires NoClearing(es)
    ensures var r := RunEvents(s, es); r.started + Pending(r.final) == Pending(s) + Puts(es)
    decreases |es|
  {
    if es != [] {
      var (t, j) := Step(s, es[0]);
      assert NoClearing(es[1..]) by {
        forall i | 0 <= i < |es[1..]| ensures !es[1..][i].Clear? {
          assert es[1..][i] == es[i + 1];
        }
      }
      RunIsFifo(t, es[1..]);
      StepIsFifo(s, es[0]);
      var r := RunEvents(t, es[1..]);
      var head := StartedOf(j);
      assert RunEvents(s, es).started == head + r.started;
      assert RunEvents(s, es).final == r.final;
      assert Puts(es) == PutOf(es[0]) + Puts(es[1..]);
      calc {
        (head + r.started) + Pending(r.final);
        head + (r.started + Pending(r.final));
        head + (Pending(t) + Puts(es[1..]));
        (head + Pending(t)) + Puts(es[1..]);
        (Pending(s) + PutOf(es[0])) + Puts(es[1..]);
        Pending(s) + Puts(es);
      }
    }
  }

  /** Draining the queue runs every pending and put job, once each, in enqueue order. */
  lemma DrainedRunsEveryJob(s: State, es: seq<Event>)
    requires NoClearing(es)
    requires var f := RunEvents(s, es).final; f.queue == [] && !f.phase.Dequeued?
    ensures RunEvents(s, es).started == Pending(s) + Puts(es)
  {
    RunIsFifo(s, es);
    var r := RunEvents(s, es);
    assert r.started + Pending(r.final) == r.started;
  }

  /**
   * The invariant holds along every run, the stop flag is never cleared, and the jobs
   * never overlap: each job started but the one now running has finished.
   */
  lemma {:induction false} RunKeepsInv(s: State, es: seq<Event>)
    requires Inv(s)
    ensures var r := RunEvents(s, es);
            && Inv(r.final)
            && (s.stopped ==> r.final.stopped)
            && (r.final.phase.Running? ==> Status(r.final))
            && |r.started| + (if s.phase.Running? then 1 else 0)
               == r.finished + (if r.final.phase.Running? then 1 else 0)
    decreases |es|
  {
    if es != [] {
      var (t, j) := Step(s, es[0]);
      assert Inv(t);
      RunKeepsInv(t, es[1..]);
    }
  }

  /** Cleared jobs never run: with an empty queue and no new puts, no job starts. */
  lemma {:induction false} NothingPendingNothingStarts(s: State, es: seq<Event>)
    requires Pending(s) == []
    requires NoPuts(es)
    ensures RunEvents(s, es).started == []
    ensures RunEvents(s, es).final.queue == []
    decreases |es|
  {
    if es != [] {
      var (t, j) := Step(s, es[0]);
      assert NoPuts(es[1..]) by {
        forall i | 0 <= i < |es[1..]| ensures !es[1..][i].Put? {
          assert es[1..][i] == es[i + 1];
        }
      }
      NothingPendingNothingStarts(t, es[1..]);
    }
  }

  /** `stop()` while job a runs and b, c wait: a still finishes, b and c never start. */
  lemma StopDuringJob(a: Job, b: Job, c: Job, o: Outcome, es: seq<Event>)
    requires NoPuts(es)
    ensures var t := ClearQueue(State([b, c], true, false, Running(a)));
            && t.phase == Running(a) && t.isPlaying && t.queue == []
            && ConsumerStep(t, o).0 == State([], false, false, AtGuard)
            && RunEvents(ConsumerStep(t, o).0, es).started == []
  {
    NothingPendingNothingStarts(State([], false, false, AtGuard), es);
  }

  /** The consumer is winding down: the flag is set and it is not inside `get()`. */
  predicate WindingDown(s: State) {
    s.stopped && (s.phase == AtGuard || s.phase.Running? || s.phase == Exited)
  }

  /**
   * Once the stop flag is set while the consumer is at the loop head, in a job, or gone,
   * no further job ever starts and the consumer never enters `get()` again.
   */
  lemma {:induction false} StoppedConsumerStartsNothing(s: State, es: seq<Event>)
    requires WindingDown(s)
    ensures RunEvents(s, es).started == [] && WindingDown(RunEvents(s, es).final)
    decreases |es|
  {
    if es != [] {
      var (t, j) := Step(s, es[0]);
      StoppedConsumerStartsNothing(t, es[1..]);
    }
  }

  /** A stopped consumer at the loop head exits on its next action. */
  lemma StoppedGuardExits(s: State, o: Outcome, es: seq<Event>)
    requires s.stopped && s.phase == AtGuard
    ensures RunEvents(s, [Consume(o)] + es).final.phase == Exited
  {
    var t := ConsumerStep(s, o).0;
    assert ([Consume(o)] + es)[1..] == es;
    ExitedStaysExited(t, es);
  }

  lemma {:induction false} ExitedStaysExited(s: State, es: seq<Event>)
    requires s.phase == Exited
    ensures RunEvents(s, es).final.phase == Exited
    decreases |es|
  {
    if es != [] {
      ExitedStaysExited(Step(s, es[0]).0, es[1..]);
    }
  }

  /**
   * `shutdown` empties the queue and sets the flag, leaving `is_playing` alone; if the
   * consumer is not inside `get()` when the flag is set, no job starts afterwards.
   */
  lemma ShutdownEndsTheLoop(s: State, es: seq<Event>)
    requires Inv(s) && !s.phase.Waiting?
    ensures var t := ShutdownState(s); t.queue == [] && t.stopped && t.isPlaying == s.isPlaying
    ensures RunEvents(ShutdownState(s), es).started == []
  {
    StoppedConsumerStartsNothing(ShutdownState(s), es);
  }

  /**
   * The guard is tested only at the loop head: a consumer already blocked in `get()` when
   * `shutdown` runs still takes and runs the next job that is put.
   */
  lemma WaitingConsumerOutlivesShutdown(j: Job, o: Outcome)
    ensures RunEvents(State([], false, false, Waiting), [Clear, SetStop, Put(j), Consume(o)]).started == [j]
  {
    assert [Clear, SetStop, Put(j), Consume(o)][1..] == [SetStop, Put(j), Consume(o)];
    WaitingConsumerTakesNextPut(j, o);
  }

  /**
   * Between lines 57 and 58 the consumer may finish its job, pass the guard with the flag
   * still clear and block in `get()`; a job put after `shutdown` then still runs.
   */
  lemma ShutdownWindowLetsConsumerWait(a: Job, j: Job, o: Outcome)
    ensures RunEvents(State([], true, false, Running(a)),
                      [Clear, Consume(o), Consume(o), SetStop, Put(j), Consume(o)]).started == [j]
  {
    var es := [Clear, Consume(o), Consume(o), SetStop, Put(j), Consume(o)];
    var s1 := ClearQueue(State([], true, false, Running(a)));
    var s2 := ConsumerStep(s1, o).0;
    var s3 := ConsumerStep(s2, o).0;
    assert s3 == State([], false, false, Waiting);
    assert es[1..] == [Consume(o), Consume(o), SetStop, Put(j), Consume(o)];
    assert es[1..][1..] == [Consume(o), SetStop, Put(j), Consume(o)];
    assert es[1..][1..][1..] == [SetStop, Put(j), Consume(o)];
    WaitingConsumerTakesNextPut(j, o);
    assert RunEvents(s3, [SetStop, Put(j), Consume(o)]).started == [j];
    assert RunEvents(s2, [Consume(o), SetStop, Put(j), Consume(o)]).started == [j];
    assert RunEvents(s1, [Consume(o), Consume(o), SetStop, Put(j), Consume(o)]).started == [j];
  }

  lemma WaitingConsumerTakesNextPut(j: Job, o: Outcome)
    ensures RunEvents(State([], false, false, Waiting), [SetStop, Put(j), Consume(o)]).started == [j]
  {
    var s1 := SetStopFlag(State([], false, false, Waiting));
    var s2 := Enqueue(s1, j);
    assert [SetStop, Put(j), Consume(o)][1..] == [Put(j), Consume(o)];
    assert [Put(j), Consume(o)][1..] == [Consume(o)];
    assert [Consume(o)][1..] == [];
    assert RunEvents(s2, [Consume(o)]).started == [j];
  }

  /**
   * The player object. Its fields are those of `AbstractPlayer`; `phase` stands for the
   * position of the consumer thread in `_playing`.
   */
  class Player {
    var queue: seq<Job>
    var isPlaying: bool
    var stopped: bool
    var phase: Phase

    function Model(): State
      reads this
    {
      State(queue, isPlaying, stopped, phase)
    }

    ghost predicate Valid()
      reads this
    {
      Inv(Model())
    }

    constructor ()
      ensures Model() == Initial && Valid()
    {
      queue := [];
      isPlaying := false;
      stopped := false;
      phase := AtGuard;
    }

    /** `get_playing_status`. */
    function PlayingStatus(): (r: bool)
      reads this
      ensures Valid() ==> (r <==> phase.Running? || queue != [])
    {
      Status(Model())
    }

    /**
     * `AbstractPlayer.play`: convert, then enqueue the converted path. `converted` is false
     * when the conversion raises, in which case the exception reaches the caller and the
     * queue is untouched.
     */
    method Play(data: string, converted: bool) returns (ok: bool)
      requires Valid()
      modifies this
      ensures Valid()
      ensures ok == converted
      ensures Model() == if ok then Enqueue(old(Model()), Job(ToWav(data), None)) else old(Model())
      ensures ok ==> queue == old(queue) + [Job(data + ".wav", None)]
    {
      ok := converted;
      if ok {
        var audioFile := ToWav(data);
        queue := queue + [Job(audioFile, None)];
      }
    }

    /**
     * `PygameSoundPlayer.play`: convert, load a sound (`sound` is None when loading raises),
     * then enqueue the pair.
     */
    method PlaySound(data: string, converted: bool, sound: Option<SoundId>) returns (ok: bool)
      requires Valid()
      modifies this
      ensures Valid()
      ensures ok == (converted && sound.Some?)
      ensures Model() == if ok then Enqueue(old(Model()), Job(ToWav(data), sound)) else old(Model())
    {
      ok := converted && sound.Some?;
      if ok {
        var audioFile := ToWav(data);
        queue := queue + [Job(audioFile, sound)];
      }
    }

    /** `stop` / `_clear_queue`: pending jobs are dropped, the running one is untouched. */
    method Stop()
      requires Valid()
      modifies this
      ensures Valid()
      ensures Model() == ClearQueue(old(Model()))
      ensures queue == [] && isPlaying == old(isPlaying) && phase == old(phase) && stopped == old(stopped)
    {
      queue := [];
    }

    /** `shutdown`, without the join: clear the queue, then set the stop flag. */
    method Shutdown()
      requires Valid()
      modifies this
      ensures Valid()
      ensures Model() == ShutdownState(old(Model()))
      ensures queue == [] && stopped && isPlaying == old(isPlaying) && phase == old(phase)
    {
      Stop();
      stopped := true;
    }

    /** One action of the consumer thread; `outcome` is what the backend's `do_playing` did. */
    method ConsumerAction(outcome: Outcome) returns (started: Option<Job>)
      modifies this
      ensures (Model(), started) == ConsumerStep(old(Model()), outcome)
      ensures old(Valid()) ==> Valid()
    {
      started := None;
      match phase
      case AtGuard =>
        phase := if stopped then Exited else Waiting;
      case Waiting =>
        if queue != [] {
          var data := queue[0];
          queue := queue[1..];
          isPlaying := true;
          phase := Running(data);
          started := Some(data);
        }
      case Dequeued(j) =>
        isPlaying := true;
        phase := Running(j);
        started := Some(j);
      case Running(_) =>
        isPlaying := false;
        phase := AtGuard;
      case Exited =>
    }

    /**
     * One iteration of the `_playing` loop from its head: test the stop flag, take the head
     * of the queue (or block on an empty one), run it, reset `is_playing` whatever the outcome.
     */
    method Iteration(outcome: Outcome) returns (ran: Option<Job>, ghost playingDuringJob: bool)
      requires Valid() && phase == AtGuard
      modifies this
      ensures Valid()
      ensures old(stopped) ==> ran == None && Model() == old(Model()).(phase := Exited)
      ensures !old(stopped) && old(queue) == [] ==> ran == None && Model() == old(Model()).(phase := Waiting)
      ensures !old(stopped) && old(queue) != [] ==>
                && ran == Some(old(queue)[0]) && playingDuringJob
                && queue == old(queue)[1..] && !isPlaying && !stopped && phase == AtGuard
    {
      ran := None;
      playingDuringJob := false;
      var _ := ConsumerAction(outcome);
      if phase == Exited {
        return;
      }
      var data := ConsumerAction(outcome);
      if data.None? {
        return;
      }
      playingDuringJob := isPlaying;
      var _ := ConsumerAction(outcome);
      ran := data;
    }
  }
}
