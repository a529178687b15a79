/**
 * The lip-sync side of `PygameSoundPlayer` (player.py): the shared cell pair
 * (`rms_value`, `sync_flag`), the analysis loop of `do_playing` that writes the cell while
 * the mixer channel is busy, and the render process's choice of mouth value.
 *
 * The loudness analyser (`WavHandler`) and the mixer are opaque: one run of the loop is
 * given as the sequence of what `Update()` did in each iteration while the channel was busy.
 */
module LipSync {
  import opened Wrappers
  import Playback

  /** The fixed gain applied to `GetRms()` before publishing. */
  const Gain: real := 2.5

  /** One poll of the analyser: no new sample, a new sample with its RMS, or an exception. */
  datatype Poll = NoSample | Sample(rms: real) | Fault

  /**
   * How far `do_playing` got before the loop: `StartFault` when `lipsync.Start` (or
   * `Channel(0)`) raises, before the flag is set; `PlayFault` when `channel.play` raises,
   * after the flag is set.
   */
  datatype Launch = Launched | StartFault | PlayFault

  /** The published value after the loop runs over `polls`, starting from `rms`. */
  function RmsAfter(rms: real, polls: seq<Poll>): (r: real)
    ensures r == rms || exists i :: 0 <= i < |polls| && polls[i].Sample? && r == polls[i].rms * Gain
    decreases |polls|
  {
    if polls == [] then rms
    else match polls[0]
      case Fault => rms
      case NoSample => RmsAfter(rms, polls[1..])
      case Sample(v) => RmsAfter(v * Gain, polls[1..])
  }

  /** The polls that complete before the first exception. */
  function Live(polls: seq<Poll>): (live: seq<Poll>)
    ensures Fault !in live && |live| <= |polls| && live == polls[..|live|]
    ensures |live| < |polls| ==> polls[|live|] == Fault
    decreases |polls|
  {
    if polls == [] || polls[0] == Fault then [] else [polls[0]] + Live(polls[1..])
  }

  /** Reference reading: the RMS of the last new sample, scanning from the end. */
  function LastSample(polls: seq<Poll>): Option<real>
    decreases |polls|
  {
    if polls == [] then None
    else if polls[|polls| - 1].Sample? then Some(polls[|polls| - 1].rms)
    else LastSample(polls[..|polls| - 1])
  }

  lemma {:induction false} LastSampleCons(p: Poll, rest: seq<Poll>)
    ensures LastSample([p] + rest) ==
            if LastSample(rest).Some? then LastSample(rest)
            else if p.Sample? then Some(p.rms) else None
    decreases |rest|
  {
    var ps := [p] + rest;
    if rest == [] {
      assert ps[..0] == [];
    } else {
      assert ps[|ps| - 1] == rest[|rest| - 1];
      assert ps[..|ps| - 1] == [p] + rest[..|rest| - 1];
      LastSampleCons(p, rest[..|rest| - 1]);
    }
  }

  /**
   * `rms_value` is written only when `Update()` reports a new sample, with `GetRms() * 2.5`:
   * after the loop it holds the gained RMS of the last new sample before any exception,
   * or its previous value when there was none.
   */
  lemma {:induction false} RmsIsLastSample(rms: real, polls: seq<Poll>)
    ensures RmsAfter(rms, polls) ==
            match LastSample(Live(polls))
            case None => rms
            case Some(v) => v * Gain
    decreases |polls|
  {
    if polls != [] && polls[0] != Fault {
      var p := polls[0];
      var next := if p.Sample? then p.rms * Gain else rms;
      RmsIsLastSample(next, polls[1..]);
      LastSampleCons(p, Live(polls[1..]));
    }
  }

  /** Running the loop over `p` and then over `q` is running it over both, if `p` never raises. */
  lemma {:induction false} RmsAfterAppend(rms: real, p: seq<Poll>, q: seq<Poll>)
    requires Fault !in p
    ensures RmsAfter(rms, p + q) == RmsAfter(RmsAfter(rms, p), q)
    decreases |p|
  {
    if p != [] {
      assert (p + q)[0] == p[0] && (p + q)[1..] == p[1..] + q;
      assert p[0] in p;
      var next := if p[0].Sample? then p[0].rms * Gain else rms;
      assert RmsAfter(rms, p + q) == RmsAfter(next, p[1..] + q);
      assert RmsAfter(rms, p) == RmsAfter(next, p[1..]);
      RmsAfterAppend(next, p[1..], q);
    } else {
      assert p + q == q;
    }
  }

  /** The render process's choice (`_render_entry`): the shared value only while the flag is set. */
  function RenderedMouth(rmsValue: real, syncFlag: bool, idle: real): (v: real)
    ensures syncFlag ==> v == rmsValue
    ensures !syncFlag ==> v == idle
  {
    if syncFlag then rmsValue else idle
  }

  /** The two process-shared cells, `rms_value` (initially 0.0) and `sync_flag` (initially False). */
  class SyncChannel {
    var rmsValue: real
    var syncFlag: bool

    constructor ()
      ensures rmsValue == 0.0 && !syncFlag
    {
      rmsValue := 0.0;
      syncFlag := false;
    }
  }

  /**
   * `PygameSoundPlayer.do_playing`. `raised` says whether the `except` clause logged an
   * error; `flagSeen` records the flag at the start of each loop iteration.
   */
  method DoPlaying(ch: SyncChannel, launch: Launch, polls: seq<Poll>)
      returns (raised: bool, ghost flagSeen: seq<bool>)
    modifies ch
    ensures !ch.syncFlag
    ensures forall idle: real :: RenderedMouth(ch.rmsValue, ch.syncFlag, idle) == idle
    ensures raised <==> launch != Launched || Fault in polls
    ensures ch.rmsValue == if launch == Launched then RmsAfter(old(ch.rmsValue), polls) else old(ch.rmsValue)
    ensures forall i :: 0 <= i < |flagSeen| ==> flagSeen[i]
    ensures launch == Launched ==> |flagSeen| == if Fault in polls then |Live(polls)| + 1 else |polls|
    ensures launch != Launched ==> flagSeen == []
  {
    ghost var rms0 := ch.rmsValue;
    raised := false;
    flagSeen := [];
    if launch == StartFault {
      raised := true;
    } else {
      ch.syncFlag := true;
      if launch == PlayFault {
        raised := true;
      } else {
        var i := 0;
        while i < |polls| && !raised
          invariant 0 <= i <= |polls|
          invariant ch.syncFlag
          invariant raised ==> 0 < i && polls[i - 1] == Fault && Fault !in polls[..i - 1]
          invariant !raised ==> Fault !in polls[..i]
          invariant ch.rmsValue == RmsAfter(rms0, polls[..if raised then i - 1 else i])
          invariant |flagSeen| == i && forall k :: 0 <= k < i ==> flagSeen[k]
        {
          flagSeen := flagSeen + [ch.syncFlag];
          assert polls[..i + 1] == polls[..i] + [polls[i]];
          RmsAfterAppend(rms0, polls[..i], [polls[i]]);
          if polls[i] == Fault {
            raised := true;
          } else if polls[i].Sample? {
            ch.rmsValue := polls[i].rms * Gain;
          }
          i := i + 1;
        }
        if raised {
          var k := i - 1;
          assert polls == polls[..k] + polls[k..];
          RmsAfterAppend(rms0, polls[..k], polls[k..]);
          LiveIsPrefixBeforeFault(polls, k);
        } else {
          assert polls[..i] == polls;
        }
      }
    }
    ch.syncFlag := false;
  }

  /** `Live` stops at the first exception. */
  lemma LiveIsPrefixBeforeFault(polls: seq<Poll>, k: nat)
    requires k < |polls| && polls[k] == Fault && Fault !in polls[..k]
    ensures Live(polls) == polls[..k]
  {
  }

  /**
   * One iteration of the sound player's consumer: take the head of the queue, run
   * `do_playing` on it (which never lets an exception escape), reset `is_playing`.
   * The sync flag is set only inside the job, and both flags are clear afterwards.
   */
  method SoundPlayerIteration(p: Playback.Player, ch: SyncChannel, launch: Launch, polls: seq<Poll>)
      returns (ran: Option<Playback.Job>, ghost playingWhileSynced: bool)
    requires p.phase == Playback.Waiting && p.queue != []
    modifies p, ch
    ensures p.stopped == old(p.stopped)
    ensures ran == Some(old(p.queue)[0]) && p.queue == old(p.queue)[1..]
    ensures !p.isPlaying && p.phase == Playback.AtGuard && !ch.syncFlag
    ensures playingWhileSynced
    ensures ch.rmsValue == if launch == Launched then RmsAfter(old(ch.rmsValue), polls) else old(ch.rmsValue)
  {
    ran := p.ConsumerAction(Playback.Completed);
    ghost var flagSeen;
    var raised;
    raised, flagSeen := DoPlaying(ch, launch, polls);
    playingWhileSynced := p.isPlaying && forall i :: 0 <= i < |flagSeen| ==> flagSeen[i];
    var _ := p.ConsumerAction(Playback.Completed);
  }
}
