/**
 * Properties of the playback session manager that relate several operations:
 * round trips, idempotence, the invariant over any sequence of calls, and the
 * state a run of play and stop calls settles in.
 */
module SessionProperties {
  import opened SessionModel

  /** pause() followed by resume() with focus held restores playback over the same players. */
  lemma PauseThenResume(s: Session, answer: FocusOutcome)
    requires s.hasAudioFocus
    ensures var r := Resume(Pause(s), answer);
      && r.state == Playing && SameFlags(s, r)
      && r.players.Keys == s.players.Keys
      && (forall k :: k in s.players ==> r.players[k] == s.players[k].(run := Running))
      && r.notifications == s.notifications + 2
  {
  }

  /** The two kinds of focus loss are handled alike. */
  lemma LossesAgree(s: Session)
    ensures OnAudioFocusChange(s, Loss) == OnAudioFocusChange(s, LossTransient)
  {
  }

  /**
   * A focus loss followed by a gain resumes the same players: none is
   * re-created and none is retuned.
   */
  lemma LossThenGain(s: Session, loss: FocusChange)
    requires loss == Loss || loss == LossTransient
    ensures var r := OnAudioFocusChange(OnAudioFocusChange(s, loss), Gain);
      && r.state == Playing && r.hasAudioFocus && !r.playbackDelayed && !r.resumeOnFocusGain
      && r.players.Keys == s.players.Keys
      && (forall k :: k in s.players ==> r.players[k] == s.players[k].(run := Running))
      && r.notifications == s.notifications + 2 && r.nextId == s.nextId
  {
  }

  /**
   * A cast session that begins and ends leaves the manager on a local factory
   * with the same players, tuned and running as before; only their binding moved.
   */
  lemma BeginThenEnd(s: Session)
    ensures var r := OnSessionEnd(OnSessionBegin(s));
      && r.factory.route == Local
      && r.players.Keys == s.players.Keys
      && (forall k :: k in s.players ==> r.players[k] == s.players[k].(factory := r.factory))
      && r.state == s.state && SameFlags(s, r) && r.notifications == s.notifications
  {
  }

  /**
   * A focus gain does not look at the top-level state: if a loss left
   * resume-on-gain set and stop() then emptied the map, the gain still moves
   * the manager to PLAYING, with no player at all.
   */
  lemma GainAfterStop(s: Session)
    requires s.playbackDelayed || s.resumeOnFocusGain
    ensures var r := OnAudioFocusChange(StopAll(s), Gain);
      r.state == Playing && r.players == map[] && r.notifications == s.notifications + 2
  {
  }

  /**
   * stop() leaves a delayed request outstanding, so the resume at the end of
   * playPreset makes no request and leaves the state alone: the manager is
   * STOPPED while it holds a player.
   */
  lemma StoppedWithPlayers(a: SoundKey, e: PresetEntry, answer: FocusOutcome, library: SoundLibrary)
    ensures var r := Run(Initial(), [PlayOp(a, Delayed), StopAllOp, PlayPresetOp([e], answer)], library);
      && r.state == Stopped && e.sound in r.players && r.playbackDelayed
  {
    var ops := [PlayOp(a, Delayed), StopAllOp, PlayPresetOp([e], answer)];
    var s1 := Step(Initial(), ops[0], library);
    var s2 := Step(s1, ops[1], library);
    assert s2.state == Stopped && s2.playbackDelayed && s2.players == map[];
    var s3 := Step(s2, ops[2], library);
    assert PresetKeys([e]) == {e.sound};
    calc {
      Run(Initial(), ops, library);
      Run(s1, ops[1..], library);
      { assert ops[1..][0] == StopAllOp && ops[1..][1..] == [PlayPresetOp([e], answer)]; }
      Run(s2, [PlayPresetOp([e], answer)], library);
      { assert [PlayPresetOp([e], answer)][1..] == []; }
      Run(s3, [], library);
    }
  }

  /** A repeated session end changes nothing. */
  lemma SessionEndTwice(s: Session)
    ensures OnSessionEnd(OnSessionEnd(s)) == OnSessionEnd(s)
  {
  }

  /**
   * Loading the same preset twice: the second load keeps the same keys, the
   * same Player instances and the same tuning, and creates nothing.
   */
  lemma PresetTwice(s: Session, preset: seq<PresetEntry>, first: FocusOutcome, second: FocusOutcome, library: SoundLibrary)
    ensures var r1 := PlayPreset(s, preset, first, library);
      var r2 := PlayPreset(r1, preset, second, library);
      && r2.players.Keys == r1.players.Keys
      && r2.nextId == r1.nextId
      && (forall k :: k in r1.players ==>
            && r2.players[k].id == r1.players[k].id
            && r2.players[k].volume == r1.players[k].volume
            && r2.players[k].timePeriod == r1.players[k].timePeriod)
  {
    var r1 := PlayPreset(s, preset, first, library);
    PlayPresetContents(s, preset, first, library);
    PlayPresetContents(r1, preset, second, library);
  }

  // ---------------------------------------------------------------------------
  // Sequences of calls

  /** One call into the manager, from a user or from the platform. */
  datatype Op =
    | PlayOp(soundKey: SoundKey, answer: FocusOutcome)
    | StopOp(soundKey: SoundKey)
    | StopAllOp
    | PauseOp
    | ResumeOp(answer: FocusOutcome)
    | SetVolumeOp(soundKey: SoundKey, volume: int)
    | SetTimePeriodOp(soundKey: SoundKey, timePeriod: int)
    | PlayPresetOp(preset: seq<PresetEntry>, answer: FocusOutcome)
    | FocusChangeOp(change: FocusChange)
    | SessionBeginOp
    | SessionEndOp
    | CleanupOp

  function Step(s: Session, op: Op, library: SoundLibrary): Session
  {
    match op
    case PlayOp(k, a) => Play(s, k, a, library)
    case StopOp(k) => Stop(s, k)
    case StopAllOp => StopAll(s)
    case PauseOp => Pause(s)
    case ResumeOp(a) => Resume(s, a)
    case SetVolumeOp(k, v) => SetVolume(s, k, v)
    case SetTimePeriodOp(k, t) => SetTimePeriod(s, k, t)
    case PlayPresetOp(p, a) => PlayPreset(s, p, a, library)
    case FocusChangeOp(c) => OnAudioFocusChange(s, c)
    case SessionBeginOp => OnSessionBegin(s)
    case SessionEndOp => OnSessionEnd(s)
    case CleanupOp => Cleanup(s)
  }

  function Run(s: Session, ops: seq<Op>, library: SoundLibrary): Session
    decreases |ops|
  {
    if ops == [] then s else Run(Step(s, ops[0], library), ops[1..], library)
  }

  /** Any sequence of calls keeps the invariant. */
  lemma {:induction false} RunKeepsInv(s: Session, ops: seq<Op>, library: SoundLibrary)
    requires Inv(s)
    ensures Inv(Run(s, ops, library))
    decreases |ops|
  {
    if ops != [] {
      RunKeepsInv(Step(s, ops[0], library), ops[1..], library);
    }
  }

  /**
   * Every session a manager can reach has at most one focus flag set, every
   * Player under its own key and bound to the current factory, and no Player
   * held twice.
   */
  lemma Reachable(ops: seq<Op>, library: SoundLibrary)
    ensures var r := Run(Initial(), ops, library);
      && AtMostOneFlag(r) && WellKeyed(r) && DistinctIds(r.players)
  {
    RunKeepsInv(Initial(), ops, library);
  }

  /** Only play calls whose focus request is always granted, and stops. */
  ghost predicate GrantedPlayAndStop(ops: seq<Op>)
  {
    forall i :: 0 <= i < |ops| ==>
      (ops[i].PlayOp? && ops[i].answer == Granted) || ops[i].StopOp? || ops[i].StopAllOp?
  }

  /** STOPPED exactly when there are no players, PLAYING otherwise, and no delayed request. */
  ghost predicate Settled(s: Session)
  {
    && !s.playbackDelayed
    && (s.state == Stopped <==> s.players == map[])
    && (s.state == Stopped || s.state == Playing)
  }

  lemma {:induction false} SettledRun(s: Session, ops: seq<Op>, library: SoundLibrary)
    requires Settled(s) && GrantedPlayAndStop(ops)
    ensures Settled(Run(s, ops, library))
    decreases |ops|
  {
    if ops != [] {
      assert GrantedPlayAndStop(ops[1..]) by {
        forall i | 0 <= i < |ops[1..]|
          ensures (ops[1..][i].PlayOp? && ops[1..][i].answer == Granted) || ops[1..][i].StopOp? || ops[1..][i].StopAllOp?
        {
          assert ops[1..][i] == ops[i + 1];
        }
      }
      var t := Step(s, ops[0], library);
      assert (ops[0].PlayOp? && ops[0].answer == Granted) || ops[0].StopOp? || ops[0].StopAllOp?;
      match ops[0] {
        case PlayOp(k, a) =>
          assert k in t.players;
        case StopOp(k) =>
        case StopAllOp =>
      }
      SettledRun(t, ops[1..], library);
    }
  }

  /**
   * With focus always granted, any run of play and stop calls leaves the
   * manager STOPPED exactly when no player is left, and PLAYING otherwise.
   */
  lemma GrantedPlayStop(ops: seq<Op>, library: SoundLibrary)
    requires GrantedPlayAndStop(ops)
    ensures var r := Run(Initial(), ops, library);
      && (r.state == Stopped <==> r.players == map[])
      && (r.state != Stopped ==> r.state == Playing)
  {
    SettledRun(Initial(), ops, library);
  }
}
