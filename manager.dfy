/**
 * PlayerManager as a class: the fields the Kotlin class updates in place,
 * and one method per operation. Every method is proved to move the manager
 * from `old(Abs())` to the session the matching SessionModel function gives.
 */
module Manager {
  import opened SessionModel

  class PlayerManager {
    var state: State
    var hasAudioFocus: bool
    var playbackDelayed: bool
    var resumeOnFocusGain: bool
    var players: map<SoundKey, Player>
    var playbackStrategyFactory: Factory
    var notifications: nat  // calls of notifyChanges so far
    var nextId: nat         // identity for the next Player or factory created
    var released: bool      // mediaSession released, cast callbacks cleared
    const library: SoundLibrary

    /** The manager's state as a Session value. */
    function Abs(): Session
      reads this
    {
      Session(state, hasAudioFocus, playbackDelayed, resumeOnFocusGain, players,
              playbackStrategyFactory, notifications, nextId, released)
    }

    ghost predicate Valid()
      reads this
    {
      Inv(Abs())
    }

    /** A manager starts stopped, without focus, on a new local factory. */
    constructor (library: SoundLibrary)
      ensures Valid() && Abs() == Initial() && this.library == library
    {
      state := Stopped;
      hasAudioFocus, playbackDelayed, resumeOnFocusGain := false, false, false;
      players := map[];
      playbackStrategyFactory := Factory(Local, 0);
      notifications := 0;
      nextId := 1;
      released := false;
      this.library := library;
    }

    /** Publishes the state to the media session and the listener; the model counts the calls. */
    method NotifyChanges()
      modifies this
      ensures Abs() == SessionModel.NotifyChanges(old(Abs()))
    {
      notifications := notifications + 1;
    }

    /** `players.values.forEach { it.play() }` and `{ it.pause() }`. */
    method SetRunAll(run: RunState)
      modifies this
      ensures players == SetRun(old(players), run)
      ensures Abs() == old(Abs()).(players := players)
    {
      var updated := players;
      var pending := players.Keys;
      while pending != {}
        invariant pending <= players.Keys
        invariant updated.Keys == players.Keys
        invariant forall k :: k in players ==>
          updated[k] == if k in pending then players[k] else players[k].(run := run)
        decreases pending
      {
        var k :| k in pending;
        updated := updated[k := updated[k].(run := run)];
        pending := pending - {k};
      }
      players := updated;
    }

    method Pause()
      requires Valid()
      modifies this
      ensures Valid()
      ensures Abs() == SessionModel.Pause(old(Abs()))
    {
      state := Paused;
      SetRunAll(Suspended);
      // the focus abandoned here is only the platform's; hasAudioFocus stays as it is
      NotifyChanges();
    }

    method Resume(answer: FocusOutcome)
      requires Valid()
      modifies this
      ensures Valid()
      ensures Abs() == SessionModel.Resume(old(Abs()), answer)
      decreases if hasAudioFocus then 0 else 1, 1
    {
      if hasAudioFocus {
        state := Playing;
        SetRunAll(Running);
      } else if !playbackDelayed {
        RequestAudioFocus(answer);
      }
      NotifyChanges();
    }

    /** `answer` is what the platform replies to the focus request, if one is made. */
    method RequestAudioFocus(answer: FocusOutcome)
      requires Valid()
      modifies this
      ensures Valid()
      ensures Abs() == SessionModel.RequestAudioFocus(old(Abs()), answer)
      decreases if hasAudioFocus then 0 else 1, 0
    {
      if hasAudioFocus {
        return;
      }
      match answer {
        case Delayed =>
          playbackDelayed := true;
          hasAudioFocus := false;
          resumeOnFocusGain := false;
          Pause();
        case Failed =>
          hasAudioFocus := false;
          playbackDelayed := false;
          resumeOnFocusGain := false;
          Pause();
        case Granted =>
          hasAudioFocus := true;
          playbackDelayed := false;
          resumeOnFocusGain := false;
          Resume(answer);
      }
    }

    method OnAudioFocusChange(change: FocusChange)
      requires Valid()
      modifies this
      ensures Valid()
      ensures Abs() == SessionModel.OnAudioFocusChange(old(Abs()), change)
    {
      match change {
        case Gain =>
          hasAudioFocus := true;
          if playbackDelayed || resumeOnFocusGain {
            playbackDelayed := false;
            resumeOnFocusGain := false;
            Resume(Granted);  // focus is held: no request is made
          }
        case Loss =>
          hasAudioFocus := false;
          resumeOnFocusGain := true;
          playbackDelayed := false;
          Pause();
        case LossTransient =>
          hasAudioFocus := false;
          resumeOnFocusGain := true;
          playbackDelayed := false;
          Pause();
        case LossTransientCanDuck =>
      }
    }

    method Play(soundKey: SoundKey, answer: FocusOutcome)
      requires Valid()
      modifies this
      ensures Valid()
      ensures Abs() == SessionModel.Play(old(Abs()), soundKey, answer, library)
    {
      if soundKey !in players {
        players := players[soundKey := NewPlayer(soundKey, playbackStrategyFactory, nextId, library)];
        nextId := nextId + 1;
      }
      assert Abs() == Admit(old(Abs()), soundKey, library);
      if playbackDelayed {
        state := Paused;
        NotifyChanges();
        return;
      }
      if !hasAudioFocus {
        RequestAudioFocus(answer);
        return;
      }
      state := Playing;
      players := players[soundKey := players[soundKey].(run := Running)];
      NotifyChanges();
    }

    method Stop(soundKey: SoundKey)
      requires Valid()
      modifies this
      ensures Valid()
      ensures Abs() == SessionModel.Stop(old(Abs()), soundKey)
    {
      if soundKey in players {
        var player := players[soundKey];
        // player.stop() releases its backend, of which nothing is kept
        players := players - {player.sound};
      }
      if players == map[] {
        state := Stopped;
      }
      NotifyChanges();
    }

    method StopAll()
      requires Valid()
      modifies this
      ensures Valid()
      ensures Abs() == SessionModel.StopAll(old(Abs()))
    {
      state := Stopped;
      // every player.stop() releases a backend, of which nothing is kept
      players := map[];
      NotifyChanges();
    }

    method SetVolume(soundKey: SoundKey, volume: int)
      requires Valid()
      modifies this
      ensures Valid()
      ensures Abs() == SessionModel.SetVolume(old(Abs()), soundKey, volume)
    {
      if soundKey !in players {
        return;
      }
      players := players[soundKey := players[soundKey].(volume := volume)];
    }

    method SetTimePeriod(soundKey: SoundKey, timePeriod: int)
      requires Valid()
      modifies this
      ensures Valid()
      ensures Abs() == SessionModel.SetTimePeriod(old(Abs()), soundKey, timePeriod)
    {
      if soundKey !in players {
        return;
      }
      players := players[soundKey := players[soundKey].(timePeriod := timePeriod)];
    }

    method PlayPreset(preset: seq<PresetEntry>, answer: FocusOutcome)
      requires Valid()
      modifies this
      ensures Valid()
      ensures Abs() == SessionModel.PlayPreset(old(Abs()), preset, answer, library)
    {
      DropPlayersNotIn(PresetKeys(preset));
      LoadEntries(preset);
      Resume(answer);
    }

    /** The first loop of playPreset: stop and remove the players whose keys are not in `keys`. */
    method DropPlayersNotIn(keys: set<SoundKey>)
      requires Valid()
      modifies this
      ensures Valid()
      ensures Abs() == Retain(old(Abs()), keys)
    {
      var remaining := players;
      var stale := players.Keys - keys;
      while stale != {}
        invariant stale <= players.Keys - keys
        invariant remaining == map k | k in players && (k in keys || k in stale) :: players[k]
        decreases stale
      {
        var k :| k in stale;
        remaining := remaining - {k};
        stale := stale - {k};
      }
      players := remaining;
    }

    /** The second loop of playPreset: every entry loaded in order. */
    method LoadEntries(preset: seq<PresetEntry>)
      requires Valid()
      modifies this
      ensures Valid()
      ensures Abs() == ApplyEntries(old(Abs()), preset, library)
    {
      ghost var start := Abs();
      var i := 0;
      while i < |preset|
        invariant 0 <= i <= |preset|
        invariant ApplyEntries(Abs(), preset[i..], library) == ApplyEntries(start, preset, library)
        decreases |preset| - i
      {
        ghost var before := Abs();
        LoadEntry(preset[i]);
        ApplyEntriesFrom(before, preset, i, library);
        i := i + 1;
      }
      assert preset[i..] == [];
      ApplyEntriesKeepsInv(start, preset, library);
    }

    /** The body of that loop: reuse or create the entry's Player, then set its time period and volume. */
    method LoadEntry(entry: PresetEntry)
      modifies this
      ensures Abs() == ApplyEntry(old(Abs()), entry, library)
    {
      var player: Player;
      if entry.sound in players {
        player := players[entry.sound];
      } else {
        player := NewPlayer(entry.sound, playbackStrategyFactory, nextId, library);
        nextId := nextId + 1;
      }
      // the Kotlin code mutates the Player object held in the map; here the record is stored back
      player := player.(timePeriod := entry.timePeriod);
      player := player.(volume := entry.volume);
      players := players[entry.sound := player];
    }

    /** Rebinds every player to the current factory. */
    method UpdatePlaybackStrategies()
      modifies this
      ensures Abs() == SessionModel.UpdatePlaybackStrategies(old(Abs()))
    {
      var updated := players;
      var pending := players.Keys;
      while pending != {}
        invariant pending <= players.Keys
        invariant updated.Keys == players.Keys
        invariant forall k :: k in players ==>
          updated[k] == if k in pending then players[k] else players[k].(factory := playbackStrategyFactory)
        decreases pending
      {
        var k :| k in pending;
        updated := updated[k := updated[k].(factory := playbackStrategyFactory)];
        pending := pending - {k};
      }
      players := updated;
    }

    /** The cast wrapper's session-begin callback. */
    method OnSessionBegin()
      requires Valid()
      modifies this
      ensures Valid()
      ensures Abs() == SessionModel.OnSessionBegin(old(Abs()))
    {
      playbackStrategyFactory := Factory(Cast, nextId);
      nextId := nextId + 1;
      UpdatePlaybackStrategies();
    }

    /** The cast wrapper's session-end callback. */
    method OnSessionEnd()
      requires Valid()
      modifies this
      ensures Valid()
      ensures Abs() == SessionModel.OnSessionEnd(old(Abs()))
    {
      if playbackStrategyFactory.route != Local {
        playbackStrategyFactory := Factory(Local, nextId);
        nextId := nextId + 1;
        UpdatePlaybackStrategies();
      }
    }

    method Cleanup()
      requires Valid()
      modifies this
      ensures Valid()
      ensures Abs() == SessionModel.Cleanup(old(Abs()))
    {
      StopAll();
      released := true;
    }
  }
}
