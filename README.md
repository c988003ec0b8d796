# Playback session manager of noice, in Dafny

This project models `PlayerManager`, the component of the noice ambient-sound
mixer that owns every active sound player, the top-level playback state
(PLAYING, PAUSED, STOPPED), the audio-focus negotiation with the platform and
the move of the whole mix between local playback and a cast receiver.

It has three modules:

- `SessionModel` (session.dfy) — the manager's state as a value (`Session`: the
  state, the flags `hasAudioFocus`, `playbackDelayed` and `resumeOnFocusGain`,
  the map from sound key to `Player`, the current playback-strategy factory,
  a count of change notifications and an identity counter). Each operation is
  a function from the session before a call to the session after it. Its
  contracts state what the operation promises. The invariant `Inv` says three
  things. At most one focus flag is set. Every Player sits under its own key
  and is bound to the current factory. No Player instance is held under two keys.
- `Manager` (manager.dfy) — class `PlayerManager` with the Kotlin class's
  mutable fields and one method per operation. The methods keep the source's
  loops over the players and the recursion between `resume` and
  `requestAudioFocus`. Each method is proved to reach exactly the session the
  matching `SessionModel` function gives, and to keep `Inv`.
- `SessionProperties` (properties.dfy) — properties that relate several calls:
  pause then resume, loss then gain, cast begin then end, loading one preset
  twice, the invariant over any sequence of calls, and the settled state of
  any run of play and stop calls.

Inputs from the platform are parameters:

- the answer to a focus request is a `FocusOutcome` (Granted, Delayed, Failed),
  passed to every operation that may make a request;
- a focus change is a `FocusChange` (Gain, Loss, LossTransient,
  LossTransientCanDuck);
- cast session begin and end are explicit calls;
- the tuning a new Player starts with is a `SoundLibrary` function given to the
  constructor.

A Player is a record of its sound, an identity, volume, time period, run state
and bound factory. The identity makes "the same Player instance" checkable. A
factory is its route (Local or Cast) plus an identity, because the source
builds a fresh factory object on every route change.

Behaviour of the code that is easy to miss, kept as written:

- `pause()` and `stop()` abandon focus with the platform but never clear
  `hasAudioFocus`. A STOPPED manager can still hold focus as far as its flags
  go (`SessionModel.Stop`, `SessionModel.StopAll`, `SessionModel.Pause`).
- `resume()` on the focus-request path notifies twice: once from the
  request's own resume or pause, once itself. `playPreset` therefore notifies
  exactly once only when focus is already held or a delayed request is
  outstanding (`SessionModel.PlayPresetNotifies`).
- A focus gain never looks at the top-level state. In this model, where
  abandoning focus has no effect, a gain after `stop()` can move an empty
  manager to PLAYING (`SessionProperties.GainAfterStop`).
- `stop()` and `stop(soundKey)` leave `playbackDelayed` set, so a later
  `resume()` makes no request and changes no state. `stop(soundKey)` also
  keeps the state when the map stays non-empty. Together these make a
  STOPPED manager that holds players reachable: play with a delayed answer,
  stop everything, load a preset, then stop a key the preset did not name
  (`SessionProperties.StoppedWithPlayers`).
- `AUDIOFOCUS_LOSS_TRANSIENT_CAN_DUCK` has no branch in `onAudioFocusChange`
  and changes nothing.

## Model

| member | source | states |
|---|---|---|
| `SessionModel.Initial` | app/src/main/java/com/github/ashutoshgngwr/noice/sound/player/PlayerManager.kt:37-61 | a new manager is STOPPED with no players, no focus flag set, a local factory, and satisfies the invariant |
| `SessionModel.Pause` | app/src/main/java/com/github/ashutoshgngwr/noice/sound/player/PlayerManager.kt:238-243 | PAUSED; the same keys; every player halted and otherwise unchanged; all three focus flags unchanged (focus is not cleared); one notification; invariant kept |
| `SessionModel.Resume` | app/src/main/java/com/github/ashutoshgngwr/noice/sound/player/PlayerManager.kt:248-258 | with focus: PLAYING, every player started, one notification; with a delayed request: nothing but one notification; otherwise the request's outcome and two notifications; only run states change; invariant kept |
| `SessionModel.RequestAudioFocus` | app/src/main/java/com/github/ashutoshgngwr/noice/sound/player/PlayerManager.kt:144-173 | no-op while focus is held; GRANTED gives PLAYING with only `hasAudioFocus`; DELAYED gives PAUSED with only `playbackDelayed`; FAILED gives PAUSED with no flag; one notification; invariant kept |
| `SessionModel.OnAudioFocusChange` | app/src/main/java/com/github/ashutoshgngwr/noice/sound/player/PlayerManager.kt:114-141 | GAIN sets focus and, if a delay or resume was pending, clears both and resumes every player; LOSS and LOSS_TRANSIENT pause with only `resumeOnFocusGain` set; can-duck changes nothing; invariant kept |
| `SessionModel.Play` | app/src/main/java/com/github/ashutoshgngwr/noice/sound/player/PlayerManager.kt:180-203 | the key is present afterwards; a new Player, bound to the current factory, is created only if it was absent; delayed: PAUSED and nothing started; focus held: PLAYING and that player started with its tuning, identity and factory unchanged; else the focus outcome; exactly one notification on every path |
| `SessionModel.Stop` | app/src/main/java/com/github/ashutoshgngwr/noice/sound/player/PlayerManager.kt:209-221 | removes only that key (an absent key leaves the map unchanged); STOPPED if the map is then empty, state unchanged otherwise; focus flags unchanged; one notification |
| `SessionModel.StopAll` | app/src/main/java/com/github/ashutoshgngwr/noice/sound/player/PlayerManager.kt:226-232 | no players, STOPPED, focus flags unchanged, one notification |
| `SessionModel.SetVolume` | app/src/main/java/com/github/ashutoshgngwr/noice/sound/player/PlayerManager.kt:265-271 | an absent key changes nothing (no notification); a present key changes only that player's volume |
| `SessionModel.SetTimePeriod` | app/src/main/java/com/github/ashutoshgngwr/noice/sound/player/PlayerManager.kt:278-284 | an absent key changes nothing (no notification); a present key changes only that player's time period |
| `SessionModel.PresetKeys` | app/src/main/java/com/github/ashutoshgngwr/noice/sound/player/PlayerManager.kt:320 | the set holds exactly the sound keys of the preset's entries |
| `SessionModel.LastEntry` | app/src/main/java/com/github/ashutoshgngwr/noice/sound/player/PlayerManager.kt:325-336 | the entry for a key that no later entry overrides |
| `SessionModel.Retain` | app/src/main/java/com/github/ashutoshgngwr/noice/sound/player/PlayerManager.kt:319-322 | keeps exactly the players whose keys the preset names, each unchanged; state, flags, notifications, factory and counter untouched; invariant kept |
| `SessionModel.ApplyEntry` | app/src/main/java/com/github/ashutoshgngwr/noice/sound/player/PlayerManager.kt:326-335 | loading one entry keeps the invariant |
| `SessionModel.ApplyEntries` | app/src/main/java/com/github/ashutoshgngwr/noice/sound/player/PlayerManager.kt:325-336 | only the map and identity counter change; the keys become the old keys plus the preset's |
| `SessionModel.ApplyEntriesUntouched` | app/src/main/java/com/github/ashutoshgngwr/noice/sound/player/PlayerManager.kt:325-336 | a player whose key the preset does not name is untouched |
| `SessionModel.ApplyEntriesTuning` | app/src/main/java/com/github/ashutoshgngwr/noice/sound/player/PlayerManager.kt:334-335 | a named key ends with the volume and time period of its last entry |
| `SessionModel.ApplyEntriesKeepsIdentity` | app/src/main/java/com/github/ashutoshgngwr/noice/sound/player/PlayerManager.kt:327-328 | a player already present stays the same instance, run state and factory |
| `SessionModel.ApplyEntriesCreates` | app/src/main/java/com/github/ashutoshgngwr/noice/sound/player/PlayerManager.kt:329-332 | a player not present is new: idle, on the current factory, with an unused identity |
| `SessionModel.ApplyEntriesNoCreation` | app/src/main/java/com/github/ashutoshgngwr/noice/sound/player/PlayerManager.kt:327-332 | a preset naming only present keys creates no player |
| `SessionModel.ApplyEntriesKeepsInv` | app/src/main/java/com/github/ashutoshgngwr/noice/sound/player/PlayerManager.kt:325-336 | loading every entry keeps the invariant |
| `SessionModel.ApplyEntriesContents` | app/src/main/java/com/github/ashutoshgngwr/noice/sound/player/PlayerManager.kt:325-336 | the four facts above for every key at once |
| `SessionModel.PlayPreset` | app/src/main/java/com/github/ashutoshgngwr/noice/sound/player/PlayerManager.kt:318-340 | afterwards the key set equals the preset's key set; the factory is unchanged; invariant kept |
| `SessionModel.PlayPresetContents` | app/src/main/java/com/github/ashutoshgngwr/noice/sound/player/PlayerManager.kt:318-336 | keys kept keep their Player instance; new keys get new instances; each player has its last entry's volume and time period |
| `SessionModel.PlayPresetNotifies` | app/src/main/java/com/github/ashutoshgngwr/noice/sound/player/PlayerManager.kt:312-340 | with focus held: exactly one notification and PLAYING with every player started, whatever the sizes; with a delayed request: one; on the request path: two |
| `SessionModel.UpdatePlaybackStrategies` | app/src/main/java/com/github/ashutoshgngwr/noice/sound/player/PlayerManager.kt:290-292 | every player is bound to the current factory; keys, tuning and run states unchanged |
| `SessionModel.OnSessionBegin` | app/src/main/java/com/github/ashutoshgngwr/noice/sound/player/PlayerManager.kt:89-94 | a new cast factory, every player rebound to it; keys, tuning, run states, state, flags and notifications unchanged |
| `SessionModel.OnSessionEnd` | app/src/main/java/com/github/ashutoshgngwr/noice/sound/player/PlayerManager.kt:96-106 | on the local route nothing changes; otherwise a new local factory with every player rebound and nothing else changed |
| `SessionModel.Cleanup` | app/src/main/java/com/github/ashutoshgngwr/noice/sound/player/PlayerManager.kt:297-301 | no players, STOPPED, released, one notification |
| `Manager.PlayerManager.constructor` | app/src/main/java/com/github/ashutoshgngwr/noice/sound/player/PlayerManager.kt:37-61 | the fields start as `SessionModel.Initial` |
| `Manager.PlayerManager.NotifyChanges` | app/src/main/java/com/github/ashutoshgngwr/noice/sound/player/PlayerManager.kt:342-366 | the notification count goes up by one and nothing else changes |
| `Manager.PlayerManager.SetRunAll` | app/src/main/java/com/github/ashutoshgngwr/noice/sound/player/PlayerManager.kt:251 | the loop over the players sets every run state and changes nothing else |
| `Manager.PlayerManager.Pause` | app/src/main/java/com/github/ashutoshgngwr/noice/sound/player/PlayerManager.kt:238-243 | reaches `SessionModel.Pause` of the old state; invariant kept |
| `Manager.PlayerManager.Resume` | app/src/main/java/com/github/ashutoshgngwr/noice/sound/player/PlayerManager.kt:248-258 | reaches `SessionModel.Resume`; terminates because a nested call runs with focus held |
| `Manager.PlayerManager.RequestAudioFocus` | app/src/main/java/com/github/ashutoshgngwr/noice/sound/player/PlayerManager.kt:144-173 | reaches `SessionModel.RequestAudioFocus`; invariant kept |
| `Manager.PlayerManager.OnAudioFocusChange` | app/src/main/java/com/github/ashutoshgngwr/noice/sound/player/PlayerManager.kt:114-141 | reaches `SessionModel.OnAudioFocusChange`; invariant kept |
| `Manager.PlayerManager.Play` | app/src/main/java/com/github/ashutoshgngwr/noice/sound/player/PlayerManager.kt:180-203 | reaches `SessionModel.Play`; invariant kept |
| `Manager.PlayerManager.Stop` | app/src/main/java/com/github/ashutoshgngwr/noice/sound/player/PlayerManager.kt:209-221 | reaches `SessionModel.Stop`, removing the player under its own sound key |
| `Manager.PlayerManager.StopAll` | app/src/main/java/com/github/ashutoshgngwr/noice/sound/player/PlayerManager.kt:226-232 | reaches `SessionModel.StopAll` |
| `Manager.PlayerManager.SetVolume` | app/src/main/java/com/github/ashutoshgngwr/noice/sound/player/PlayerManager.kt:265-271 | reaches `SessionModel.SetVolume` |
| `Manager.PlayerManager.SetTimePeriod` | app/src/main/java/com/github/ashutoshgngwr/noice/sound/player/PlayerManager.kt:278-284 | reaches `SessionModel.SetTimePeriod` |
| `Manager.PlayerManager.PlayPreset` | app/src/main/java/com/github/ashutoshgngwr/noice/sound/player/PlayerManager.kt:318-340 | reaches `SessionModel.PlayPreset` |
| `Manager.PlayerManager.DropPlayersNotIn` | app/src/main/java/com/github/ashutoshgngwr/noice/sound/player/PlayerManager.kt:319-322 | the first loop leaves exactly the players the preset names |
| `Manager.PlayerManager.LoadEntries` | app/src/main/java/com/github/ashutoshgngwr/noice/sound/player/PlayerManager.kt:325-336 | the second loop reaches `SessionModel.ApplyEntries`; invariant kept |
| `Manager.PlayerManager.LoadEntry` | app/src/main/java/com/github/ashutoshgngwr/noice/sound/player/PlayerManager.kt:326-335 | one pass of that loop reaches `SessionModel.ApplyEntry` |
| `Manager.PlayerManager.UpdatePlaybackStrategies` | app/src/main/java/com/github/ashutoshgngwr/noice/sound/player/PlayerManager.kt:290-292 | the loop reaches `SessionModel.UpdatePlaybackStrategies` |
| `Manager.PlayerManager.OnSessionBegin` | app/src/main/java/com/github/ashutoshgngwr/noice/sound/player/PlayerManager.kt:89-94 | reaches `SessionModel.OnSessionBegin` |
| `Manager.PlayerManager.OnSessionEnd` | app/src/main/java/com/github/ashutoshgngwr/noice/sound/player/PlayerManager.kt:96-106 | reaches `SessionModel.OnSessionEnd` |
| `Manager.PlayerManager.Cleanup` | app/src/main/java/com/github/ashutoshgngwr/noice/sound/player/PlayerManager.kt:297-301 | reaches `SessionModel.Cleanup` |
| `SessionProperties.PauseThenResume` | app/src/main/java/com/github/ashutoshgngwr/noice/sound/player/PlayerManager.kt:238-258 | pause then resume with focus held: PLAYING over the same players, every volume and time period unchanged, flags unchanged |
| `SessionProperties.LossesAgree` | app/src/main/java/com/github/ashutoshgngwr/noice/sound/player/PlayerManager.kt:126-139 | LOSS and LOSS_TRANSIENT give the same session |
| `SessionProperties.LossThenGain` | app/src/main/java/com/github/ashutoshgngwr/noice/sound/player/PlayerManager.kt:114-141 | a loss then a gain: PLAYING over the same players, none re-created or retuned, two notifications |
| `SessionProperties.BeginThenEnd` | app/src/main/java/com/github/ashutoshgngwr/noice/sound/player/PlayerManager.kt:88-107 | cast begin then end: back on a local factory with the same keys, tuning and run states |
| `SessionProperties.GainAfterStop` | app/src/main/java/com/github/ashutoshgngwr/noice/sound/player/PlayerManager.kt:114-124 | a gain after stop() with a pending resume ends PLAYING with no players |
| `SessionProperties.StoppedWithPlayers` | app/src/main/java/com/github/ashutoshgngwr/noice/sound/player/PlayerManager.kt:180-258 | play with a delayed answer, stop(), then playPreset leaves the manager STOPPED, holding the preset's player, with the delayed request still outstanding |
| `SessionProperties.SessionEndTwice` | app/src/main/java/com/github/ashutoshgngwr/noice/sound/player/PlayerManager.kt:96-106 | a repeated session end changes nothing |
| `SessionProperties.PresetTwice` | app/src/main/java/com/github/ashutoshgngwr/noice/sound/player/PlayerManager.kt:318-340 | loading the same preset twice keeps the keys, instances and tuning, and creates nothing |
| `SessionProperties.RunKeepsInv` | app/src/main/java/com/github/ashutoshgngwr/noice/sound/player/PlayerManager.kt:114-340 | any sequence of calls keeps the invariant |
| `SessionProperties.Reachable` | app/src/main/java/com/github/ashutoshgngwr/noice/sound/player/PlayerManager.kt:37-45 | every reachable session has at most one focus flag set, every player under its own key and on the current factory, and no player twice |
| `SessionProperties.SettledRun` | app/src/main/java/com/github/ashutoshgngwr/noice/sound/player/PlayerManager.kt:180-232 | granted plays and stops keep "STOPPED exactly when empty, else PLAYING, no delayed request" |
| `SessionProperties.GrantedPlayStop` | app/src/main/java/com/github/ashutoshgngwr/noice/sound/player/PlayerManager.kt:180-232 | from a new manager, with focus always granted, any run of play and stop calls is STOPPED exactly when no player is left, and PLAYING otherwise |

## Left out

- Android platform objects: `AudioManagerCompat`, `AudioAttributesCompat`, `AudioFocusRequestCompat`, `Handler`, `MediaSessionCompat`, `MediaRouter`, `Log`. The focus-request answer and focus changes are inputs. Abandoning focus has no effect on the model state.
- The `PlaybackStateCompat` contents that `notifyChanges` publishes, including the playback speeds. Only the count of calls is kept.
- `setOnPlayerUpdateListener`: the listener is not modelled. The notification count stands for its invocations.
- `CastAPIWrapper` internals, `newCastPlaybackStrategyFactory`, `newCastVolumeProvider`, and the media session's switch between local and remote playback. A factory is a route plus an identity.
- `Sound.get`, `Sound.LIBRARY` and the internals of `Player` and the playback strategies. Player.kt and Sound.kt are not part of this model. A new Player's tuning comes from the `SoundLibrary` parameter. An unknown sound key, which `Sound.get` would reject, is not modelled.
- Update in place and aliasing of Player objects: a Player is a value. Where the Kotlin code mutates the Player object held in the map, the model stores the updated record back. Instance identity is kept as the `id` field.
- `Player.setVolume` stores the volume as given. Any range check inside Player.kt is outside this model.
- The order in which `HashMap` iterates: the loops take keys in an unspecified order, and no result depends on it.
- Kotlin `Int` width of volume and time period: they are unbounded integers here. The manager does no arithmetic on them, so no wrap-around can arise.
- Cleanup's release of the media session and the cast callbacks is recorded as the `released` flag. Calls after cleanup are not ruled out, as the source does not rule them out either.
- Threading and callback dispatch: all calls are sequential.
- app/src/main/java/com/github/ashutoshgngwr/noice/fragment/HomeFragment.kt: UI code, not part of this model.
