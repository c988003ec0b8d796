/**
 * The playback session manager of PlayerManager.kt, as values.
 *
 * A `Session` is everything the manager owns: the top-level state, the three
 * audio-focus flags, the map from sound key to Player, the current
 * playback-strategy factory and a count of change notifications. Every
 * operation of the manager is a function from the session before the call to
 * the session after it; the class in manager.dfy is proved to follow them.
 *
 * Platform inputs are parameters: the answer the audio-focus broker gives to a
 * request (`FocusOutcome`), a focus-change event (`FocusChange`) and the
 * default tuning a new Player takes from its sound (`SoundLibrary`).
 */
module SessionModel {

  type SoundKey = string

  /** PlayerManager.State */
  datatype State = Playing | Paused | Stopped

  /** Where a playback-strategy factory sends audio. */
  datatype Route = Local | Cast

  /**
   * A playback-strategy factory. The source builds a fresh factory object on
   * every route change, so a factory is its route plus an identity.
   */
  datatype Factory = Factory(route: Route, id: nat)

  /** What a Player is doing: never started, started by play(), or halted by pause(). */
  datatype RunState = Idle | Running | Suspended

  /**
   * A Player, abstracted to its sound, its identity (which instance it is),
   * its volume and time period, its run state and the factory it is bound to.
   */
  datatype Player = Player(sound: SoundKey, id: nat, volume: int, timePeriod: int, run: RunState, factory: Factory)

  /** The volume and time period a freshly created Player starts with. */
  datatype Tuning = Tuning(volume: int, timePeriod: int)

  /** Sound.get followed by the Player constructor's defaults. */
  type SoundLibrary = SoundKey -> Tuning

  /** Preset.PlayerState */
  datatype PresetEntry = PresetEntry(sound: SoundKey, volume: int, timePeriod: int)

  /** The three results of AudioManagerCompat.requestAudioFocus. */
  datatype FocusOutcome = Granted | Delayed | Failed

  /**
   * The focus changes the platform reports. LossTransientCanDuck has no branch
   * in onAudioFocusChange and so changes nothing.
   */
  datatype FocusChange = Gain | Loss | LossTransient | LossTransientCanDuck

  datatype Session = Session(
    state: State,
    hasAudioFocus: bool,
    playbackDelayed: bool,
    resumeOnFocusGain: bool,
    players: map<SoundKey, Player>,
    factory: Factory,
    notifications: nat,  // how many times notifyChanges has run
    nextId: nat,         // identity for the next Player or factory created
    released: bool)      // the media session is released and cast callbacks are cleared

  // ---------------------------------------------------------------------------
  // Invariants

  /** At most one of the three focus flags is set. */
  ghost predicate AtMostOneFlag(s: Session)
  {
    && (s.hasAudioFocus ==> !s.playbackDelayed && !s.resumeOnFocusGain)
    && !(s.playbackDelayed && s.resumeOnFocusGain)
  }

  /**
   * Each Player sits under its own sound key, is bound to the current factory
   * and has an identity handed out before.
   */
  ghost predicate WellKeyed(s: Session)
  {
    forall k :: k in s.players ==>
      && s.players[k].sound == k
      && s.players[k].factory == s.factory
      && s.players[k].id < s.nextId
  }

  /** No Player instance is held under two keys. */
  ghost predicate DistinctIds(m: map<SoundKey, Player>)
  {
    forall j, k :: j in m && k in m && j != k ==> m[j].id != m[k].id
  }

  ghost predicate Inv(s: Session)
  {
    AtMostOneFlag(s) && WellKeyed(s) && DistinctIds(s.players) && s.factory.id < s.nextId
  }

  /** The focus flags of `s` and `r` agree. */
  ghost predicate SameFlags(s: Session, r: Session)
  {
    && r.hasAudioFocus == s.hasAudioFocus
    && r.playbackDelayed == s.playbackDelayed
    && r.resumeOnFocusGain == s.resumeOnFocusGain
  }

  /** The factory, the identity counter and the released flag agree. */
  ghost predicate SameFrame(s: Session, r: Session)
  {
    r.factory == s.factory && r.nextId == s.nextId && r.released == s.released
  }

  // ---------------------------------------------------------------------------
  // Helpers

  /** A new manager: stopped, no players, local route, no focus. */
  function Initial(): (s: Session)
    ensures Inv(s) && s.state == Stopped && s.players == map[] && s.factory.route == Local
    ensures !s.hasAudioFocus && !s.playbackDelayed && !s.resumeOnFocusGain
  {
    Session(Stopped, false, false, false, map[], Factory(Local, 0), 0, 1, false)
  }

  /** notifyChanges: publishes the state; only the count is kept. */
  function NotifyChanges(s: Session): Session
  {
    s.(notifications := s.notifications + 1)
  }

  /** Every player after `players.values.forEach { it.play() }` (or pause). */
  function SetRun(m: map<SoundKey, Player>, run: RunState): map<SoundKey, Player>
  {
    map k | k in m :: m[k].(run := run)
  }

  /** Every player after `updatePlaybackStrategy(factory)`: run state and tuning are kept. */
  function Rebind(m: map<SoundKey, Player>, f: Factory): map<SoundKey, Player>
  {
    map k | k in m :: m[k].(factory := f)
  }

  function NewPlayer(k: SoundKey, f: Factory, id: nat, library: SoundLibrary): Player
  {
    Player(k, id, library(k).volume, library(k).timePeriod, Idle, f)
  }

  /** The first step of play: a Player for `k` exists afterwards. */
  function Admit(s: Session, k: SoundKey, library: SoundLibrary): (r: Session)
    ensures Inv(s) ==> Inv(r)
  {
    if k in s.players then s
    else s.(players := s.players[k := NewPlayer(k, s.factory, s.nextId, library)], nextId := s.nextId + 1)
  }

  // ---------------------------------------------------------------------------
  // Pause, stop and the focus negotiation

  /** pause(): all players halted, state PAUSED, focus abandoned with the platform only. */
  function Pause(s: Session): (r: Session)
    ensures r.state == Paused
    ensures r.players.Keys == s.players.Keys
    ensures forall k :: k in s.players ==> r.players[k] == s.players[k].(run := Suspended)
    ensures SameFlags(s, r) && SameFrame(s, r)
    ensures r.notifications == s.notifications + 1
    ensures Inv(s) ==> Inv(r)
  {
    NotifyChanges(s.(state := Paused, players := SetRun(s.players, Suspended)))
  }

  /**
   * The session once a focus request made from `s` has been answered with
   * `answer`, the pause or resume the answer triggers included.
   */
  ghost predicate FocusResolved(s: Session, r: Session, answer: FocusOutcome)
  {
    match answer
    case Granted =>
      && r.state == Playing && r.hasAudioFocus && !r.playbackDelayed && !r.resumeOnFocusGain
      && r.players == SetRun(s.players, Running)
    case Delayed =>
      && r.state == Paused && !r.hasAudioFocus && r.playbackDelayed && !r.resumeOnFocusGain
      && r.players == SetRun(s.players, Suspended)
    case Failed =>
      && r.state == Paused && !r.hasAudioFocus && !r.playbackDelayed && !r.resumeOnFocusGain
      && r.players == SetRun(s.players, Suspended)
  }

  /**
   * resume(): with focus, start every player; without focus and with no
   * delayed request outstanding, request focus; notify in every case.
   * On the request path the answer's own pause or resume notifies too.
   */
  function Resume(s: Session, answer: FocusOutcome): (r: Session)
    ensures SameFrame(s, r) && r.players.Keys == s.players.Keys
    ensures forall k :: k in s.players ==> r.players[k].(run := s.players[k].run) == s.players[k]
    ensures s.hasAudioFocus ==>
      && r.state == Playing && r.players == SetRun(s.players, Running)
      && SameFlags(s, r) && r.notifications == s.notifications + 1
    ensures !s.hasAudioFocus && s.playbackDelayed ==>
      r.(notifications := s.notifications) == s && r.notifications == s.notifications + 1
    ensures !s.hasAudioFocus && !s.playbackDelayed ==>
      FocusResolved(s, r, answer) && r.notifications == s.notifications + 2
    ensures Inv(s) ==> Inv(r)
    decreases if s.hasAudioFocus then 0 else 1, 1
  {
    var s' :=
      if s.hasAudioFocus then s.(state := Playing, players := SetRun(s.players, Running))
      else if !s.playbackDelayed then RequestAudioFocus(s, answer)
      else s;
    NotifyChanges(s')
  }

  /**
   * requestAudioFocus(): nothing while focus is held; otherwise the answer
   * sets exactly one flag (or none, on failure) and pauses or resumes.
   */
  function RequestAudioFocus(s: Session, answer: FocusOutcome): (r: Session)
    ensures SameFrame(s, r) && r.players.Keys == s.players.Keys
    ensures forall k :: k in s.players ==> r.players[k].(run := s.players[k].run) == s.players[k]
    ensures s.hasAudioFocus ==> r == s
    ensures !s.hasAudioFocus ==> FocusResolved(s, r, answer) && r.notifications == s.notifications + 1
    ensures Inv(s) ==> Inv(r)
    decreases if s.hasAudioFocus then 0 else 1, 0
  {
    if s.hasAudioFocus then s
    else match answer
      case Delayed =>
        Pause(s.(playbackDelayed := true, hasAudioFocus := false, resumeOnFocusGain := false))
      case Failed =>
        Pause(s.(hasAudioFocus := false, playbackDelayed := false, resumeOnFocusGain := false))
      case Granted =>
        Resume(s.(hasAudioFocus := true, playbackDelayed := false, resumeOnFocusGain := false), answer)
  }

  /**
   * onAudioFocusChange: GAIN takes focus and resumes if a delayed request or
   * a loss was pending; both losses pause and mark resume-on-gain.
   */
  function OnAudioFocusChange(s: Session, change: FocusChange): (r: Session)
    ensures change == Gain ==> r.hasAudioFocus
    ensures change == Gain && (s.playbackDelayed || s.resumeOnFocusGain) ==>
      && r.state == Playing && !r.playbackDelayed && !r.resumeOnFocusGain
      && r.players == SetRun(s.players, Running) && r.notifications == s.notifications + 1
    ensures change == Gain && !s.playbackDelayed && !s.resumeOnFocusGain ==>
      r.(hasAudioFocus := s.hasAudioFocus) == s
    ensures change == Loss || change == LossTransient ==>
      && r.state == Paused && !r.hasAudioFocus && !r.playbackDelayed && r.resumeOnFocusGain
      && r.players == SetRun(s.players, Suspended) && r.notifications == s.notifications + 1
    ensures change == LossTransientCanDuck ==> r == s
    ensures SameFrame(s, r)
    ensures Inv(s) ==> Inv(r)
  {
    match change
    case Gain =>
      var g := s.(hasAudioFocus := true);
      if g.playbackDelayed || g.resumeOnFocusGain then
        // focus is held, so resume makes no request and never reads the answer
        Resume(g.(playbackDelayed := false, resumeOnFocusGain := false), Granted)
      else g
    case Loss =>
      Pause(s.(hasAudioFocus := false, resumeOnFocusGain := true, playbackDelayed := false))
    case LossTransient =>
      Pause(s.(hasAudioFocus := false, resumeOnFocusGain := true, playbackDelayed := false))
    case LossTransientCanDuck => s
  }

  // ---------------------------------------------------------------------------
  // User intents

  /**
   * play(soundKey): a Player exists for the key afterwards (a new one, bound
   * to the current factory, only if none was there); then either the delayed
   * request keeps it paused, or focus is requested, or it starts. Exactly one
   * notification on every path.
   */
  function Play(s: Session, soundKey: SoundKey, answer: FocusOutcome, library: SoundLibrary): (r: Session)
    ensures r.players.Keys == s.players.Keys + {soundKey}
    ensures soundKey in s.players ==>
      r.players[soundKey].id == s.players[soundKey].id && r.nextId == s.nextId
    ensures soundKey !in s.players ==>
      && r.players[soundKey].sound == soundKey
      && r.players[soundKey].id == s.nextId && r.nextId == s.nextId + 1
      && r.players[soundKey].factory == s.factory
      && r.players[soundKey].volume == library(soundKey).volume
      && r.players[soundKey].timePeriod == library(soundKey).timePeriod
    ensures r.notifications == s.notifications + 1
    ensures s.playbackDelayed ==>
      && r.state == Paused && SameFlags(s, r)
      && (forall k :: k in s.players ==> r.players[k] == s.players[k])
      && (soundKey !in s.players ==> r.players[soundKey].run == Idle)
    ensures !s.playbackDelayed && s.hasAudioFocus ==>
      && r.state == Playing && SameFlags(s, r)
      && r.players[soundKey].run == Running
      && (soundKey in s.players ==> r.players[soundKey] == s.players[soundKey].(run := Running))
      && (forall k :: k in s.players && k != soundKey ==> r.players[k] == s.players[k])
    ensures !s.playbackDelayed && !s.hasAudioFocus ==>
      FocusResolved(Admit(s, soundKey, library), r, answer)
    ensures r.factory == s.factory && r.released == s.released
    ensures Inv(s) ==> Inv(r)
  {
    var a := Admit(s, soundKey, library);
    if a.playbackDelayed then NotifyChanges(a.(state := Paused))
    else if !a.hasAudioFocus then RequestAudioFocus(a, answer)
    else
      NotifyChanges(a.(state := Playing,
                       players := a.players[soundKey := a.players[soundKey].(run := Running)]))
  }

  /**
   * stop(soundKey): only that key's Player goes (an absent key changes no
   * player); an empty map means STOPPED. The focus flags are left as they are.
   */
  function Stop(s: Session, soundKey: SoundKey): (r: Session)
    ensures r.players.Keys == s.players.Keys - {soundKey}
    ensures forall k :: k in r.players ==> r.players[k] == s.players[k]
    ensures soundKey !in s.players ==> r.players == s.players
    ensures r.state == (if r.players == map[] then Stopped else s.state)
    ensures SameFlags(s, r) && SameFrame(s, r)
    ensures r.notifications == s.notifications + 1
    ensures Inv(s) ==> Inv(r)
  {
    var m := s.players - {soundKey};
    var s' := s.(players := m);
    RemovalKeepsInv(s, soundKey);
    NotifyChanges(if m == map[] then s'.(state := Stopped) else s')
  }

  /** Dropping one key keeps the invariant. */
  lemma RemovalKeepsInv(s: Session, k: SoundKey)
    ensures Inv(s) ==> Inv(s.(players := s.players - {k}))
  {
  }

  /** stop(): no players, STOPPED, one notification; the focus flags are left as they are. */
  function StopAll(s: Session): (r: Session)
    ensures r.players == map[] && r.state == Stopped
    ensures SameFlags(s, r) && SameFrame(s, r)
    ensures r.notifications == s.notifications + 1
    ensures Inv(s) ==> Inv(r)
  {
    NotifyChanges(s.(state := Stopped, players := map[]))
  }

  /** setVolume: only that key's volume changes; an absent key changes nothing. */
  function SetVolume(s: Session, soundKey: SoundKey, volume: int): (r: Session)
    ensures r.(players := s.players) == s
    ensures r.players.Keys == s.players.Keys
    ensures forall k :: k in s.players && k != soundKey ==> r.players[k] == s.players[k]
    ensures soundKey in s.players ==>
      r.players[soundKey].volume == volume
      && r.players[soundKey].(volume := s.players[soundKey].volume) == s.players[soundKey]
    ensures soundKey !in s.players ==> r == s
    ensures Inv(s) ==> Inv(r)
  {
    if soundKey !in s.players then s
    else s.(players := s.players[soundKey := s.players[soundKey].(volume := volume)])
  }

  /** setTimePeriod: only that key's time period changes; an absent key changes nothing. */
  function SetTimePeriod(s: Session, soundKey: SoundKey, timePeriod: int): (r: Session)
    ensures r.(players := s.players) == s
    ensures r.players.Keys == s.players.Keys
    ensures forall k :: k in s.players && k != soundKey ==> r.players[k] == s.players[k]
    ensures soundKey in s.players ==>
      r.players[soundKey].timePeriod == timePeriod
      && r.players[soundKey].(timePeriod := s.players[soundKey].timePeriod) == s.players[soundKey]
    ensures soundKey !in s.players ==> r == s
    ensures Inv(s) ==> Inv(r)
  {
    if soundKey !in s.players then s
    else s.(players := s.players[soundKey := s.players[soundKey].(timePeriod := timePeriod)])
  }

  // ---------------------------------------------------------------------------
  // Presets

  /** The sound keys a preset names. */
  function PresetKeys(preset: seq<PresetEntry>): (ks: set<SoundKey>)
    ensures forall i :: 0 <= i < |preset| ==> preset[i].sound in ks
    ensures forall k :: k in ks ==> exists i :: 0 <= i < |preset| && preset[i].sound == k
    decreases |preset|
  {
    if preset == [] then {} else {preset[0].sound} + PresetKeys(preset[1..])
  }

  /** The last entry of the preset for key `k`: the one whose tuning wins. */
  function LastEntry(preset: seq<PresetEntry>, k: SoundKey): (e: PresetEntry)
    requires k in PresetKeys(preset)
    ensures e.sound == k
    ensures exists i ::
      (0 <= i < |preset| && preset[i] == e && forall j :: i < j < |preset| ==> preset[j].sound != k)
    decreases |preset|
  {
    if k in PresetKeys(preset[1..]) then
      var e := LastEntry(preset[1..], k);
      var i :| 0 <= i < |preset[1..]| && preset[1..][i] == e
        && forall j :: i < j < |preset[1..]| ==> preset[1..][j].sound != k;
      assert preset[i + 1] == e;
      e
    else
      assert forall j :: 0 < j < |preset| ==> preset[j] == preset[1..][j - 1];
      preset[0]
  }

  /** The players kept by the first step of playPreset: those the preset names. */
  function Retain(s: Session, keys: set<SoundKey>): (r: Session)
    ensures r.players.Keys == s.players.Keys * keys
    ensures forall k :: k in r.players ==> r.players[k] == s.players[k]
    ensures r.(players := s.players) == s
    ensures Inv(s) ==> Inv(r)
  {
    s.(players := map k | k in s.players && k in keys :: s.players[k])
  }

  /** One preset entry: reuse or create the Player, then set its time period and volume. */
  function ApplyEntry(s: Session, e: PresetEntry, library: SoundLibrary): (r: Session)
    ensures Inv(s) ==> Inv(r)
  {
    var created := e.sound !in s.players;
    var p := if created then NewPlayer(e.sound, s.factory, s.nextId, library) else s.players[e.sound];
    s.(players := s.players[e.sound := p.(timePeriod := e.timePeriod, volume := e.volume)],
       nextId := if created then s.nextId + 1 else s.nextId)
  }

  /** The second step of playPreset: every entry applied in order. */
  function ApplyEntries(s: Session, preset: seq<PresetEntry>, library: SoundLibrary): (r: Session)
    ensures r.(players := s.players, nextId := s.nextId) == s
    ensures r.players.Keys == s.players.Keys + PresetKeys(preset)
    ensures s.nextId <= r.nextId
    decreases |preset|
  {
    if preset == [] then s else ApplyEntries(ApplyEntry(s, preset[0], library), preset[1..], library)
  }

  /** Loading a preset keeps the invariant, entry by entry. */
  lemma {:induction false} ApplyEntriesKeepsInv(s: Session, preset: seq<PresetEntry>, library: SoundLibrary)
    ensures Inv(s) ==> Inv(ApplyEntries(s, preset, library))
    decreases |preset|
  {
    if preset != [] {
      ApplyEntriesKeepsInv(ApplyEntry(s, preset[0], library), preset[1..], library);
    }
  }

  /** Applying the entries from position `i` on is applying entry `i`, then the rest. */
  lemma ApplyEntriesFrom(s: Session, preset: seq<PresetEntry>, i: nat, library: SoundLibrary)
    requires i < |preset|
    ensures ApplyEntries(s, preset[i..], library)
            == ApplyEntries(ApplyEntry(s, preset[i], library), preset[i + 1..], library)
  {
  }

  /** A key the preset does not name keeps its player untouched. */
  lemma {:induction false} ApplyEntriesUntouched(s: Session, preset: seq<PresetEntry>, library: SoundLibrary, k: SoundKey)
    requires k in s.players && k !in PresetKeys(preset)
    ensures k in ApplyEntries(s, preset, library).players
    ensures ApplyEntries(s, preset, library).players[k] == s.players[k]
    decreases |preset|
  {
    if preset != [] {
      ApplyEntriesUntouched(ApplyEntry(s, preset[0], library), preset[1..], library, k);
    }
  }

  /** A key the preset names ends with the tuning of its last entry. */
  lemma {:induction false} ApplyEntriesTuning(s: Session, preset: seq<PresetEntry>, library: SoundLibrary, k: SoundKey)
    requires k in PresetKeys(preset)
    ensures k in ApplyEntries(s, preset, library).players
    ensures ApplyEntries(s, preset, library).players[k].volume == LastEntry(preset, k).volume
    ensures ApplyEntries(s, preset, library).players[k].timePeriod == LastEntry(preset, k).timePeriod
    decreases |preset|
  {
    var t := ApplyEntry(s, preset[0], library);
    if k in PresetKeys(preset[1..]) {
      ApplyEntriesTuning(t, preset[1..], library, k);
    } else {
      ApplyEntriesUntouched(t, preset[1..], library, k);
    }
  }

  /** A player that was already there stays the same instance, on the same factory, in the same run state. */
  lemma {:induction false} ApplyEntriesKeepsIdentity(s: Session, preset: seq<PresetEntry>, library: SoundLibrary, k: SoundKey)
    requires k in s.players
    ensures k in ApplyEntries(s, preset, library).players
    ensures ApplyEntries(s, preset, library).players[k].(volume := s.players[k].volume, timePeriod := s.players[k].timePeriod)
            == s.players[k]
    decreases |preset|
  {
    if preset != [] {
      ApplyEntriesKeepsIdentity(ApplyEntry(s, preset[0], library), preset[1..], library, k);
    }
  }

  /** A player that was not there is new: idle, on the current factory, with an identity not handed out before. */
  lemma {:induction false} ApplyEntriesCreates(s: Session, preset: seq<PresetEntry>, library: SoundLibrary, k: SoundKey)
    requires k in PresetKeys(preset) && k !in s.players
    ensures var r := ApplyEntries(s, preset, library);
      && k in r.players && r.players[k].sound == k && r.players[k].run == Idle
      && r.players[k].factory == s.factory && s.nextId <= r.players[k].id < r.nextId
    decreases |preset|
  {
    var t := ApplyEntry(s, preset[0], library);
    if k == preset[0].sound {
      ApplyEntriesKeepsIdentity(t, preset[1..], library, k);
    } else {
      ApplyEntriesCreates(t, preset[1..], library, k);
    }
  }

  /** A preset that names only keys already present creates no player. */
  lemma {:induction false} ApplyEntriesNoCreation(s: Session, preset: seq<PresetEntry>, library: SoundLibrary)
    requires PresetKeys(preset) <= s.players.Keys
    ensures ApplyEntries(s, preset, library).nextId == s.nextId
    decreases |preset|
  {
    if preset != [] {
      ApplyEntriesNoCreation(ApplyEntry(s, preset[0], library), preset[1..], library);
    }
  }

  /** The per-key facts above, for every key at once. */
  lemma ApplyEntriesContents(s: Session, preset: seq<PresetEntry>, library: SoundLibrary)
    ensures var r := ApplyEntries(s, preset, library);
      && (forall k :: k in PresetKeys(preset) ==>
            k in r.players
            && r.players[k].volume == LastEntry(preset, k).volume
            && r.players[k].timePeriod == LastEntry(preset, k).timePeriod)
      && (forall k :: k in s.players ==>
            k in r.players
            && r.players[k].(volume := s.players[k].volume, timePeriod := s.players[k].timePeriod) == s.players[k])
      && (forall k :: k in r.players && k !in s.players ==>
            r.players[k].sound == k && r.players[k].run == Idle
            && r.players[k].factory == s.factory && s.nextId <= r.players[k].id < r.nextId)
      && (PresetKeys(preset) <= s.players.Keys ==> r.nextId == s.nextId)
  {
    forall k | k in PresetKeys(preset) {
      ApplyEntriesTuning(s, preset, library, k);
    }
    forall k | k in s.players {
      ApplyEntriesKeepsIdentity(s, preset, library, k);
    }
    forall k | k in ApplyEntries(s, preset, library).players && k !in s.players {
      ApplyEntriesCreates(s, preset, library, k);
    }
    if PresetKeys(preset) <= s.players.Keys {
      ApplyEntriesNoCreation(s, preset, library);
    }
  }

  /**
   * playPreset: drop the players the preset does not name, apply every entry,
   * then resume once. Afterwards exactly the preset's keys have players.
   */
  function PlayPreset(s: Session, preset: seq<PresetEntry>, answer: FocusOutcome, library: SoundLibrary): (r: Session)
    ensures r.players.Keys == PresetKeys(preset)
    ensures r.factory == s.factory && r.released == s.released
    ensures Inv(s) ==> Inv(r)
  {
    var kept := Retain(s, PresetKeys(preset));
    ApplyEntriesKeepsInv(kept, preset, library);
    Resume(ApplyEntries(kept, preset, library), answer)
  }

  /**
   * What playPreset leaves in the map: players that stay are the same
   * instances, players that arrive are new, every player carries the tuning of
   * its last entry, and a preset naming only present keys creates nothing.
   */
  lemma PlayPresetContents(s: Session, preset: seq<PresetEntry>, answer: FocusOutcome, library: SoundLibrary)
    ensures var r := PlayPreset(s, preset, answer, library);
      && (forall k :: k in r.players ==>
            r.players[k].volume == LastEntry(preset, k).volume
            && r.players[k].timePeriod == LastEntry(preset, k).timePeriod)
      && (forall k :: k in r.players && k in s.players ==> r.players[k].id == s.players[k].id)
      && (forall k :: k in r.players && k !in s.players ==> s.nextId <= r.players[k].id)
      && (PresetKeys(preset) <= s.players.Keys ==> r.nextId == s.nextId)
  {
    var kept := Retain(s, PresetKeys(preset));
    var a := ApplyEntries(kept, preset, library);
    var r := Resume(a, answer);
    ApplyEntriesContents(kept, preset, library);
    forall k | k in r.players
      ensures r.players[k].volume == LastEntry(preset, k).volume
      ensures r.players[k].timePeriod == LastEntry(preset, k).timePeriod
    {
      assert r.players[k].(run := a.players[k].run) == a.players[k];
    }
    forall k | k in r.players && k in s.players
      ensures r.players[k].id == s.players[k].id
    {
      assert kept.players[k] == s.players[k];
      assert r.players[k].(run := a.players[k].run) == a.players[k];
    }
    forall k | k in r.players && k !in s.players
      ensures s.nextId <= r.players[k].id
    {
      assert r.players[k].(run := a.players[k].run) == a.players[k];
    }
  }

  /**
   * The notifications of playPreset: with focus held, exactly one and the
   * session ends PLAYING with every player started, whatever the preset's
   * size or the map's. Without focus the request path notifies twice.
   */
  lemma PlayPresetNotifies(s: Session, preset: seq<PresetEntry>, answer: FocusOutcome, library: SoundLibrary)
    ensures var r := PlayPreset(s, preset, answer, library);
      && (s.hasAudioFocus ==>
            && r.state == Playing && r.notifications == s.notifications + 1
            && (forall k :: k in r.players ==> r.players[k].run == Running))
      && (!s.hasAudioFocus && s.playbackDelayed ==>
            r.state == s.state && r.notifications == s.notifications + 1)
      && (!s.hasAudioFocus && !s.playbackDelayed ==> r.notifications == s.notifications + 2)
  {
  }

  // ---------------------------------------------------------------------------
  // Cast route and cleanup

  /** updatePlaybackStrategies: every player rebound to the current factory. */
  function UpdatePlaybackStrategies(s: Session): (r: Session)
    ensures r.(players := s.players) == s
    ensures r.players.Keys == s.players.Keys
    ensures forall k :: k in s.players ==> r.players[k] == s.players[k].(factory := s.factory)
  {
    s.(players := Rebind(s.players, s.factory))
  }

  /** onSessionBegin: a new cast factory, and every player rebound to it. */
  function OnSessionBegin(s: Session): (r: Session)
    ensures r.factory == Factory(Cast, s.nextId) && r.nextId == s.nextId + 1
    ensures r.players.Keys == s.players.Keys
    ensures forall k :: k in s.players ==> r.players[k] == s.players[k].(factory := r.factory)
    ensures r.state == s.state && SameFlags(s, r)
    ensures r.notifications == s.notifications && r.released == s.released
    ensures Inv(s) ==> Inv(r)
  {
    UpdatePlaybackStrategies(s.(factory := Factory(Cast, s.nextId), nextId := s.nextId + 1))
  }

  /**
   * onSessionEnd: back to a new local factory only when the current one is not
   * local; on the local route nothing happens.
   */
  function OnSessionEnd(s: Session): (r: Session)
    ensures s.factory.route == Local ==> r == s
    ensures s.factory.route != Local ==>
      && r.factory == Factory(Local, s.nextId) && r.nextId == s.nextId + 1
      && r.players.Keys == s.players.Keys
      && (forall k :: k in s.players ==> r.players[k] == s.players[k].(factory := r.factory))
      && r.state == s.state && SameFlags(s, r)
      && r.notifications == s.notifications && r.released == s.released
    ensures Inv(s) ==> Inv(r)
  {
    if s.factory.route == Local then s
    else UpdatePlaybackStrategies(s.(factory := Factory(Local, s.nextId), nextId := s.nextId + 1))
  }

  /** cleanup: stop everything, then release the media session and the cast callbacks. */
  function Cleanup(s: Session): (r: Session)
    ensures r.players == map[] && r.state == Stopped && r.released
    ensures SameFlags(s, r) && r.factory == s.factory
    ensures r.notifications == s.notifications + 1
    ensures Inv(s) ==> Inv(r)
  {
    StopAll(s).(released := true)
  }
}
