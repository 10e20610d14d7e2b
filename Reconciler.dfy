/**
 * The client reconciler of client/src/App.tsx as pure functions over one value
 * of the client's state. The YouTube player is reduced to its position and
 * whether it plays; `seekTo`, `playVideo` and `pauseVideo` set those. Timers
 * are explicit events: `Settle` is the 500 ms timeout that clears the
 * suppression flag, `BootstrapFire` the 1000 ms timeout of the `sessionState`
 * handler, `SeekTick` and `ReportTick` one run of the 500 ms seek detector and
 * of the 2 s reporter. React state setters take effect at once; a change of
 * `isPlaying` re-runs the two effects that depend on it.
 */
module Reconciler {
  import opened Common
  import opened Protocol
  import opened VideoId

  /** What the client can see of the YouTube player. */
  datatype PlayerView = PlayerView(time: real, playing: bool)

  /** The data a pending 1000 ms bootstrap timeout holds. */
  datatype Bootstrap = Bootstrap(currentTime: real, isPlaying: bool)

  datatype Client = Client(
    videoUrl: string,                  // the URL text field
    videoId: Option<string>,
    isPlaying: bool,
    player: Option<PlayerView>,        // playerRef.current
    isSyncing: bool,                   // isSyncingRef.current
    pendingSettles: nat,               // 500 ms timeouts that will clear isSyncing
    pendingBootstraps: seq<Bootstrap>, // 1000 ms bootstrap timeouts, oldest first
    lastSyncTime: real,                // lastSyncTimeRef.current
    lastCheckedTime: real,             // the seek detector's reference sample
    detectorArmed: bool,               // whether the seek-detector interval exists
    reporterArmed: bool)               // whether the timeUpdate interval exists

  /** What one event does: the new state and the message sent to the server, if any. */
  datatype Reaction = Reaction(state: Client, sent: Option<ToServer>)

  const SettleDelay: int := 500
  const BootstrapDelay: int := 1000
  const SeekCheckInterval: int := 500
  const ReportInterval: int := 2000

  /** Inbound `play`/`pause` seek only when the player is further than this from the target. */
  const ActionSeekThreshold: real := 1.0
  /** `timeSync` seeks only when the player has drifted further than this. */
  const DriftSeekThreshold: real := 2.0
  /** While playing, a jump between two samples larger than this is a user seek. */
  const PlayingJumpThreshold: real := 2.5
  /** While paused, a move between two samples larger than this is a user seek. */
  const PausedJumpThreshold: real := 0.1

  /** The state right after mount: no video, no player, no intervals running. */
  function Mounted(): (c: Client)
    ensures c.videoId.None? && c.player.None? && !c.isSyncing && !c.isPlaying
    ensures !c.detectorArmed && !c.reporterArmed && c.pendingSettles == 0 && c.pendingBootstraps == []
  {
    Client("", None, false, None, false, 0, [], 0.0, 0.0, false, false)
  }

  /**
   * The invariant every reachable state keeps: the suppression flag is only up
   * while a timeout that clears it is pending, a player exists only once a video
   * id is shown, and the intervals run only with a player (the reporter only
   * while playing).
   */
  predicate Valid(c: Client)
  {
    && (c.isSyncing ==> c.pendingSettles > 0)
    && (c.player.Some? ==> c.videoId.Some?)
    && (c.detectorArmed ==> c.player.Some?)
    && (c.reporterArmed ==> c.player.Some? && c.isPlaying)
  }

  /**
   * `setIsPlaying(v)`. When the value changes, the two effects with dependency
   * `isPlaying` run again: the seek detector restarts from `lastSyncTime` if a
   * player exists, and the reporter runs only if a player exists and `v` holds.
   */
  function SetIsPlaying(c: Client, v: bool): (c': Client)
    ensures c'.isPlaying == v
    ensures v == c.isPlaying ==> c' == c
    ensures v != c.isPlaying ==>
      && c'.detectorArmed == c.player.Some? && c'.lastCheckedTime == c.lastSyncTime
      && c'.reporterArmed == (c.player.Some? && v)
    ensures c'.(isPlaying := c.isPlaying, detectorArmed := c.detectorArmed,
                lastCheckedTime := c.lastCheckedTime, reporterArmed := c.reporterArmed) == c
  {
    if v == c.isPlaying then c
    else c.(isPlaying := v, detectorArmed := c.player.Some?, lastCheckedTime := c.lastSyncTime,
            reporterArmed := c.player.Some? && v)
  }

  /**
   * The intervals of `c'` after `isPlaying` goes from `c.isPlaying` to `v`:
   * re-run from `lastSyncTime` on a change, untouched otherwise.
   */
  predicate EffectsFollow(c: Client, v: bool, c': Client)
  {
    if v != c.isPlaying then
      && c'.detectorArmed == c.player.Some? && c'.lastCheckedTime == c.lastSyncTime
      && c'.reporterArmed == (c.player.Some? && v)
    else
      && c'.detectorArmed == c.detectorArmed && c'.lastCheckedTime == c.lastCheckedTime
      && c'.reporterArmed == c.reporterArmed
  }

  /** Where an inbound `play` or `pause` leaves the player: at the target only if it was more than 1 s away. */
  function ActionSeek(time: real, target: real): (t: real)
    ensures Abs(t - target) <= ActionSeekThreshold
    ensures Abs(time - target) > ActionSeekThreshold ==> t == target
    ensures Abs(time - target) <= ActionSeekThreshold ==> t == time
  {
    if Abs(time - target) > 1.0 then target else time
  }

  // ---- inbound messages from the server ----

  /**
   * The `sessionState` handler. A snapshot whose URL is falsy or yields no id is
   * ignored; otherwise the video is shown, `isPlaying` follows the snapshot and a
   * 1000 ms bootstrap timeout holding the snapshot's position is scheduled.
   */
  function OnSessionState(c: Client, url: Option<string>, playing: bool, time: real): (r: Reaction)
    ensures r.sent == None
    ensures !TruthyUrl(url) || ExtractVideoId(url.value).None? ==> r.state == c
    ensures TruthyUrl(url) && ExtractVideoId(url.value).Some? ==>
      && r.state.videoId == ExtractVideoId(url.value) && r.state.videoUrl == url.value
      && r.state.isPlaying == playing
      && r.state.pendingBootstraps == c.pendingBootstraps + [Bootstrap(time, playing)]
      && EffectsFollow(c, playing, r.state)
      && r.state.(videoId := c.videoId, videoUrl := c.videoUrl, isPlaying := c.isPlaying,
                  pendingBootstraps := c.pendingBootstraps, detectorArmed := c.detectorArmed,
                  lastCheckedTime := c.lastCheckedTime, reporterArmed := c.reporterArmed) == c
  {
    if TruthyUrl(url) && ExtractVideoId(url.value).Some? then
      var c1 := SetIsPlaying(c.(videoId := ExtractVideoId(url.value), videoUrl := url.value), playing);
      Reaction(c1.(pendingBootstraps := c1.pendingBootstraps + [Bootstrap(time, playing)]), None)
    else
      Reaction(c, None)
  }

  /**
   * The oldest bootstrap timeout fires. With a player, it raises the flag,
   * seeks to the snapshot's position whatever the distance, plays or pauses as
   * the snapshot says, and schedules the clearing timeout; without one it does
   * nothing but expire. It does not look at the flag.
   */
  function BootstrapFire(c: Client): (r: Reaction)
    requires c.pendingBootstraps != []
    ensures r.sent == None
    ensures r.state.pendingBootstraps == c.pendingBootstraps[1..]
    ensures c.player.None? ==> r.state == c.(pendingBootstraps := c.pendingBootstraps[1..])
    ensures c.player.Some? ==>
      r.state == c.(pendingBootstraps := c.pendingBootstraps[1..], isSyncing := true,
                    pendingSettles := c.pendingSettles + 1,
                    player := Some(PlayerView(c.pendingBootstraps[0].currentTime, c.pendingBootstraps[0].isPlaying)))
    ensures r.state.isPlaying == c.isPlaying
  {
    var b := c.pendingBootstraps[0];
    var c0 := c.(pendingBootstraps := c.pendingBootstraps[1..]);
    if c.player.Some? then
      Reaction(c0.(isSyncing := true, player := Some(PlayerView(b.currentTime, b.isPlaying)),
                   pendingSettles := c.pendingSettles + 1), None)
    else
      Reaction(c0, None)
  }

  /** The `videoChanged` handler: a URL with an id is shown, paused; any other URL is ignored. The player is not commanded. */
  function OnVideoChanged(c: Client, url: string): (r: Reaction)
    ensures r.sent == None
    ensures ExtractVideoId(url).None? ==> r.state == c
    ensures ExtractVideoId(url).Some? ==>
      && r.state.videoId == ExtractVideoId(url) && r.state.videoUrl == url && !r.state.isPlaying
      && EffectsFollow(c, false, r.state)
      && r.state.(videoId := c.videoId, videoUrl := c.videoUrl, isPlaying := c.isPlaying,
                  detectorArmed := c.detectorArmed, lastCheckedTime := c.lastCheckedTime,
                  reporterArmed := c.reporterArmed) == c
  {
    match ExtractVideoId(url)
    case Some(id) => Reaction(SetIsPlaying(c.(videoId := Some(id), videoUrl := url), false), None)
    case None => Reaction(c, None)
  }

  /** Whether an inbound `play`, `pause` or `seek` is applied: there is a player and no correction is settling. */
  predicate Applies(c: Client)
  {
    c.player.Some? && !c.isSyncing
  }

  /**
   * The inbound `play` handler: when it applies it raises the flag, marks the
   * session playing, seeks only if the player is more than 1 s off, and plays.
   * Otherwise nothing at all changes.
   */
  function OnPlay(c: Client, target: real): (r: Reaction)
    ensures r.sent == None
    ensures !Applies(c) ==> r.state == c
    ensures Applies(c) ==>
      && r.state.isSyncing && r.state.pendingSettles == c.pendingSettles + 1 && r.state.isPlaying
      && r.state.player == Some(PlayerView(ActionSeek(c.player.value.time, target), true))
      && Abs(r.state.player.value.time - target) <= ActionSeekThreshold
      && EffectsFollow(c, true, r.state)
      && r.state.(isSyncing := c.isSyncing, pendingSettles := c.pendingSettles, isPlaying := c.isPlaying,
                  player := c.player, detectorArmed := c.detectorArmed,
                  lastCheckedTime := c.lastCheckedTime, reporterArmed := c.reporterArmed) == c
  {
    if Applies(c) then
      var c1 := SetIsPlaying(c.(isSyncing := true), true);
      var p := c.player.value;
      Reaction(c1.(player := Some(PlayerView(ActionSeek(p.time, target), true)),
                   pendingSettles := c.pendingSettles + 1), None)
    else
      Reaction(c, None)
  }

  /** The inbound `pause` handler: as `play`, marking the session paused and pausing the player. */
  function OnPause(c: Client, target: real): (r: Reaction)
    ensures r.sent == None
    ensures !Applies(c) ==> r.state == c
    ensures Applies(c) ==>
      && r.state.isSyncing && r.state.pendingSettles == c.pendingSettles + 1 && !r.state.isPlaying
      && r.state.player == Some(PlayerView(ActionSeek(c.player.value.time, target), false))
      && Abs(r.state.player.value.time - target) <= ActionSeekThreshold
      && EffectsFollow(c, false, r.state)
      && r.state.(isSyncing := c.isSyncing, pendingSettles := c.pendingSettles, isPlaying := c.isPlaying,
                  player := c.player, detectorArmed := c.detectorArmed,
                  lastCheckedTime := c.lastCheckedTime, reporterArmed := c.reporterArmed) == c
  {
    if Applies(c) then
      var c1 := SetIsPlaying(c.(isSyncing := true), false);
      var p := c.player.value;
      Reaction(c1.(player := Some(PlayerView(ActionSeek(p.time, target), false)),
                   pendingSettles := c.pendingSettles + 1), None)
    else
      Reaction(c, None)
  }

  /** The inbound `seek` handler: when it applies it raises the flag and seeks, however small the distance; it never plays or pauses. */
  function OnSeek(c: Client, target: real): (r: Reaction)
    ensures r.sent == None
    ensures !Applies(c) ==> r.state == c
    ensures Applies(c) ==>
      && r.state == c.(isSyncing := true, pendingSettles := c.pendingSettles + 1,
                       player := Some(c.player.value.(time := target)))
      && r.state.player.value.playing == c.player.value.playing
  {
    if Applies(c) then
      Reaction(c.(isSyncing := true, player := Some(c.player.value.(time := target)),
                  pendingSettles := c.pendingSettles + 1), None)
    else
      Reaction(c, None)
  }

  /**
   * The `timeSync` handler. `seenIsPlaying` is the `isPlaying` its closure sees.
   * It acts only with a player, no correction settling and `seenIsPlaying`; then
   * a drift of at most 2 s changes nothing, a larger one raises the flag and
   * seeks. It never plays or pauses.
   */
  function OnTimeSync(c: Client, target: real, seenIsPlaying: bool): (r: Reaction)
    ensures r.sent == None
    ensures !(Applies(c) && seenIsPlaying) ==> r.state == c
    ensures Applies(c) && seenIsPlaying && Abs(c.player.value.time - target) <= DriftSeekThreshold ==> r.state == c
    ensures Applies(c) && seenIsPlaying && Abs(c.player.value.time - target) > DriftSeekThreshold ==>
      r.state == c.(isSyncing := true, pendingSettles := c.pendingSettles + 1,
                    player := Some(c.player.value.(time := target)))
    ensures r.state.player.Some? ==> r.state.player.value.playing == c.player.value.playing
  {
    if Applies(c) && seenIsPlaying && Abs(c.player.value.time - target) > 2.0 then
      Reaction(c.(isSyncing := true, player := Some(c.player.value.(time := target)),
                  pendingSettles := c.pendingSettles + 1), None)
    else
      Reaction(c, None)
  }

  /** The oldest 500 ms timeout fires and clears the flag, whichever correction raised it. */
  function Settle(c: Client): (r: Reaction)
    requires c.pendingSettles > 0
    ensures r.sent == None
    ensures r.state == c.(isSyncing := false, pendingSettles := c.pendingSettles - 1)
  {
    Reaction(c.(isSyncing := false, pendingSettles := c.pendingSettles - 1), None)
  }

  // ---- local events ----

  /** `handleReady`: the player has mounted. */
  function Ready(c: Client, p: PlayerView): (r: Reaction)
    ensures r.sent == None
    ensures r.state == c.(player := Some(p))
  {
    Reaction(c.(player := Some(p)), None)
  }

  /** The URL field's `onChange`. */
  function EditUrl(c: Client, text: string): (r: Reaction)
    ensures r.sent == None
    ensures r.state == c.(videoUrl := text)
  {
    Reaction(c.(videoUrl := text), None)
  }

  /** `handleVideoSubmit`: a URL with an id is shown here and sent as `changeVideo`; any other is refused with nothing sent. */
  function Submit(c: Client): (r: Reaction)
    ensures ExtractVideoId(c.videoUrl).None? ==> r == Reaction(c, None)
    ensures ExtractVideoId(c.videoUrl).Some? ==>
      r == Reaction(c.(videoId := ExtractVideoId(c.videoUrl)), Some(ChangeVideo(c.videoUrl)))
  {
    match ExtractVideoId(c.videoUrl)
    case Some(id) => Reaction(c.(videoId := Some(id)), Some(ChangeVideo(c.videoUrl)))
    case None => Reaction(c, None)
  }

  /** `handlePlay`, the player's own play notification: unless a correction is settling, report the position and mark the session playing. */
  function PlayerPlayed(c: Client): (r: Reaction)
    ensures !Applies(c) ==> r == Reaction(c, None)
    ensures Applies(c) ==>
      r.sent == Some(ToServer.Play(c.player.value.time)) && r.state == SetIsPlaying(c, true)
  {
    if Applies(c) then Reaction(SetIsPlaying(c, true), Some(ToServer.Play(c.player.value.time)))
    else Reaction(c, None)
  }

  /** `handlePause`: as `handlePlay`, with `pause` and the session marked paused. */
  function PlayerPaused(c: Client): (r: Reaction)
    ensures !Applies(c) ==> r == Reaction(c, None)
    ensures Applies(c) ==>
      r.sent == Some(ToServer.Pause(c.player.value.time)) && r.state == SetIsPlaying(c, false)
  {
    if Applies(c) then Reaction(SetIsPlaying(c, false), Some(ToServer.Pause(c.player.value.time)))
    else Reaction(c, None)
  }

  /** `handleStateChange`: when the player reports PLAYING, the detector's shared reference takes its position. */
  function StateChange(c: Client, nowPlaying: bool): (r: Reaction)
    ensures r.sent == None
    ensures nowPlaying && c.player.Some? ==> r.state == c.(lastSyncTime := c.player.value.time)
    ensures !(nowPlaying && c.player.Some?) ==> r.state == c
  {
    if nowPlaying && c.player.Some? then Reaction(c.(lastSyncTime := c.player.value.time), None)
    else Reaction(c, None)
  }

  /** Whether a sample `t` differs from the reference `ref` enough to count as a user seek. */
  predicate IsJump(playing: bool, t: real, ref: real)
  {
    if playing then Abs(t - ref) > PlayingJumpThreshold else Abs(t - ref) > PausedJumpThreshold
  }

  /**
   * One run of the 500 ms seek detector. While a correction settles it does
   * nothing, not even move its reference. While playing it reports a jump of
   * more than 2.5 s as a seek and always moves the reference to the sample;
   * while paused it reports a move of more than 0.1 s and moves the reference
   * only then.
   */
  function SeekTick(c: Client): (r: Reaction)
    ensures !(c.detectorArmed && Applies(c)) ==> r == Reaction(c, None)
    ensures c.detectorArmed && Applies(c) ==>
      var t := c.player.value.time;
      && (r.sent.Some? <==> IsJump(c.isPlaying, t, c.lastCheckedTime))
      && (r.sent.Some? ==> r.sent == Some(ToServer.Seek(t)))
      && (c.isPlaying || r.sent.Some? ==> r.state == c.(lastCheckedTime := t, lastSyncTime := t))
      && (!c.isPlaying && r.sent.None? ==> r.state == c)
  {
    if c.detectorArmed && Applies(c) then
      var t := c.player.value.time;
      if c.isPlaying then
        if Abs(t - c.lastCheckedTime) > 2.5 then
          Reaction(c.(lastSyncTime := t, lastCheckedTime := t), Some(ToServer.Seek(t)))
        else
          Reaction(c.(lastCheckedTime := t, lastSyncTime := t), None)
      else if Abs(t - c.lastCheckedTime) > 0.1 then
        Reaction(c.(lastSyncTime := t, lastCheckedTime := t), Some(ToServer.Seek(t)))
      else
        Reaction(c, None)
    else
      Reaction(c, None)
  }

  /** One run of the 2 s reporter: unless a correction settles, send the position as `timeUpdate`. */
  function ReportTick(c: Client): (r: Reaction)
    ensures !(c.reporterArmed && Applies(c)) ==> r == Reaction(c, None)
    ensures c.reporterArmed && Applies(c) ==>
      r == Reaction(c.(lastSyncTime := c.player.value.time), Some(TimeUpdate(c.player.value.time)))
  {
    if c.reporterArmed && Applies(c) then
      var t := c.player.value.time;
      Reaction(c.(lastSyncTime := t), Some(TimeUpdate(t)))
    else
      Reaction(c, None)
  }

  // ---- properties ----

  /**
   * Feedback-loop suppression: while a correction settles, none of the player
   * notifications or intervals sends anything to the server, and inbound
   * `play`, `pause`, `seek` and `timeSync` change nothing.
   */
  lemma SuppressedClientIsSilent(c: Client, t: real, seen: bool)
    requires c.isSyncing
    ensures PlayerPlayed(c).sent.None? && PlayerPaused(c).sent.None?
    ensures SeekTick(c).sent.None? && ReportTick(c).sent.None?
    ensures OnPlay(c, t).state == c && OnPause(c, t).state == c
    ensures OnSeek(c, t).state == c && OnTimeSync(c, t, seen).state == c
  {
  }

  /**
   * No echo: right after an inbound correction has been applied, the player's
   * resulting play or pause notification and the next detector and reporter runs
   * send nothing back.
   */
  lemma {:induction false} CorrectionIsNotEchoed(c: Client, e: Event)
    requires Applies(c) && (e.PlayMsg? || e.PauseMsg? || e.SeekMsg?)
    ensures var c' := Step(c, e).state;
      && PlayerPlayed(c').sent.None? && PlayerPaused(c').sent.None?
      && SeekTick(c').sent.None? && ReportTick(c').sent.None?
  {
    var c' := Step(c, e).state;
    assert c'.isSyncing;
    SuppressedClientIsSilent(c', e.target, true);
  }

  /** The detector's thresholds are strict: 2.5 s while playing and 0.1 s while paused are not seeks, 2.51 s and 0.11 s are. */
  lemma SeekDetectorBoundary(c: Client)
    requires c.detectorArmed && Applies(c)
    ensures var t := c.player.value.time;
      && (c.isPlaying && t == c.lastCheckedTime + 2.5 ==> SeekTick(c).sent.None?)
      && (c.isPlaying && t == c.lastCheckedTime - 2.51 ==> SeekTick(c).sent == Some(ToServer.Seek(t)))
      && (!c.isPlaying && t == c.lastCheckedTime + 0.1 ==> SeekTick(c).sent.None?)
      && (!c.isPlaying && t == c.lastCheckedTime + 0.11 ==> SeekTick(c).sent == Some(ToServer.Seek(t)))
  {
  }

  /** Every event the client reacts to. */
  datatype Event =
    | SessionStateMsg(url: Option<string>, playing: bool, time: real)
    | VideoChangedMsg(newUrl: string)
    | PlayMsg(target: real)
    | PauseMsg(target: real)
    | SeekMsg(target: real)
    | TimeSyncMsg(target: real, seenIsPlaying: bool)
    | SettleTimeout
    | BootstrapTimeout
    | SeekInterval
    | ReportInterval
    | PlayerReady(p: PlayerView)
    | UrlEdited(text: string)
    | Submitted
    | PlayNotified
    | PauseNotified
    | StateChanged(nowPlaying: bool)

  /** Routes an event to its handler. A timeout that was never scheduled does not fire, and the player mounts only under a shown video. */
  function Step(c: Client, e: Event): Reaction
  {
    match e
    case SessionStateMsg(url, playing, time) => OnSessionState(c, url, playing, time)
    case VideoChangedMsg(url) => OnVideoChanged(c, url)
    case PlayMsg(t) => OnPlay(c, t)
    case PauseMsg(t) => OnPause(c, t)
    case SeekMsg(t) => OnSeek(c, t)
    case TimeSyncMsg(t, seen) => OnTimeSync(c, t, seen)
    case SettleTimeout => if c.pendingSettles > 0 then Settle(c) else Reaction(c, None)
    case BootstrapTimeout => if c.pendingBootstraps != [] then BootstrapFire(c) else Reaction(c, None)
    case SeekInterval => SeekTick(c)
    case ReportInterval => ReportTick(c)
    case PlayerReady(p) => if c.videoId.Some? then Ready(c, p) else Reaction(c, None)
    case UrlEdited(text) => EditUrl(c, text)
    case Submitted => Submit(c)
    case PlayNotified => PlayerPlayed(c)
    case PauseNotified => PlayerPaused(c)
    case StateChanged(p) => StateChange(c, p)
  }

  /** Every event keeps the invariant. */
  lemma StepKeepsValid(c: Client, e: Event)
    requires Valid(c)
    ensures Valid(Step(c, e).state)
  {
  }

  /** The state after `evs`, in order. */
  function Run(c: Client, evs: seq<Event>): Client
    decreases |evs|
  {
    if evs == [] then c else Step(Run(c, evs[..|evs| - 1]), evs[|evs| - 1]).state
  }

  /** Every reachable state keeps the invariant. */
  lemma {:induction false} RunKeepsValid(evs: seq<Event>)
    ensures Valid(Run(Mounted(), evs))
  {
    if evs != [] {
      RunKeepsValid(evs[..|evs| - 1]);
      StepKeepsValid(Run(Mounted(), evs[..|evs| - 1]), evs[|evs| - 1]);
    }
  }

  /** The state after every pending clearing timeout has fired. */
  function SettleAll(c: Client): (c': Client)
    decreases c.pendingSettles
  {
    if c.pendingSettles == 0 then c else SettleAll(Settle(c).state)
  }

  /**
   * Suppression never sticks: in a reachable state, once the pending 500 ms
   * timeouts have fired the flag is down, and nothing else has moved.
   */
  lemma {:induction false} SuppressionClears(c: Client)
    requires Valid(c)
    ensures !SettleAll(c).isSyncing && SettleAll(c).pendingSettles == 0
    ensures SettleAll(c).player == c.player && SettleAll(c).isPlaying == c.isPlaying
    decreases c.pendingSettles
  {
    if c.pendingSettles > 0 {
      SuppressionClears(Settle(c).state);
    }
  }

  /**
   * Inbound corrections converge: after `play` or `pause` is applied the player
   * is within 1 s of the target in the requested state; after `seek` it is at the
   * target; after an acting `timeSync` it is within 2 s.
   */
  lemma InboundConverges(c: Client, target: real, seen: bool)
    requires Applies(c)
    ensures Abs(OnPlay(c, target).state.player.value.time - target) <= 1.0
    ensures OnPlay(c, target).state.player.value.playing
    ensures Abs(OnPause(c, target).state.player.value.time - target) <= 1.0
    ensures !OnPause(c, target).state.player.value.playing
    ensures OnSeek(c, target).state.player.value.time == target
    ensures seen ==> Abs(OnTimeSync(c, target, seen).state.player.value.time - target) <= 2.0
  {
  }

  /**
   * As written, the `timeSync` handler's closure is the mount-time one, in which
   * `isPlaying` is false: whatever the drift and whatever the state, it does nothing.
   */
  lemma TimeSyncAsWrittenIsInert(c: Client, target: real)
    ensures OnTimeSync(c, target, Mounted().isPlaying) == Reaction(c, None)
  {
  }

  /**
   * Reading the current `isPlaying` instead, a playing client with a player and
   * no correction settling ends within 2 s of the server's position, and moves
   * only if it was further away.
   */
  lemma TimeSyncWithCurrentStateConverges(c: Client, target: real)
    requires Applies(c) && c.isPlaying
    ensures Abs(OnTimeSync(c, target, c.isPlaying).state.player.value.time - target) <= DriftSeekThreshold
    ensures OnTimeSync(c, target, c.isPlaying).state.player.value.time != c.player.value.time ==>
      Abs(c.player.value.time - target) > DriftSeekThreshold
  {
  }

  /**
   * Bootstrap of a client joining a playing session: the snapshot shows the
   * video, the player mounts, the 1000 ms timeout seeks it to the snapshot's
   * position (however far) and plays it under suppression, and the 500 ms
   * timeout clears the flag. A later `timeSync` then leaves the player where it
   * is, as the handler is written (its closure sees the mount-time `false`);
   * read with the current `isPlaying`, it would seek a player more than 2 s off
   * to the server's position.
   */
  lemma {:induction false} JoinPlayingSession(id: string, position: real, start: PlayerView, target: real)
    requires IsCanonicalId(id)
    ensures var c1 := OnSessionState(Mounted(), Some("https://youtu.be/" + id), true, position).state;
      var c2 := Ready(c1, start).state;
      && c1.videoId == Some(id) && c1.isPlaying
      && c2.pendingBootstraps != []
      && var c3 := BootstrapFire(c2).state;
      && c3.player == Some(PlayerView(position, true)) && c3.isSyncing
      && c3.pendingSettles > 0
      && var c4 := Settle(c3).state;
      && !c4.isSyncing
      && OnTimeSync(c4, target, Mounted().isPlaying).state == c4
      && (Abs(position - target) > 2.0 ==>
            OnTimeSync(c4, target, c4.isPlaying).state.player == Some(PlayerView(target, true)))
  {
    var url := "https://" + "youtu.be/" + id;
    assert "https://youtu.be/" + id == url;
    ExtractsIdAfterMarker("https://", "youtu.be/", id);
  }
}
