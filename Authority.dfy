/**
 * The session authority of server/src/server.ts as pure functions over one
 * value of the global `sessionState` record. Every handler takes the single
 * instant `now` (milliseconds) at which it runs and yields the new record and
 * the messages it emits, each tagged with who receives it.
 */
module Authority {
  import opened Common
  import opened Protocol

  /** The global `sessionState` record; positions are seconds, instants milliseconds. */
  datatype Session = Session(
    videoUrl: Option<string>,
    isPlaying: bool,
    currentTime: real,
    lastUpdateTime: int,
    userCount: int)

  /** What one handler does: the record afterwards and the messages it emits, in order. */
  datatype Reaction = Reaction(state: Session, out: seq<Outbound>)

  /** Period of the drift-correction interval, in milliseconds. */
  const DriftCheckInterval: int := 5000

  /** A `timeUpdate` is kept only when it is strictly closer than this to the expected position. */
  const TimeUpdateTolerance: real := 2.0

  /** The record as the process starts. */
  function Initial(now: int): (s: Session)
    ensures !TruthyUrl(s.videoUrl) && !s.isPlaying
    ensures s.currentTime == 0.0 && s.lastUpdateTime == now && s.userCount == 0
  {
    Session(None, false, 0.0, now, 0)
  }

  /** Seconds since the last update: the milliseconds difference divided by 1000. */
  function Elapsed(s: Session, now: int): real
  {
    (now - s.lastUpdateTime) as real / 1000.0
  }

  /** Where playback should be at `now`: extrapolated while playing, the stored position otherwise. */
  function Expected(s: Session, now: int): (e: real)
    ensures !s.isPlaying || now == s.lastUpdateTime ==> e == s.currentTime
    ensures s.isPlaying && now >= s.lastUpdateTime ==> e >= s.currentTime
  {
    if s.isPlaying then s.currentTime + Elapsed(s, now) else s.currentTime
  }

  /** Extrapolation never goes backwards, and strictly advances while playing. */
  lemma ExpectedMonotone(s: Session, t1: int, t2: int)
    requires t1 <= t2
    ensures Expected(s, t1) <= Expected(s, t2)
    ensures s.isPlaying && t1 < t2 ==> Expected(s, t1) < Expected(s, t2)
  {
  }

  /** A new socket: the count goes up, the sender alone gets the stored snapshot, then everybody gets the count. */
  function OnConnect(s: Session, now: int): (r: Reaction)
    ensures r.state == s.(userCount := s.userCount + 1)
    ensures |r.out| == 2
    ensures r.out[0].to == ToSender && r.out[0].msg.SessionState?
    ensures r.out[0].msg.videoUrl == s.videoUrl && r.out[0].msg.isPlaying == s.isPlaying
    // The snapshot carries the stored position, not the one extrapolated to `now`.
    ensures r.out[0].msg.currentTime == s.currentTime
    ensures r.out[1] == Outbound(All, UserCount(s.userCount + 1))
  {
    var s' := s.(userCount := s.userCount + 1);
    Reaction(s', [Outbound(ToSender, SessionState(s.videoUrl, s.isPlaying, s.currentTime, now)),
                  Outbound(All, UserCount(s'.userCount))])
  }

  /** A socket leaves: the count goes down and everybody gets it. */
  function OnDisconnect(s: Session, now: int): (r: Reaction)
    ensures r.state.userCount == s.userCount - 1
    ensures r.state.(userCount := s.userCount) == s
    ensures r.out == [Outbound(All, UserCount(s.userCount - 1))]
  {
    var s' := s.(userCount := s.userCount - 1);
    Reaction(s', [Outbound(All, UserCount(s'.userCount))])
  }

  /** Connecting and then disconnecting leaves the record exactly as it was. */
  lemma ConnectThenDisconnectRestores(s: Session, t1: int, t2: int)
    ensures OnDisconnect(OnConnect(s, t1).state, t2).state == s
    ensures OnDisconnect(OnConnect(s, t1).state, t2).out == [Outbound(All, UserCount(s.userCount))]
  {
  }

  /**
   * `changeVideo`: the URL is stored as given, without any validation, playback
   * is reset to a paused start, and only the other sockets are told.
   */
  function OnChangeVideo(s: Session, url: string, now: int): (r: Reaction)
    ensures r.state.videoUrl == Some(url)
    ensures !r.state.isPlaying && r.state.currentTime == 0.0 && r.state.lastUpdateTime == now
    ensures r.state.userCount == s.userCount
    ensures Expected(r.state, now) == 0.0
    ensures r.out == [Outbound(AllExceptSender, VideoChanged(url, now))]
  {
    Reaction(s.(videoUrl := Some(url), currentTime := 0.0, isPlaying := false, lastUpdateTime := now),
             [Outbound(AllExceptSender, VideoChanged(url, now))])
  }

  /** `currentTime || sessionState.currentTime`: a supplied 0 is falsy and keeps the stored position. */
  function Fallback(supplied: real, stored: real): (t: real)
    ensures supplied != 0.0 ==> t == supplied
    ensures supplied == 0.0 ==> t == stored
  {
    if supplied != 0.0 then supplied else stored
  }

  /** `play`: playing from the supplied position (or the stored one if it is 0); the others hear the stored result. */
  function OnPlay(s: Session, t: real, now: int): (r: Reaction)
    ensures r.state.isPlaying && r.state.lastUpdateTime == now
    ensures r.state.currentTime == Fallback(t, s.currentTime)
    ensures r.state.videoUrl == s.videoUrl && r.state.userCount == s.userCount
    ensures r.out == [Outbound(AllExceptSender, ToClient.Play(r.state.currentTime, now))]
  {
    var s' := s.(isPlaying := true, currentTime := Fallback(t, s.currentTime), lastUpdateTime := now);
    Reaction(s', [Outbound(AllExceptSender, ToClient.Play(s'.currentTime, now))])
  }

  /** `pause`: as `play`, but paused and with a `pause` broadcast. */
  function OnPause(s: Session, t: real, now: int): (r: Reaction)
    ensures !r.state.isPlaying && r.state.lastUpdateTime == now
    ensures r.state.currentTime == Fallback(t, s.currentTime)
    ensures r.state.videoUrl == s.videoUrl && r.state.userCount == s.userCount
    ensures r.out == [Outbound(AllExceptSender, ToClient.Pause(r.state.currentTime, now))]
  {
    var s' := s.(isPlaying := false, currentTime := Fallback(t, s.currentTime), lastUpdateTime := now);
    Reaction(s', [Outbound(AllExceptSender, ToClient.Pause(s'.currentTime, now))])
  }

  /** `seek`: the supplied position is taken as it is, 0 included, however far it is from the timeline. */
  function OnSeek(s: Session, t: real, now: int): (r: Reaction)
    ensures r.state == s.(currentTime := t, lastUpdateTime := now)
    ensures Expected(r.state, now) == t
    ensures r.out == [Outbound(AllExceptSender, ToClient.Seek(t, now))]
  {
    Reaction(s.(currentTime := t, lastUpdateTime := now), [Outbound(AllExceptSender, ToClient.Seek(t, now))])
  }

  /** Whether a `timeUpdate` carrying `p` is kept: strictly within the tolerance of the expected position. */
  predicate Accepts(s: Session, p: real, now: int)
  {
    Abs(p - Expected(s, now)) < TimeUpdateTolerance
  }

  /** `timeUpdate`: either the report is taken as the new (position, instant) pair or nothing changes; it never emits. */
  function OnTimeUpdate(s: Session, p: real, now: int): (r: Reaction)
    ensures r.out == []
    ensures r.state.videoUrl == s.videoUrl && r.state.isPlaying == s.isPlaying
    ensures r.state.userCount == s.userCount
    ensures r.state == s || (r.state.currentTime == p && r.state.lastUpdateTime == now)
  {
    if Accepts(s, p, now) then Reaction(s.(currentTime := p, lastUpdateTime := now), [])
    else Reaction(s, [])
  }

  /** A report is taken exactly when it is within the tolerance; a rejected one changes nothing at all. */
  lemma TimeUpdateAcceptedIffWithinTolerance(s: Session, p: real, now: int)
    ensures Abs(p - Expected(s, now)) < 2.0 ==>
      OnTimeUpdate(s, p, now).state == s.(currentTime := p, lastUpdateTime := now)
    ensures Abs(p - Expected(s, now)) >= 2.0 ==> OnTimeUpdate(s, p, now).state == s
  {
  }

  /** The window is open: 1.999 s off is taken, exactly 2 s off (either side) is not. */
  lemma TimeUpdateBoundary(s: Session, now: int)
    ensures OnTimeUpdate(s, Expected(s, now) + 1.999, now).state.currentTime == Expected(s, now) + 1.999
    ensures OnTimeUpdate(s, Expected(s, now) - 1.999, now).state.currentTime == Expected(s, now) - 1.999
    ensures OnTimeUpdate(s, Expected(s, now) + 2.0, now).state == s
    ensures OnTimeUpdate(s, Expected(s, now) - 2.0, now).state == s
  {
  }

  /**
   * One report moves the authoritative timeline by less than the tolerance:
   * at every later instant the new expected position is within 2 s of the old.
   */
  lemma {:induction false} TimeUpdateMovesTimelineLessThanTolerance(s: Session, p: real, now: int, later: int)
    requires now <= later
    ensures Abs(Expected(OnTimeUpdate(s, p, now).state, later) - Expected(s, later)) < TimeUpdateTolerance
  {
    var s' := OnTimeUpdate(s, p, now).state;
    if Accepts(s, p, now) && s.isPlaying {
      calc {
        Expected(s', later) - Expected(s, later);
        p + (later - now) as real / 1000.0 - (s.currentTime + (later - s.lastUpdateTime) as real / 1000.0);
        p - (s.currentTime + (now - s.lastUpdateTime) as real / 1000.0);
        p - Expected(s, now);
      }
    }
  }

  /**
   * The drift interval body: while playing a truthy URL it re-bases the pair
   * (position, instant) to `now` and tells everybody the new position;
   * otherwise it does nothing.
   */
  function DriftTick(s: Session, now: int): (r: Reaction)
    ensures !(s.isPlaying && TruthyUrl(s.videoUrl)) ==> r == Reaction(s, [])
    ensures s.isPlaying && TruthyUrl(s.videoUrl) ==>
      && r.state == s.(currentTime := Expected(s, now), lastUpdateTime := now)
      && r.out == [Outbound(All, TimeSync(Expected(s, now), now))]
  {
    if s.isPlaying && TruthyUrl(s.videoUrl) then
      var s' := s.(currentTime := s.currentTime + Elapsed(s, now), lastUpdateTime := now);
      Reaction(s', [Outbound(All, TimeSync(s'.currentTime, now))])
    else
      Reaction(s, [])
  }

  /** The drift tick never moves the timeline: at every instant the expected position is the same as before it. */
  lemma {:induction false} DriftTickPreservesTimeline(s: Session, now: int, t: int)
    ensures Expected(DriftTick(s, now).state, t) == Expected(s, t)
  {
    if s.isPlaying && TruthyUrl(s.videoUrl) {
      calc {
        Expected(DriftTick(s, now).state, t);
        s.currentTime + (now - s.lastUpdateTime) as real / 1000.0 + (t - now) as real / 1000.0;
        s.currentTime + (t - s.lastUpdateTime) as real / 1000.0;
      }
    }
  }

  /** A report of exactly the expected position leaves the record as a drift tick would, without the broadcast. */
  lemma ExactReportMatchesDriftTick(s: Session, now: int)
    requires s.isPlaying && TruthyUrl(s.videoUrl)
    ensures OnTimeUpdate(s, Expected(s, now), now).state == DriftTick(s, now).state
    ensures OnTimeUpdate(s, Expected(s, now), now).out == []
  {
  }

  /** Every event the server reacts to. */
  datatype Event = Connect | Disconnect | Intent(msg: ToServer) | Tick

  /** An event together with the instant at which it is handled. */
  datatype Timed = Timed(event: Event, now: int)

  /** Routes a client message to its handler. */
  function OnIntent(s: Session, m: ToServer, now: int): Reaction
  {
    match m
    case ChangeVideo(url) => OnChangeVideo(s, url, now)
    case Play(t) => OnPlay(s, t, now)
    case Pause(t) => OnPause(s, t, now)
    case Seek(t) => OnSeek(s, t, now)
    case TimeUpdate(t) => OnTimeUpdate(s, t, now)
  }

  /** No client message changes the user count, and only `changeVideo` changes the URL. */
  lemma IntentKeepsCountAndUrl(s: Session, m: ToServer, now: int)
    ensures OnIntent(s, m, now).state.userCount == s.userCount
    ensures !m.ChangeVideo? ==> OnIntent(s, m, now).state.videoUrl == s.videoUrl
  {
  }

  function Step(s: Session, e: Timed): Reaction
  {
    match e.event
    case Connect => OnConnect(s, e.now)
    case Disconnect => OnDisconnect(s, e.now)
    case Intent(m) => OnIntent(s, m, e.now)
    case Tick => DriftTick(s, e.now)
  }

  /** The record after handling `evs` in order. */
  function Run(s: Session, evs: seq<Timed>): Session
    decreases |evs|
  {
    if evs == [] then s else Step(Run(s, evs[..|evs| - 1]), evs[|evs| - 1]).state
  }

  /** Connections minus disconnections in `evs`. */
  function NetJoins(evs: seq<Timed>): int
    decreases |evs|
  {
    if evs == [] then 0
    else
      var last := evs[|evs| - 1].event;
      NetJoins(evs[..|evs| - 1]) + (if last.Connect? then 1 else if last.Disconnect? then -1 else 0)
  }

  /** The user count moves only with connections and disconnections, one for one. */
  lemma {:induction false} RunUserCount(s: Session, evs: seq<Timed>)
    ensures Run(s, evs).userCount == s.userCount + NetJoins(evs)
  {
    if evs != [] {
      var init := evs[..|evs| - 1];
      RunUserCount(s, init);
      var e := evs[|evs| - 1];
      if e.event.Intent? {
        IntentKeepsCountAndUrl(Run(s, init), e.event.msg, e.now);
      }
    }
  }

  /** The URL set by the last `changeVideo` in `evs`, or `initial` when there is none. */
  function LastVideo(initial: Option<string>, evs: seq<Timed>): Option<string>
    decreases |evs|
  {
    if evs == [] then initial
    else
      var last := evs[|evs| - 1].event;
      if last.Intent? && last.msg.ChangeVideo? then Some(last.msg.videoUrl)
      else LastVideo(initial, evs[..|evs| - 1])
  }

  /** The stored URL is always the one of the last `changeVideo`: nothing else writes it. */
  lemma {:induction false} RunVideoUrlIsLastChange(s: Session, evs: seq<Timed>)
    ensures Run(s, evs).videoUrl == LastVideo(s.videoUrl, evs)
  {
    if evs != [] {
      var init := evs[..|evs| - 1];
      RunVideoUrlIsLastChange(s, init);
      var e := evs[|evs| - 1];
      if e.event.Intent? {
        IntentKeepsCountAndUrl(Run(s, init), e.event.msg, e.now);
      }
    }
  }

  /** Whether an event is a client's `play`, `pause` or `seek`. */
  predicate IsPositioning(e: Timed)
  {
    e.event.Intent? && (e.event.msg.Play? || e.event.msg.Pause? || e.event.msg.Seek?)
  }

  /**
   * Last write wins: after any run of `play`, `pause` and `seek` messages, the
   * (position, instant) pair is the last message's position and instant (for
   * `play` and `pause` when that position is not 0), and neither the URL nor
   * the user count has moved.
   */
  lemma {:induction false} PositioningLastWriteWins(s: Session, evs: seq<Timed>)
    requires evs != []
    requires forall i :: 0 <= i < |evs| ==> IsPositioning(evs[i])
    requires IsPositioning(evs[|evs| - 1]) &&
      (evs[|evs| - 1].event.msg.Seek? || evs[|evs| - 1].event.msg.currentTime != 0.0)
    ensures Run(s, evs).currentTime == evs[|evs| - 1].event.msg.currentTime
    ensures Run(s, evs).lastUpdateTime == evs[|evs| - 1].now
    ensures Run(s, evs).videoUrl == s.videoUrl && Run(s, evs).userCount == s.userCount
  {
    PositioningKeepsCountAndUrl(s, evs);
  }

  lemma {:induction false} PositioningKeepsCountAndUrl(s: Session, evs: seq<Timed>)
    requires forall i :: 0 <= i < |evs| ==> IsPositioning(evs[i])
    ensures Run(s, evs).videoUrl == s.videoUrl && Run(s, evs).userCount == s.userCount
  {
    if evs != [] {
      var init := evs[..|evs| - 1];
      assert forall i :: 0 <= i < |init| ==> IsPositioning(init[i]) by {
        forall i | 0 <= i < |init| ensures IsPositioning(init[i]) {
          assert init[i] == evs[i];
        }
      }
      PositioningKeepsCountAndUrl(s, init);
    }
  }

  /** Re-applying the same `play` changes nothing but the instant. */
  lemma ReplayedPositioningIsIdempotent(s: Session, t: real, n1: int, n2: int)
    ensures OnPlay(OnPlay(s, t, n1).state, t, n2) == OnPlay(s, t, n2)
    ensures OnPause(OnPause(s, t, n1).state, t, n2) == OnPause(s, t, n2)
    ensures OnSeek(OnSeek(s, t, n1).state, t, n2) == OnSeek(s, t, n2)
  {
  }
}
