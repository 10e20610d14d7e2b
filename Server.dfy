/**
 * The server of server/src/server.ts: one object holding the global
 * `sessionState` record, updated in place by the socket handlers and by the
 * drift interval. Each handler returns the messages it emits; each is proved
 * to do what the matching function of module Authority says.
 */
module Server {
  import opened Common
  import opened Protocol
  import opened Authority

  class SessionAuthority {
    var videoUrl: Option<string>
    var isPlaying: bool
    var currentTime: real
    var lastUpdateTime: int
    var userCount: int

    /** The record as a value. */
    function Snapshot(): Session
      reads this
    {
      Session(videoUrl, isPlaying, currentTime, lastUpdateTime, userCount)
    }

    /** The record at process start; `now` stands for the `Date.now()` read then. */
    constructor (now: int)
      ensures Snapshot() == Initial(now)
    {
      videoUrl := None;
      isPlaying := false;
      currentTime := 0.0;
      lastUpdateTime := now;
      userCount := 0;
    }

    /** The body of the 5-second drift interval. */
    method DriftTick(now: int) returns (out: seq<Outbound>)
      modifies this
      ensures Snapshot() == Authority.DriftTick(old(Snapshot()), now).state
      ensures out == Authority.DriftTick(old(Snapshot()), now).out
    {
      out := [];
      if isPlaying && videoUrl.Some? && videoUrl.value != "" {
        var elapsed := (now - lastUpdateTime) as real / 1000.0;
        currentTime := currentTime + elapsed;
        lastUpdateTime := now;
        out := [Outbound(All, TimeSync(currentTime, now))];
      }
    }

    /** The `connection` handler, up to the registration of the per-socket handlers. */
    method Connect(now: int) returns (out: seq<Outbound>)
      modifies this
      ensures Snapshot() == OnConnect(old(Snapshot()), now).state
      ensures out == OnConnect(old(Snapshot()), now).out
    {
      userCount := userCount + 1;
      var snapshot := SessionState(videoUrl, isPlaying, currentTime, now);
      out := [Outbound(ToSender, snapshot)];
      out := out + [Outbound(All, UserCount(userCount))];
    }

    method ChangeVideo(url: string, now: int) returns (out: seq<Outbound>)
      modifies this
      ensures Snapshot() == OnChangeVideo(old(Snapshot()), url, now).state
      ensures out == OnChangeVideo(old(Snapshot()), url, now).out
    {
      videoUrl := Some(url);
      currentTime := 0.0;
      isPlaying := false;
      lastUpdateTime := now;
      out := [Outbound(AllExceptSender, VideoChanged(url, now))];
    }

    method Play(t: real, now: int) returns (out: seq<Outbound>)
      modifies this
      ensures Snapshot() == OnPlay(old(Snapshot()), t, now).state
      ensures out == OnPlay(old(Snapshot()), t, now).out
    {
      isPlaying := true;
      currentTime := if t != 0.0 then t else currentTime;
      lastUpdateTime := now;
      out := [Outbound(AllExceptSender, ToClient.Play(currentTime, now))];
    }

    method Pause(t: real, now: int) returns (out: seq<Outbound>)
      modifies this
      ensures Snapshot() == OnPause(old(Snapshot()), t, now).state
      ensures out == OnPause(old(Snapshot()), t, now).out
    {
      isPlaying := false;
      currentTime := if t != 0.0 then t else currentTime;
      lastUpdateTime := now;
      out := [Outbound(AllExceptSender, ToClient.Pause(currentTime, now))];
    }

    method Seek(t: real, now: int) returns (out: seq<Outbound>)
      modifies this
      ensures Snapshot() == OnSeek(old(Snapshot()), t, now).state
      ensures out == OnSeek(old(Snapshot()), t, now).out
    {
      currentTime := t;
      lastUpdateTime := now;
      out := [Outbound(AllExceptSender, ToClient.Seek(currentTime, now))];
    }

    method TimeUpdate(p: real, now: int) returns (out: seq<Outbound>)
      modifies this
      ensures Snapshot() == OnTimeUpdate(old(Snapshot()), p, now).state
      ensures out == OnTimeUpdate(old(Snapshot()), p, now).out
    {
      var expectedTime := if isPlaying then currentTime + (now - lastUpdateTime) as real / 1000.0
                          else currentTime;
      if Abs(p - expectedTime) < 2.0 {
        currentTime := p;
        lastUpdateTime := now;
      }
      out := [];
    }

    method Disconnect(now: int) returns (out: seq<Outbound>)
      modifies this
      ensures Snapshot() == OnDisconnect(old(Snapshot()), now).state
      ensures out == OnDisconnect(old(Snapshot()), now).out
    {
      userCount := userCount - 1;
      out := [Outbound(All, UserCount(userCount))];
    }
  }
}
