/**
 * The client of client/src/App.tsx as objects: the YouTube player, which the
 * handlers command step by step, and the component's state, refs and timers,
 * which they update in place. Each handler is proved to do what the matching
 * function of module Reconciler says.
 */
module ClientApp {
  import opened Common
  import opened Protocol
  import opened VideoId
  import R = Reconciler

  /** The YouTube player: a position and whether it plays. */
  class YouTubePlayer {
    var time: real
    var playing: bool

    function View(): R.PlayerView
      reads this
    {
      R.PlayerView(time, playing)
    }

    constructor (time: real, playing: bool)
      ensures View() == R.PlayerView(time, playing)
    {
      this.time := time;
      this.playing := playing;
    }

    method GetCurrentTime() returns (t: real)
      ensures t == time
    {
      t := time;
    }

    method SeekTo(t: real)
      modifies this
      ensures View() == old(View()).(time := t)
    {
      time := t;
    }

    method PlayVideo()
      modifies this
      ensures View() == old(View()).(playing := true)
    {
      playing := true;
    }

    method PauseVideo()
      modifies this
      ensures View() == old(View()).(playing := false)
    {
      playing := false;
    }
  }

  class WatchClient {
    var videoUrl: string
    var videoId: Option<string>
    var isPlaying: bool
    var player: YouTubePlayer?
    var isSyncing: bool
    var pendingSettles: nat
    var pendingBootstraps: seq<R.Bootstrap>
    var lastSyncTime: real
    var lastCheckedTime: real
    var detectorArmed: bool
    var reporterArmed: bool

    /** The whole client state as a value. */
    function Snapshot(): R.Client
      reads this, player
    {
      R.Client(videoUrl, videoId, isPlaying, if player == null then None else Some(player.View()),
               isSyncing, pendingSettles, pendingBootstraps, lastSyncTime, lastCheckedTime,
               detectorArmed, reporterArmed)
    }

    ghost predicate Valid()
      reads this, player
    {
      R.Valid(Snapshot())
    }

    /** The component as first mounted. */
    constructor ()
      ensures Snapshot() == R.Mounted() && Valid()
    {
      videoUrl := "";
      videoId := None;
      isPlaying := false;
      player := null;
      isSyncing := false;
      pendingSettles := 0;
      pendingBootstraps := [];
      lastSyncTime := 0.0;
      lastCheckedTime := 0.0;
      detectorArmed := false;
      reporterArmed := false;
    }

    /** `setIsPlaying`, with the re-run of the effects that depend on `isPlaying`. */
    method SetIsPlaying(v: bool)
      modifies this
      ensures player == old(player)
      ensures Snapshot() == R.SetIsPlaying(old(Snapshot()), v)
    {
      if v != isPlaying {
        isPlaying := v;
        // the seek-detector effect: no interval without a player
        detectorArmed := player != null;
        lastCheckedTime := lastSyncTime;
        // the reporter effect: no interval without a player or while paused
        reporterArmed := player != null && v;
      }
    }

    method OnSessionState(url: Option<string>, playing: bool, time: real)
      requires Valid()
      modifies this
      ensures player == old(player) && Valid()
      ensures Snapshot() == R.OnSessionState(old(Snapshot()), url, playing, time).state
    {
      if url.Some? && url.value != "" {
        var id := ExtractVideoId(url.value);
        if id.Some? {
          videoId := id;
          videoUrl := url.value;
          SetIsPlaying(playing);
          pendingBootstraps := pendingBootstraps + [R.Bootstrap(time, playing)];
        }
      }
    }

    method BootstrapFire()
      requires Valid() && pendingBootstraps != []
      modifies this, player
      ensures player == old(player) && Valid()
      ensures Snapshot() == R.BootstrapFire(old(Snapshot())).state
    {
      var data := pendingBootstraps[0];
      pendingBootstraps := pendingBootstraps[1..];
      if player != null {
        isSyncing := true;
        player.SeekTo(data.currentTime);
        if data.isPlaying {
          player.PlayVideo();
        } else {
          player.PauseVideo();
        }
        pendingSettles := pendingSettles + 1;
      }
    }

    method OnVideoChanged(url: string)
      requires Valid()
      modifies this
      ensures player == old(player) && Valid()
      ensures Snapshot() == R.OnVideoChanged(old(Snapshot()), url).state
    {
      var id := ExtractVideoId(url);
      if id.Some? {
        videoId := id;
        videoUrl := url;
        SetIsPlaying(false);
      }
    }

    method OnPlay(target: real)
      requires Valid()
      modifies this, player
      ensures player == old(player) && Valid()
      ensures Snapshot() == R.OnPlay(old(Snapshot()), target).state
    {
      if player != null && !isSyncing {
        isSyncing := true;
        SetIsPlaying(true);
        var currentTime := player.GetCurrentTime();
        if Abs(currentTime - target) > 1.0 {
          player.SeekTo(target);
        }
        player.PlayVideo();
        pendingSettles := pendingSettles + 1;
      }
    }

    method OnPause(target: real)
      requires Valid()
      modifies this, player
      ensures player == old(player) && Valid()
      ensures Snapshot() == R.OnPause(old(Snapshot()), target).state
    {
      if player != null && !isSyncing {
        isSyncing := true;
        SetIsPlaying(false);
        var currentTime := player.GetCurrentTime();
        if Abs(currentTime - target) > 1.0 {
          player.SeekTo(target);
        }
        player.PauseVideo();
        pendingSettles := pendingSettles + 1;
      }
    }

    method OnSeek(target: real)
      requires Valid()
      modifies this, player
      ensures player == old(player) && Valid()
      ensures Snapshot() == R.OnSeek(old(Snapshot()), target).state
    {
      if player != null && !isSyncing {
        isSyncing := true;
        player.SeekTo(target);
        pendingSettles := pendingSettles + 1;
      }
    }

    /** `seenIsPlaying` is the `isPlaying` of the handler's closure. */
    method OnTimeSync(target: real, seenIsPlaying: bool)
      requires Valid()
      modifies this, player
      ensures player == old(player) && Valid()
      ensures Snapshot() == R.OnTimeSync(old(Snapshot()), target, seenIsPlaying).state
    {
      if player != null && !isSyncing && seenIsPlaying {
        var currentTime := player.GetCurrentTime();
        if Abs(currentTime - target) > 2.0 {
          isSyncing := true;
          player.SeekTo(target);
          pendingSettles := pendingSettles + 1;
        }
      }
    }

    method Settle()
      requires Valid() && pendingSettles > 0
      modifies this
      ensures player == old(player) && Valid()
      ensures Snapshot() == R.Settle(old(Snapshot())).state
    {
      isSyncing := false;
      pendingSettles := pendingSettles - 1;
    }

    /** `handleReady`; the player is only mounted under a shown video. */
    method Ready(p: YouTubePlayer)
      requires Valid() && videoId.Some?
      modifies this
      ensures player == p && Valid()
      ensures Snapshot() == R.Ready(old(Snapshot()), p.View()).state
    {
      player := p;
    }

    method EditUrl(text: string)
      requires Valid()
      modifies this
      ensures player == old(player) && Valid()
      ensures Snapshot() == R.EditUrl(old(Snapshot()), text).state
    {
      videoUrl := text;
    }

    method HandleVideoSubmit() returns (sent: Option<ToServer>)
      requires Valid()
      modifies this
      ensures player == old(player) && Valid()
      ensures Snapshot() == R.Submit(old(Snapshot())).state
      ensures sent == R.Submit(old(Snapshot())).sent
    {
      var id := ExtractVideoId(videoUrl);
      if id.Some? {
        videoId := id;
        sent := Some(ChangeVideo(videoUrl));
      } else {
        sent := None;
      }
    }

    method HandlePlay() returns (sent: Option<ToServer>)
      requires Valid()
      modifies this
      ensures player == old(player) && Valid()
      ensures Snapshot() == R.PlayerPlayed(old(Snapshot())).state
      ensures sent == R.PlayerPlayed(old(Snapshot())).sent
    {
      sent := None;
      if !isSyncing && player != null {
        var currentTime := player.GetCurrentTime();
        sent := Some(ToServer.Play(currentTime));
        SetIsPlaying(true);
      }
    }

    method HandlePause() returns (sent: Option<ToServer>)
      requires Valid()
      modifies this
      ensures player == old(player) && Valid()
      ensures Snapshot() == R.PlayerPaused(old(Snapshot())).state
      ensures sent == R.PlayerPaused(old(Snapshot())).sent
    {
      sent := None;
      if !isSyncing && player != null {
        var currentTime := player.GetCurrentTime();
        sent := Some(ToServer.Pause(currentTime));
        SetIsPlaying(false);
      }
    }

    method HandleStateChange(nowPlaying: bool)
      requires Valid()
      modifies this
      ensures player == old(player) && Valid()
      ensures Snapshot() == R.StateChange(old(Snapshot()), nowPlaying).state
    {
      if nowPlaying && player != null {
        lastSyncTime := player.GetCurrentTime();
      }
    }

    /** One run of the `checkSeek` interval body. */
    method CheckSeek() returns (sent: Option<ToServer>)
      requires Valid()
      modifies this
      ensures player == old(player) && Valid()
      ensures Snapshot() == R.SeekTick(old(Snapshot())).state
      ensures sent == R.SeekTick(old(Snapshot())).sent
    {
      sent := None;
      if detectorArmed && player != null && !isSyncing {
        var currentTime := player.GetCurrentTime();
        if isPlaying {
          if Abs(currentTime - lastCheckedTime) > 2.5 {
            sent := Some(ToServer.Seek(currentTime));
            lastSyncTime := currentTime;
            lastCheckedTime := currentTime;
          } else {
            lastCheckedTime := currentTime;
            lastSyncTime := currentTime;
          }
        } else if Abs(currentTime - lastCheckedTime) > 0.1 {
          sent := Some(ToServer.Seek(currentTime));
          lastSyncTime := currentTime;
          lastCheckedTime := currentTime;
        }
      }
    }

    /** One run of the 2 s `timeUpdate` interval body. */
    method ReportTime() returns (sent: Option<ToServer>)
      requires Valid()
      modifies this
      ensures player == old(player) && Valid()
      ensures Snapshot() == R.ReportTick(old(Snapshot())).state
      ensures sent == R.ReportTick(old(Snapshot())).sent
    {
      sent := None;
      if reporterArmed && player != null && !isSyncing {
        var currentTime := player.GetCurrentTime();
        sent := Some(TimeUpdate(currentTime));
        lastSyncTime := currentTime;
      }
    }
  }
}
