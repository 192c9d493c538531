/** The registry of audio track players (`AudioManager` in src/audio_decoder.py):
    track discovery, one player per discovered track keyed by its position in
    the track list, per-track volume and mute, the fan-out commands, and the
    master position. Whether the backend can open the file is an input: for
    discovery, the container's streams or `None`; for each player `i`, `opens(i)`
    is what its own open of the file yields. */
module AudioMgr {
  import opened Wrappers
  import Media
  import Audio

  datatype AudioManager = AudioManager(players: map<int, Audio.AudioPlayer>, trackInfo: seq<Media.TrackInfo>)

  function NewManager(): (m: AudioManager)
    ensures m.players == map[] && m.trackInfo == []
  {
    AudioManager(map[], [])
  }

  /** `discover_tracks()`: lists the audio tracks and remembers the list. When the
      file cannot be opened it returns the empty list and keeps the old one. */
  function DiscoverTracks(m: AudioManager, container: Option<seq<Media.Stream>>): (r: (AudioManager, seq<Media.TrackInfo>))
    ensures r.1 == Media.AudioTrackInfos(container)
    ensures container.Some? ==> r.0 == m.(trackInfo := r.1)
    ensures container.None? ==> r.0 == m && r.1 == []
  {
    match container
    case None => (m, [])
    case Some(_) =>
      var tracks := Media.AudioTrackInfos(container);
      (m.(trackInfo := tracks), tracks)
  }

  /** The player for track `i` of `tracks` after its `open()`, or `None` when it
      failed to open. */
  function Opened(tracks: seq<Media.TrackInfo>, i: nat, opens: nat -> Option<seq<Media.Stream>>): Option<Audio.AudioPlayer>
    requires i < |tracks|
  {
    Audio.Open(Audio.NewPlayer(i, tracks[i].index), opens(i))
  }

  /** The enumeration loop from track `from` on: each track that opens is
      registered under its index in the list; the others are skipped. */
  function AddPlayers(players: map<int, Audio.AudioPlayer>, tracks: seq<Media.TrackInfo>, from: nat,
                      opens: nat -> Option<seq<Media.Stream>>): (r: map<int, Audio.AudioPlayer>)
    requires from <= |tracks|
    ensures forall i :: from <= i < |tracks| && Opened(tracks, i, opens).Some? ==>
      i in r && r[i] == Opened(tracks, i, opens).value
    ensures forall i :: from <= i < |tracks| && Opened(tracks, i, opens).None? ==>
      (i in r <==> i in players) && (i in players ==> r[i] == players[i])
    ensures forall k :: (k < from || k >= |tracks|) ==>
      (k in r <==> k in players) && (k in players ==> r[k] == players[k])
    decreases |tracks| - from
  {
    if from == |tracks| then players
    else
      var next := match Opened(tracks, from, opens)
                  case Some(p) => players[from := p]
                  case None => players;
      AddPlayers(next, tracks, from + 1, opens)
  }

  /** `initialize_all_tracks()`: discovers the tracks first when none are known,
      then opens one player per track. The result is whether any player is
      registered. */
  function InitializeAllTracks(m: AudioManager, discovered: Option<seq<Media.Stream>>,
                               opens: nat -> Option<seq<Media.Stream>>): (r: (AudioManager, bool))
    ensures var tracks := if m.trackInfo == [] then Media.AudioTrackInfos(discovered) else m.trackInfo;
      && r.0.trackInfo == tracks
      && r.0.players == AddPlayers(m.players, tracks, 0, opens)
    ensures r.1 <==> |r.0.players| > 0
  {
    var m1 := if m.trackInfo == [] then DiscoverTracks(m, discovered).0 else m;
    var players := AddPlayers(m1.players, m1.trackInfo, 0, opens);
    (m1.(players := players), |players| > 0)
  }

  /** Starting from no players, initialization succeeds exactly when some track
      opened, and the registered ids are exactly the tracks that opened. */
  lemma InitializeSucceedsIffSomeTrackOpens(m: AudioManager, discovered: Option<seq<Media.Stream>>,
                                           opens: nat -> Option<seq<Media.Stream>>)
    requires m.players == map[]
    ensures var (m', ok) := InitializeAllTracks(m, discovered, opens);
      && (forall i :: i in m'.players <==> 0 <= i < |m'.trackInfo| && Opened(m'.trackInfo, i, opens).Some?)
      && (ok <==> exists i :: 0 <= i < |m'.trackInfo| && Opened(m'.trackInfo, i, opens).Some?)
  {
    var (m', ok) := InitializeAllTracks(m, discovered, opens);
    var tracks := m'.trackInfo;
    if ok {
      var i :| i in m'.players;
      assert 0 <= i < |tracks| && Opened(tracks, i, opens).Some?;
    }
    if exists i :: 0 <= i < |tracks| && Opened(tracks, i, opens).Some? {
      var i :| 0 <= i < |tracks| && Opened(tracks, i, opens).Some?;
      assert i in m'.players;
      assert |m'.players| > 0 by {
        assert i in m'.players.Keys;
      }
    }
  }

  /** `set_track_volume(id, v)`: only the player registered under `id` changes,
      and only its volume; an unknown id changes nothing. */
  function SetTrackVolume(m: AudioManager, id: int, v: real): (r: AudioManager)
    ensures id !in m.players ==> r == m
    ensures id in m.players ==> r == m.(players := m.players[id := Audio.SetVolume(m.players[id], v)])
    ensures r.players.Keys == m.players.Keys
    ensures id in r.players ==> 0.0 <= r.players[id].volume <= 1.0
  {
    if id in m.players then m.(players := m.players[id := Audio.SetVolume(m.players[id], v)]) else m
  }

  /** `set_track_muted(id, b)`: only the player registered under `id` changes,
      and only its mute flag; an unknown id changes nothing. */
  function SetTrackMuted(m: AudioManager, id: int, b: bool): (r: AudioManager)
    ensures id !in m.players ==> r == m
    ensures id in m.players ==> r == m.(players := m.players[id := Audio.SetMuted(m.players[id], b)])
    ensures r.players.Keys == m.players.Keys
    ensures id in r.players ==> r.players[id].muted == b
  {
    if id in m.players then m.(players := m.players[id := Audio.SetMuted(m.players[id], b)]) else m
  }

  /** A per-track volume or mute command leaves every other track as it was. */
  lemma TrackCommandsAreIndependent(m: AudioManager, id: int, other: int, v: real, b: bool)
    requires other != id && other in m.players
    ensures SetTrackVolume(m, id, v).players[other] == m.players[other]
    ensures SetTrackMuted(m, id, b).players[other] == m.players[other]
  {
  }

  /** `get_master_pts()`: the position of track 0, or 0 when there is no track 0. */
  function GetMasterPts(m: AudioManager): (t: real)
    ensures 0 in m.players ==> t == m.players[0].currentPts
    ensures 0 !in m.players ==> t == 0.0
  {
    if 0 in m.players then m.players[0].currentPts else 0.0
  }

  /** `pause_all()`. */
  function PauseAll(m: AudioManager): (r: AudioManager)
    ensures r.players.Keys == m.players.Keys && r.trackInfo == m.trackInfo
    ensures forall id :: id in r.players ==> r.players[id] == Audio.Pause(m.players[id])
  {
    m.(players := map id | id in m.players :: Audio.Pause(m.players[id]))
  }

  /** `resume_all()`: each player resumes by its own rule (running ones only). */
  function ResumeAll(m: AudioManager): (r: AudioManager)
    ensures r.players.Keys == m.players.Keys && r.trackInfo == m.trackInfo
    ensures forall id :: id in r.players ==> r.players[id] == Audio.Resume(m.players[id])
  {
    m.(players := map id | id in m.players :: Audio.Resume(m.players[id]))
  }

  /** `seek_all(position)`: every player gets the same seek request. */
  function SeekAll(m: AudioManager, position: real): (r: AudioManager)
    ensures r.players.Keys == m.players.Keys && r.trackInfo == m.trackInfo
    ensures forall id :: id in r.players ==> r.players[id].seekRequested && r.players[id].seekTarget == position
    ensures forall id :: id in r.players ==> r.players[id] == Audio.Seek(m.players[id], position)
  {
    m.(players := map id | id in m.players :: Audio.Seek(m.players[id], position))
  }

  /** `stop_all()`. */
  function StopAll(m: AudioManager): (r: AudioManager)
    ensures r.players.Keys == m.players.Keys && r.trackInfo == m.trackInfo
    ensures forall id :: id in r.players ==> !r.players[id].running && !r.players[id].paused
    ensures forall id :: id in r.players ==> r.players[id] == Audio.Stop(m.players[id])
  {
    m.(players := map id | id in m.players :: Audio.Stop(m.players[id]))
  }
}
