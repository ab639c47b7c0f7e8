/** The playback controls of `components/PlayerContent.tsx`: next/previous
    over the shared player store, binary mute and the `isPlaying` flag that
    the sound library's callbacks keep. */
module PlayerContent {

  import opened Wrappers
  import opened Player
  import opened Navigation

  /** What `handlePlay` asks of the sound library. */
  datatype SoundCall = Play | Pause

  /** `toggleMute`'s new volume: silence becomes full volume, any other
      volume becomes silence. The old level is not remembered. */
  function MuteToggled(volume: real): (r: real)
    ensures r == 0.0 || r == 1.0
    ensures r == 0.0 <==> volume != 0.0
  {
    if volume == 0.0 then 1.0 else 0.0
  }

  /** Toggling twice restores a volume of 0 or 1 and sends every other
      volume to full: from 0.3, two toggles give 1. */
  lemma MuteToggledTwice(volume: real)
    ensures MuteToggled(MuteToggled(volume)) == if volume == 0.0 then 0.0 else 1.0
    ensures MuteToggled(MuteToggled(0.3)) == 1.0
  {
  }

  class PlayerControls {
    const player: PlayerStore
    var volume: real
    var isPlaying: bool

    /** Mounting starts at full volume, not playing. */
    constructor (player: PlayerStore)
      ensures this.player == player
      ensures volume == 1.0 && !isPlaying
    {
      this.player := player;
      volume := 1.0;
      isPlaying := false;
    }

    /** `onPlayNext`: writes the store's active id as `NextActive` says and
        nothing else. */
    method OnPlayNext()
      modifies player
      ensures player.ids == old(player.ids)
      ensures player.activeId == NextActive(old(player.ids), old(player.activeId))
    {
      if |player.ids| == 0 {
        return;
      }
      var currentIndex := FindIndex(player.ids, player.activeId);
      var nextSong := At(player.ids, currentIndex + 1);
      if !Truthy(nextSong) {
        player.SetId(player.ids[0]);
        return;
      }
      player.SetId(nextSong.value);
    }

    /** `onPlayPrevious`: writes the store's active id as `PrevActive` says
        and nothing else. */
    method OnPlayPrevious()
      modifies player
      ensures player.ids == old(player.ids)
      ensures player.activeId == PrevActive(old(player.ids), old(player.activeId))
    {
      if |player.ids| == 0 {
        return;
      }
      var currentIndex := FindIndex(player.ids, player.activeId);
      var previousSong := At(player.ids, currentIndex - 1);
      if !Truthy(previousSong) {
        player.SetId(player.ids[|player.ids| - 1]);
        return;
      }
      player.SetId(previousSong.value);
    }

    /** `handlePlay`: asks to play when not playing and to pause otherwise;
        the flag itself only changes when the library calls back. */
    method HandlePlay() returns (call: SoundCall)
      ensures call == Play <==> !isPlaying
    {
      if !isPlaying {
        call := Play;
      } else {
        call := Pause;
      }
    }

    /** `toggleMute`. */
    method ToggleMute()
      modifies this`volume
      ensures volume == MuteToggled(old(volume))
    {
      if volume == 0.0 {
        volume := 1.0;
      } else {
        volume := 0.0;
      }
    }

    /** The volume slider's `onChange`. */
    method OnSliderChange(value: real)
      modifies this`volume
      ensures volume == value
    {
      volume := value;
    }

    /** The `onplay` callback. */
    method OnSoundPlay()
      modifies this`isPlaying
      ensures isPlaying
    {
      isPlaying := true;
    }

    /** The `onpause` callback. */
    method OnSoundPause()
      modifies this`isPlaying
      ensures !isPlaying
    {
      isPlaying := false;
    }

    /** The `onend` callback: stops the flag, then advances the queue. */
    method OnSoundEnd()
      modifies this`isPlaying, player
      ensures !isPlaying
      ensures player.ids == old(player.ids)
      ensures player.activeId == NextActive(old(player.ids), old(player.activeId))
    {
      isPlaying := false;
      OnPlayNext();
    }
  }
}
