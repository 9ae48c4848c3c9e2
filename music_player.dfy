/** The track player component (app/components/MusicPlayer.tsx): a time formatter, the
    speaker icon for a volume level, and the player state, which the controls change only
    once a sound is loaded. */
module MusicPlayer {
  import opened Common

  /** JavaScript's `%`: the remainder takes the sign of the dividend. */
  function JsRem(a: int, b: int): (r: int)
    requires b > 0
    ensures a >= 0 ==> r == a % b
    ensures a < 0 ==> r == -((-a) % b)
  {
    if a >= 0 then a % b else -((-a) % b)
  }

  /** The seconds as formatTime writes them: a leading zero below ten. */
  function SecondsText(seconds: int): string
  {
    (if seconds < 10 then "0" else "") + IntToString(seconds)
  }

  /** formatTime: whole seconds of the milliseconds, written as minutes, a colon, and the
      remaining seconds. */
  function FormatTime(millis: real): (r: string)
  {
    var totalSeconds := (millis / 1000.0).Floor;
    var minutes := totalSeconds / 60;
    var seconds := JsRem(totalSeconds, 60);
    IntToString(minutes) + ":" + SecondsText(seconds)
  }

  /** Seconds below 60 are written as two digits that read back as the seconds. */
  lemma SecondsReadBack(seconds: nat)
    requires seconds < 60
    ensures var s := SecondsText(seconds);
            && |s| == 2 && AllDigits(s) && DigitsValue(s) == seconds
  {
    var s := SecondsText(seconds);
    NatToStringLength(seconds);
    NatToStringRoundTrip(seconds);
    if seconds < 10 {
      assert s[..1] == "0";
      assert DigitsValue(s[..1]) == 0;
      assert [s[1]] == NatToString(seconds);
    }
  }

  /** A text joined at a colon before a two-character tail splits back into its parts. */
  lemma ColonSplit(m: string, s: string)
    requires |s| == 2
    ensures var r := m + ":" + s;
            && |r| == |m| + 3 && r[|r| - 3] == ':' && r[..|r| - 3] == m && r[|r| - 2..] == s
  {
    var r := m + ":" + s;
    assert r[..|r| - 3] == m;
    assert r[|r| - 2..] == s;
  }

  /** For a time that is not negative the text reads back as minutes, a colon and exactly two
      digits of seconds below 60, and minutes * 60 + seconds is the number of whole seconds. */
  lemma FormatTimeReadsBack(millis: real)
    requires millis >= 0.0
    ensures var r := FormatTime(millis);
            && |r| >= 4 && r[|r| - 3] == ':'
            && AllDigits(r[..|r| - 3]) && AllDigits(r[|r| - 2..])
            && DigitsValue(r[|r| - 2..]) < 60
            && DigitsValue(r[..|r| - 3]) * 60 + DigitsValue(r[|r| - 2..]) == (millis / 1000.0).Floor
  {
    var total := (millis / 1000.0).Floor;
    assert total >= 0;
    var minutes: nat := total / 60;
    var seconds: nat := JsRem(total, 60);
    assert minutes * 60 + seconds == total;
    NatToStringRoundTrip(minutes);
    SecondsReadBack(seconds);
    ColonSplit(IntToString(minutes), SecondsText(seconds));
  }

  /** The speaker icons, from quietest to loudest. */
  datatype SpeakerIcon = VolumeMute | VolumeLow | VolumeMedium | VolumeHigh

  function IconName(icon: SpeakerIcon): string
  {
    match icon
    case VolumeMute => "volume-mute"
    case VolumeLow => "volume-low"
    case VolumeMedium => "volume-medium"
    case VolumeHigh => "volume-high"
  }

  function Loudness(icon: SpeakerIcon): nat
  {
    match icon
    case VolumeMute => 0
    case VolumeLow => 1
    case VolumeMedium => 2
    case VolumeHigh => 3
  }

  /** getSpeakerIcon: mute at exactly zero, low below 0.33, medium below 0.66, high from
      there on. */
  function SpeakerIconFor(volume: real): (icon: SpeakerIcon)
    ensures icon == VolumeMute <==> volume == 0.0
    ensures icon == VolumeLow <==> volume != 0.0 && volume < 0.33
    ensures icon == VolumeMedium <==> 0.33 <= volume < 0.66
    ensures icon == VolumeHigh <==> 0.66 <= volume
  {
    if volume == 0.0 then VolumeMute
    else if volume < 0.33 then VolumeLow
    else if volume < 0.66 then VolumeMedium
    else VolumeHigh
  }

  /** Over the slider's range, a louder volume never shows a quieter icon, and the four icon
      names are distinct. */
  lemma SpeakerIconMonotone(v1: real, v2: real)
    requires 0.0 <= v1 <= v2
    ensures Loudness(SpeakerIconFor(v1)) <= Loudness(SpeakerIconFor(v2))
    ensures forall a: SpeakerIcon, b: SpeakerIcon :: IconName(a) == IconName(b) ==> a == b
  {
  }

  /** A playback status as the sound engine reports it. */
  datatype PlaybackStatus = PlaybackStatus(isLoaded: bool, positionMillis: real, isPlaying: bool)

  /** A command sent to the loaded sound. */
  datatype SoundCommand = Pause | Play | SetVolume(volume: real) | SetPosition(position: real)

  /** The player's state; `commands` are the calls made on the sound so far. */
  class Player {
    var soundLoaded: bool
    var isPlaying: bool
    var volume: real
    var position: real
    var duration: real
    var commands: seq<SoundCommand>

    /** A new player: no sound, paused, full volume, at the start, of unknown length. */
    constructor ()
      ensures !soundLoaded && !isPlaying && volume == 1.0 && position == 0.0 && duration == 0.0
      ensures commands == []
    {
      soundLoaded := false;
      isPlaying := false;
      volume := 1.0;
      position := 0.0;
      duration := 0.0;
      commands := [];
    }

    /** The sound has been created: its duration, or 0 when the engine reports none. */
    method SoundLoaded(durationMillis: Option<real>)
      modifies this
      ensures soundLoaded
      ensures duration == (if durationMillis.Some? then durationMillis.value else 0.0)
      ensures isPlaying == old(isPlaying) && volume == old(volume) && position == old(position)
      ensures commands == old(commands)
    {
      soundLoaded := true;
      duration := if durationMillis.Some? then durationMillis.value else 0.0;
    }

    /** handlePlayPause: with a sound, pauses a playing sound or plays a paused one and flips
      `isPlaying`; without one, nothing happens. */
    method HandlePlayPause()
      modifies this
      ensures soundLoaded == old(soundLoaded) && volume == old(volume) && position == old(position)
      ensures duration == old(duration)
      ensures !old(soundLoaded) ==> isPlaying == old(isPlaying) && commands == old(commands)
      ensures old(soundLoaded) ==> isPlaying == !old(isPlaying)
      ensures old(soundLoaded) ==> commands == old(commands) + [if old(isPlaying) then Pause else Play]
    {
      if soundLoaded {
        if isPlaying {
          commands := commands + [Pause];
        } else {
          commands := commands + [Play];
        }
        isPlaying := !isPlaying;
      }
    }

    /** handleVolumeChange: with a sound, sets its volume and the shown volume. */
    method HandleVolumeChange(value: real)
      modifies this
      ensures soundLoaded == old(soundLoaded) && isPlaying == old(isPlaying) && position == old(position)
      ensures duration == old(duration)
      ensures volume == (if old(soundLoaded) then value else old(volume))
      ensures commands == old(commands) + (if old(soundLoaded) then [SetVolume(value)] else [])
    {
      if soundLoaded {
        commands := commands + [SetVolume(value)];
        volume := value;
      }
    }

    /** handleSeek: with a sound, moves its position and the shown position. */
    method HandleSeek(value: real)
      modifies this
      ensures soundLoaded == old(soundLoaded) && isPlaying == old(isPlaying) && volume == old(volume)
      ensures duration == old(duration)
      ensures position == (if old(soundLoaded) then value else old(position))
      ensures commands == old(commands) + (if old(soundLoaded) then [SetPosition(value)] else [])
    {
      if soundLoaded {
        commands := commands + [SetPosition(value)];
        position := value;
      }
    }

    /** The playback status callback: a loaded status sets the position and the playing flag;
      any other status changes nothing. */
    method OnPlaybackStatusUpdate(status: PlaybackStatus)
      modifies this
      ensures soundLoaded == old(soundLoaded) && volume == old(volume) && duration == old(duration)
      ensures commands == old(commands)
      ensures position == (if status.isLoaded then status.positionMillis else old(position))
      ensures isPlaying == (if status.isLoaded then status.isPlaying else old(isPlaying))
    {
      if status.isLoaded {
        position := status.positionMillis;
        isPlaying := status.isPlaying;
      }
    }

    /** The play button shows "pause" while playing and "play" otherwise. */
    function PlayButtonIcon(): (name: string)
      reads this
      ensures name == "pause" <==> isPlaying
      ensures name == "play" <==> !isPlaying
    {
      if isPlaying then "pause" else "play"
    }

    /** The speaker icon for the current volume. */
    function SpeakerIcon(): (icon: SpeakerIcon)
      reads this
      ensures icon == SpeakerIconFor(volume)
    {
      SpeakerIconFor(volume)
    }
  }

  /** Without a sound, no control reaches the sound engine: a sequence of play/pause, volume
      and seek presses leaves the player as it was. */
  method ControlsWithoutSound(p: Player, volume: real, seek: real)
    requires !p.soundLoaded
    modifies p
    ensures p.isPlaying == old(p.isPlaying) && p.volume == old(p.volume) && p.position == old(p.position)
    ensures p.commands == old(p.commands)
  {
    p.HandlePlayPause();
    p.HandleVolumeChange(volume);
    p.HandleSeek(seek);
  }

  /** Pressing play/pause twice with a sound returns to the same playing state. */
  method PlayPauseTwice(p: Player)
    requires p.soundLoaded
    modifies p
    ensures p.isPlaying == old(p.isPlaying)
    ensures p.commands == old(p.commands) + (if old(p.isPlaying) then [Pause, Play] else [Play, Pause])
  {
    p.HandlePlayPause();
    p.HandlePlayPause();
  }
}
