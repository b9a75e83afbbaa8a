/**
 * The error enum shared by the player traits of the `common_media` crate.
 * The traits themselves (PlaybackControl, SeekControl, VolumeControl) are the
 * method sets of DesktopMediaPlayer; they carry no logic of their own.
 */
module CommonMedia {

  /** `MediaPlayerErrors`: the library errors are carried as their `to_string()` text. */
  datatype MediaPlayerErrors =
    | ErrorSeeking(message: string)
    | ErrorSeekingUnavailable
    | ErrorGettingPosition
    | ErrorPlaying(message: string)
    | Errorstopping(message: string)
    | ErrorPausing(message: string)
}
