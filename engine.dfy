/**
 * The surface of the native PLPlayerKit engine that the wrapper touches. The engine itself is
 * not modelled: the wrapper sees its times as inputs and drives it through a log of commands.
 */
module Engine {
  import opened Wrappers
  import opened Time

  type Url = string

  /** CoreMedia's `CMTime`: a rational `value / timescale`; timescale 0 marks an invalid time. */
  datatype CMTime = CMTime(value: int, timescale: nat)

  /** `CMTimeGetSeconds` / `.seconds`: NaN for an invalid time. */
  function Seconds(t: CMTime): (s: TimeInterval)
    ensures s.NaN? <==> t.timescale == 0
  {
    if t.timescale == 0 then NaN else Finite(t.value as real / t.timescale as real)
  }

  /** The `kPLPLAY_FORMAT_*` hints the wrapper can pass. */
  datatype StreamFormat = UnknownFormat | MP4 | FLV | MP3 | M3U8

  /** `PLPlayerOption`: only the preferred-format key the wrapper sets is modelled. */
  datatype PlayerOption = PlayerOption(videoPreferFormat: Option<StreamFormat>)

  /** `PLPlayerOption.default()`, with no format preference yet. */
  const DefaultOption := PlayerOption(None)

  /** `PLPlayerStatus`, reduced to the two values the wrapper tests for. */
  datatype EngineStatus = StatusReady | StatusPlaying | StatusOther

  /** Commands the wrapper issues to the engine, in order. */
  datatype Command =
    | Create(url: Url, option: PlayerOption, isLive: bool)
    | Play
    | Pause
    | Stop
    | Seek(to: TimeInterval)
}
