/** The heartbeat strategies of src/core/ping.rs. */
module Ping {
  import opened Prelude
  import opened Wire

  datatype PongResult =
    | NotPong
    | PongReceived(rtt: Option<nat>)
    | InvalidPong
    | ReplyWith(frame: Frame)

  /** The calls a session makes on its ping strategy that can change it. */
  datatype PingCall =
    | StrategyCleared
    | PingCreated(at: Instant, made: Option<Frame>)
    | FrameExamined(frame: Frame, at: Instant, result: PongResult)

  type PingHistory = seq<PingCall>

  /** Any `WsPingPongStrategy`: its answers are functions of the calls made on it. */
  datatype Strategy = Strategy(
    stale: (PingHistory, Instant) -> bool,
    create: (PingHistory, Instant) -> Option<Frame>,
    examine: (PingHistory, Frame, Instant) -> PongResult)
}
