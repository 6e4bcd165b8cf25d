/** The transport-neutral frame of src/core/frame.rs. */
module Wire {
  import opened Prelude
  import Utf8

  datatype CloseFrame = CloseFrame(code: nat, reason: string)

  datatype Frame =
    | Text(payload: Bytes)
    | Binary(payload: Bytes)
    | Ping(payload: Bytes)
    | Pong(payload: Bytes)
    | Close(frame: Option<CloseFrame>)

  /** `into_ws_frame`: text when the bytes are valid UTF-8, binary otherwise. */
  function IntoFrame(payload: Bytes): Frame {
    if Utf8.Valid(payload) then Text(payload) else Binary(payload)
  }
}
