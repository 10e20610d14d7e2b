/** The socket message shapes of server/src/types/socket.ts and client/src/types/socket.ts. */
module Protocol {
  import opened Common

  /** Messages a client sends to the server (`ChangeVideoData`, `PlayPauseSeekData`, `TimeUpdateData`). */
  datatype ToServer =
    | ChangeVideo(videoUrl: string)
    | Play(currentTime: real)
    | Pause(currentTime: real)
    | Seek(currentTime: real)
    | TimeUpdate(currentTime: real)

  /** Messages the server sends to clients; timestamps are milliseconds. */
  datatype ToClient =
    | SessionState(videoUrl: Option<string>, isPlaying: bool, currentTime: real, timestamp: int)
    | VideoChanged(newUrl: string, timestamp: int)
    | Play(currentTime: real, timestamp: int)
    | Pause(currentTime: real, timestamp: int)
    | Seek(currentTime: real, timestamp: int)
    | TimeSync(currentTime: real, timestamp: int)
    | UserCount(count: int)

  /** Who receives a message: `socket.emit`, `socket.broadcast.emit` or `io.emit`. */
  datatype Recipient = ToSender | AllExceptSender | All

  datatype Outbound = Outbound(to: Recipient, msg: ToClient)
}
