/** The session's dispatch of frames, and its streams as the objects the source makes of them. */
module WsSession {
  import opened Wire
  import opened StreamIds
  import opened WsFrame

  /** What a session does with a frame from its peer. */
  datatype Action =
    | Reject
    | Ignore
    | OpenStream(dir: StreamDir, keep: bool)
    | DeliverData(keep: bool)
    | DeliverReset
    | DeliverStop
    | CloseSession

  function Dispatch(isServer: bool, sendTable: set<StreamId>, recvTable: set<StreamId>, frame: Frame): Action {
    match frame
    case StreamFrame(s) =>
      if !CanRecv(s.id, isServer) then Reject
      else if s.id in recvTable then DeliverData(!s.fin)
      else if isServer == ServerInitiated(s.id) then Ignore
      else OpenStream(Dir(s.id), !s.fin)
    case ResetStream(id, _) =>
      if !CanRecv(id, isServer) then Reject else if id in recvTable then DeliverReset else Ignore
    case StopSending(id, _) =>
      if !CanSend(id, isServer) then Reject else if id in sendTable then DeliverStop else Ignore
    case ConnectionClose(_, _) => CloseSession
  }

  /** The rules in words: who may send and receive decides refusals, the tables decide where a frame goes. */
  lemma DispatchRules(isServer: bool, sendTable: set<StreamId>, recvTable: set<StreamId>, frame: Frame)
    ensures var a := Dispatch(isServer, sendTable, recvTable, frame);
            && (a.Reject? <==> || (frame.StreamFrame? && !CanRecv(frame.stream.id, isServer))
                               || (frame.ResetStream? && !CanRecv(frame.id, isServer))
                               || (frame.StopSending? && !CanSend(frame.id, isServer)))
            && (a.DeliverData? <==> frame.StreamFrame? && CanRecv(frame.stream.id, isServer) && frame.stream.id in recvTable)
            && (a.OpenStream? <==> && frame.StreamFrame? && CanRecv(frame.stream.id, isServer)
                                   && frame.stream.id !in recvTable && ServerInitiated(frame.stream.id) != isServer)
            && (a.DeliverReset? <==> frame.ResetStream? && CanRecv(frame.id, isServer) && frame.id in recvTable)
            && (a.DeliverStop? <==> frame.StopSending? && CanSend(frame.id, isServer) && frame.id in sendTable)
            && (a.CloseSession? <==> frame.ConnectionClose?)
            && (a.DeliverData? || a.OpenStream? ==> (a.keep <==> !frame.stream.fin))
            && (a.OpenStream? ==> a.dir == Dir(frame.stream.id))
  {
  }
}
