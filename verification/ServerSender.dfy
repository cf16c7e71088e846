/** The client's shared record of its server (src/helpers/server_sender.rs) and
    the single-flight flag that `TryConnectGuard` claims on it
    (src/helpers/get_internal_websocket.rs:49-86). */
module ServerSenders {
  import opened Results

  /** Names the outgoing channel of one connection. */
  type ChannelId = nat

  /** The notice task `sx_drop` spawns: a Disconnect for the channel it took. */
  datatype Notice = Notice(channel: ChannelId, serverIp: string)

  datatype SenderState = SenderState(
    sx: Option<ChannelId>, serverIp: string, receivedTimes: int, isTryConnect: bool, isScanning: bool)

  function TryClaim(s: SenderState): (bool, SenderState) {
    (!s.isTryConnect, s.(isTryConnect := true))
  }

  function Release(s: SenderState): SenderState {
    s.(isTryConnect := false)
  }

  function TryClaimScan(s: SenderState): (bool, SenderState) {
    (!s.isScanning, s.(isScanning := true))
  }

  function ReleaseScan(s: SenderState): SenderState {
    s.(isScanning := false)
  }

  function DropSx(s: SenderState): (Option<Notice>, SenderState) {
    if s.sx.None? then (None, s) else (Some(Notice(s.sx.value, s.serverIp)), s.(sx := None))
  }

  function Add(s: SenderState, channel: ChannelId, serverIp: string): (Option<Notice>, SenderState) {
    var (notice, dropped) := DropSx(s);
    (notice, dropped.(sx := Some(channel), serverIp := serverIp))
  }

  function RemoveIp(s: SenderState): (Option<Notice>, SenderState) {
    if s.serverIp == "" then (None, s)
    else
      var (notice, dropped) := DropSx(s);
      (notice, dropped.(serverIp := ""))
  }

  predicate IsValidServerIp(s: SenderState, retrySeconds: nat, now: int) {
    s.serverIp != "" && s.receivedTimes + (if retrySeconds == 0 then 1 else retrySeconds) * 2 > now
  }

  /** Each method is one critical section under the source's write lock. */
  class ServerSender {
    var sx: Option<ChannelId>
    var serverIp: string
    var receivedTimes: int
    var isTryConnect: bool
    var isScanning: bool

    function State(): SenderState
      reads this
    {
      SenderState(sx, serverIp, receivedTimes, isTryConnect, isScanning)
    }

    constructor (serverIp: string)
      ensures State() == SenderState(None, serverIp, 0, false, false)
    {
      this.sx, this.serverIp, this.receivedTimes := None, serverIp, 0;
      this.isTryConnect, this.isScanning := false, false;
    }

    /** `TryConnectGuard::try_acquire`. */
    method TryAcquire() returns (acquired: bool)
      modifies this`isTryConnect
      ensures acquired <==> !old(isTryConnect)
      ensures isTryConnect
      ensures (acquired, State()) == TryClaim(old(State()))
    {
      if isTryConnect {
        return false;
      }
      isTryConnect := true;
      return true;
    }

    method TryBeginScan() returns (acquired: bool)
      modifies this`isScanning
      ensures acquired <==> !old(isScanning)
      ensures isScanning
      ensures (acquired, State()) == TryClaimScan(old(State()))
    {
      if isScanning {
        return false;
      }
      isScanning := true;
      return true;
    }

    method SxDrop() returns (notice: Option<Notice>)
      modifies this`sx
      ensures sx == None
      ensures notice.Some? <==> old(sx).Some?
      ensures notice.Some? ==> notice.value.channel == old(sx).value && notice.value.serverIp == serverIp
      ensures (notice, State()) == DropSx(old(State()))
    {
      notice := None;
      if sx.Some? {
        notice := Some(Notice(sx.value, serverIp));
        sx := None;
      }
    }

    method AddChannel(channel: ChannelId, newIp: string) returns (notice: Option<Notice>)
      modifies this`sx, this`serverIp
      ensures sx == Some(channel) && serverIp == newIp
      ensures notice.Some? <==> old(sx).Some?
      ensures notice.Some? ==> notice.value.channel == old(sx).value && notice.value.serverIp == old(serverIp)
      ensures (notice, State()) == Add(old(State()), channel, newIp)
    {
      notice := SxDrop();
      sx := Some(channel);
      serverIp := newIp;
    }

    /** Afterwards there is no address, and no sender that had one. */
    method ClearIp() returns (notice: Option<Notice>)
      modifies this`sx, this`serverIp
      ensures serverIp == ""
      ensures sx == if old(serverIp) != "" then None else old(sx)
      ensures notice.Some? <==> old(serverIp) != "" && old(sx).Some?
      ensures notice.Some? ==> notice.value.channel == old(sx).value && notice.value.serverIp == old(serverIp)
      ensures (notice, State()) == RemoveIp(old(State()))
    {
      notice := None;
      if serverIp != "" {
        notice := SxDrop();
        serverIp := "";
      }
    }
  }
}
