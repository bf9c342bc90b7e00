/** The per-client live-audio session of src/hooks/useLiveKit.ts.

    The hook keeps four pieces of React state (isConnected, isMuted, the
    remote participant list and the local audio track) and a mutable room
    reference. Here the audio SDK is an abstract connection: every call into
    it is an input saying whether it succeeded, and the room's events
    (participant joined or left, data received, connected, disconnected) are
    method calls. The SDK's own microphone switch is the field `micEnabled`,
    so that the model can say when the mute flag and the microphone agree. */
module LiveKitSession {
  import opened Common
  import TokenFunction

  /** A remote participant as the SDK reports it. */
  datatype Participant = Participant(sid: string, identity: string, name: Option<string>, micEnabled: bool, speaking: bool)

  /** The `type` of a moderation command. UNMUTE_REQUEST is declared by the
      protocol and handled by nobody; any other string is UnknownType. */
  datatype CommandType = MuteRequest | HostTransfer | UnmuteRequest | UnknownType

  /** A decoded moderation command; absent JSON fields are None. */
  datatype Command = Command(kind: CommandType, targetId: Option<string>, newHostId: Option<string>, moderatorName: Option<string>)

  /** A data packet handed to publishData: the command it carries and, when
      given, the identities it is addressed to (otherwise a broadcast). */
  datatype Packet = Packet(command: Command, destinations: Option<seq<string>>)

  /** Whether the SDK hands a packet to the participant with this identity. */
  predicate DeliveredTo(p: Packet, identity: string)
  {
    p.destinations.None? || identity in p.destinations.value
  }

  /** What the hook reports to its optional callbacks (or the console). */
  datatype Notice =
    | Silent
    | MuteRequested(moderatorName: string)
    | HostTransferred(newHostId: string)
    | ParticipantLeft(identity: string)
    | ConnectedNotice
    | DisconnectedNotice
    | UnknownCommand
    | ParseError

  /** The hook's state: `hasRoom` is roomRef.current !== null. */
  datatype SessionState = SessionState(
    hasRoom: bool,
    isConnected: bool,
    isMuted: bool,
    micEnabled: bool,
    participants: seq<Participant>,
    audioTrack: Option<string>)

  /** The state of a freshly mounted hook. */
  const Initial := SessionState(false, false, false, false, [], None)

  /** The mute flag shown to the user agrees with the microphone. */
  predicate MicInStep(s: SessionState)
  {
    s.micEnabled == !s.isMuted
  }

  // ---------------------------------------------------------------------------
  // room events

  /** ParticipantConnected: the newcomer goes at the end of the list. */
  function Joined(s: SessionState, p: Participant): (r: SessionState)
    ensures |r.participants| == |s.participants| + 1 && r.participants[|s.participants|] == p
    ensures r.participants[..|s.participants|] == s.participants
    ensures r.(participants := s.participants) == s
  {
    s.(participants := s.participants + [p])
  }

  /** The participants whose sid differs from `sid`, in their order. */
  function WithoutSid(ps: seq<Participant>, sid: string): (r: seq<Participant>)
  {
    Filter(ps, (q: Participant) => q.sid != sid)
  }

  /** ParticipantDisconnected: drop every entry with the departing sid and
      report the departing identity. */
  function Left(s: SessionState, p: Participant): (r: (SessionState, Notice))
    ensures r.1 == ParticipantLeft(p.identity)
    ensures r.0.(participants := s.participants) == s
  {
    (s.(participants := WithoutSid(s.participants, p.sid)), ParticipantLeft(p.identity))
  }

  /** The departure removes exactly the entries with that sid and keeps the
      others in their order; a sid not in the list changes nothing. */
  lemma LeftRemovesExactlyThatSid(s: SessionState, p: Participant)
    ensures forall q :: q in Left(s, p).0.participants <==> q in s.participants && q.sid != p.sid
    ensures IsSubsequence(Left(s, p).0.participants, s.participants)
    ensures (forall i :: 0 <= i < |s.participants| ==> s.participants[i].sid != p.sid) ==> Left(s, p).0 == s
  {
    var keep := (q: Participant) => q.sid != p.sid;
    forall q ensures q in Left(s, p).0.participants <==> q in s.participants && q.sid != p.sid {
      FilterMembership(s.participants, keep, q);
    }
    FilterIsSubsequence(s.participants, keep);
    if forall i :: 0 <= i < |s.participants| ==> s.participants[i].sid != p.sid {
      FilterKeepsAll(s.participants, keep);
    }
  }

  /** A join followed by the same participant's departure restores the list,
      provided nobody with that sid was already present. */
  lemma {:induction false} JoinThenLeave(s: SessionState, p: Participant)
    requires forall i :: 0 <= i < |s.participants| ==> s.participants[i].sid != p.sid
    ensures Left(Joined(s, p), p).0 == s
  {
    var keep := (q: Participant) => q.sid != p.sid;
    FilterKeepsAll(s.participants, keep);
    FilterAppend(s.participants, [p], keep);
    assert Filter([p], keep) == [] by {
      FilterDropsAll([p], keep);
    }
  }

  /** The Connected event. */
  function ConnectedEvent(s: SessionState): (r: (SessionState, Notice))
    ensures r.0.isConnected && r.1 == ConnectedNotice
    ensures r.0.(isConnected := s.isConnected) == s
  {
    (s.(isConnected := true), ConnectedNotice)
  }

  /** The Disconnected event. */
  function DisconnectedEvent(s: SessionState): (r: (SessionState, Notice))
    ensures !r.0.isConnected && r.1 == DisconnectedNotice
    ensures r.0.(isConnected := s.isConnected) == s
  {
    (s.(isConnected := false), DisconnectedNotice)
  }

  // ---------------------------------------------------------------------------
  // moderation commands

  /** A command is processed by `self` unless it names another target; an
      empty targetId counts as no target. */
  predicate Accepts(self: string, c: Command)
  {
    !Truthy(c.targetId) || c.targetId.value == self
  }

  /** DataReceived. `cmd` is None when JSON.parse throws or yields null
      (reading a field of `null` throws); any other JSON value parses and,
      having no known `type`, is an unknown command. `micOk` says
      whether the un-awaited setMicrophoneEnabled(false) takes effect; the mute
      flag is set either way. */
  function Receive(s: SessionState, self: string, cmd: Option<Command>, micOk: bool): (r: (SessionState, Notice))
    ensures r.0.(isMuted := s.isMuted, micEnabled := s.micEnabled) == s
    ensures r.0.isMuted == (s.isMuted || (cmd.Some? && Accepts(self, cmd.value) && cmd.value.kind == MuteRequest))
    ensures r.0.micEnabled != s.micEnabled ==> micOk && !r.0.micEnabled
    ensures cmd.None? ==> r.1 == ParseError
    ensures cmd.Some? && !Accepts(self, cmd.value) ==> r == (s, Silent)
    ensures r.1.MuteRequested? ==> r.1.moderatorName != ""
  {
    if cmd.None? then (s, ParseError)
    else
      var c := cmd.value;
      if !Accepts(self, c) then (s, Silent)
      else match c.kind
        case MuteRequest =>
          (s.(isMuted := true, micEnabled := if micOk then false else s.micEnabled),
           MuteRequested(OrElse(c.moderatorName, "Host")))
        case HostTransfer => (s, HostTransferred(OrElse(c.newHostId, "")))
        case _ => (s, UnknownCommand)
  }

  /** The dispatch table for accepted commands: a mute request mutes whatever
      the prior flag and names the moderator, defaulting to 'Host'; a host
      transfer changes no state and names the new host, defaulting to '';
      an unmute request or an unknown type changes nothing. */
  lemma ReceiveDispatch(s: SessionState, self: string, c: Command, micOk: bool)
    requires Accepts(self, c)
    ensures c.kind == MuteRequest ==>
      Receive(s, self, Some(c), micOk).0.isMuted &&
      Receive(s, self, Some(c), micOk).1 == MuteRequested(if Truthy(c.moderatorName) then c.moderatorName.value else "Host")
    ensures c.kind == MuteRequest && micOk ==> MicInStep(Receive(s, self, Some(c), micOk).0)
    ensures c.kind == HostTransfer ==>
      Receive(s, self, Some(c), micOk) == (s, HostTransferred(if Truthy(c.newHostId) then c.newHostId.value else ""))
    ensures c.kind == UnmuteRequest || c.kind == UnknownType ==> Receive(s, self, Some(c), micOk) == (s, UnknownCommand)
  {
  }

  /** sendMuteCommand's packet: a MUTE_REQUEST naming the target and the
      moderator, addressed to the target alone; nothing without a room. */
  function MuteCommandPacket(hasRoom: bool, target: string, moderatorName: string): (r: Option<Packet>)
    ensures r.Some? <==> hasRoom
    ensures r.Some? ==> r.value.command.kind == MuteRequest && r.value.destinations == Some([target])
  {
    if !hasRoom then None
    else Some(Packet(Command(MuteRequest, Some(target), None, Some(moderatorName)), Some([target])))
  }

  /** sendHostTransferNotification's packet: an untargeted HOST_TRANSFER,
      broadcast to everyone; nothing without a room. */
  function HostTransferPacket(hasRoom: bool, newHostId: string): (r: Option<Packet>)
    ensures r.Some? <==> hasRoom
    ensures r.Some? ==> r.value.command.kind == HostTransfer && r.value.destinations.None?
  {
    if !hasRoom then None
    else Some(Packet(Command(HostTransfer, None, Some(newHostId), None), None))
  }

  /** A mute command for identity X mutes X and is ignored by every other
      receiver, even one that sees it; it is only delivered to X. */
  lemma MuteCommandOnlyMutesTarget(s: SessionState, target: string, moderator: string, self: string, micOk: bool)
    requires target != ""
    ensures var p := MuteCommandPacket(true, target, moderator).value;
      (DeliveredTo(p, self) <==> self == target) &&
      (self == target ==> Receive(s, self, Some(p.command), micOk).0.isMuted &&
                          Receive(s, self, Some(p.command), micOk).1 == MuteRequested(OrElse(Some(moderator), "Host"))) &&
      (self != target ==> Receive(s, self, Some(p.command), micOk) == (s, Silent))
  {
  }

  /** A host transfer reaches every receiver and changes none of their state. */
  lemma HostTransferReachesEveryone(s: SessionState, newHostId: string, self: string, micOk: bool)
    ensures var p := HostTransferPacket(true, newHostId).value;
      DeliveredTo(p, self) &&
      Receive(s, self, Some(p.command), micOk) == (s, HostTransferred(newHostId))
  {
  }

  // ---------------------------------------------------------------------------
  // connect, disconnect, toggleMute

  /** The reply of the token function as the client sees it. */
  datatype TokenReply = TokenError | TokenData(token: Option<string>)

  /** What the environment does during one connect: the token reply, whether
      room.connect and setMicrophoneEnabled(true) resolve, the local
      microphone track if published, and the remote participants present. */
  datatype ConnectEnv = ConnectEnv(reply: TokenReply, joinOk: bool, micOk: bool, localTrack: Option<string>, remotes: seq<Participant>)

  predicate TokenReceived(r: TokenReply)
  {
    r.TokenData? && Truthy(r.token)
  }

  predicate ConnectSucceeds(e: ConnectEnv)
  {
    TokenReceived(e.reply) && e.joinOk && e.micOk
  }

  /** connect. No room is created unless a token arrives. A new room starts
      with the microphone off; joining it emits Connected; the microphone is
      then switched on, the audio track recorded when there is one, and the
      participant list replaced by the room's remote participants. A failure
      at any step stops there and leaves what was done so far. The mute
      flag is never touched. */
  function ConnectState(s: SessionState, e: ConnectEnv): (r: SessionState)
    ensures !TokenReceived(e.reply) ==> r == s
    ensures TokenReceived(e.reply) ==> r.hasRoom
    ensures r.isMuted == s.isMuted
    ensures r.isConnected == (s.isConnected || (TokenReceived(e.reply) && e.joinOk))
    ensures ConnectSucceeds(e) ==>
      r.micEnabled && r.participants == e.remotes &&
      r.audioTrack == (if e.localTrack.Some? then e.localTrack else s.audioTrack)
    ensures !ConnectSucceeds(e) ==> r.participants == s.participants && r.audioTrack == s.audioTrack
    ensures TokenReceived(e.reply) && !ConnectSucceeds(e) ==> !r.micEnabled
  {
    if !TokenReceived(e.reply) then s
    else
      var created := s.(hasRoom := true, micEnabled := false);
      if !e.joinOk then created
      else
        var joined := ConnectedEvent(created).0;
        if !e.micOk then joined
        else joined.(micEnabled := true,
                     audioTrack := if e.localTrack.Some? then e.localTrack else s.audioTrack,
                     participants := e.remotes)
  }

  /** disconnect: with a room, and once room.disconnect resolves, the room,
      the connection flag, the participants and the audio track are cleared;
      the mute flag is left as it was. Without a room nothing happens. */
  function DisconnectState(s: SessionState, ok: bool): (r: SessionState)
    ensures !s.hasRoom || !ok ==> r == s
    ensures s.hasRoom && ok ==> !r.hasRoom && !r.isConnected && !r.micEnabled && r.participants == [] && r.audioTrack.None?
    ensures r.isMuted == s.isMuted
  {
    if !s.hasRoom || !ok then s
    else SessionState(false, false, s.isMuted, false, [], None)
  }

  /** toggleMute: without a room nothing happens; otherwise the microphone is
      set to the opposite of the new mute flag and, only once that call
      resolves, the flag flips. */
  function ToggleMuteState(s: SessionState, micOk: bool): (r: SessionState)
    ensures !s.hasRoom || !micOk ==> r == s
    ensures s.hasRoom && micOk ==> r.isMuted == !s.isMuted && MicInStep(r)
    ensures r.(isMuted := s.isMuted, micEnabled := s.micEnabled) == s
  {
    if !s.hasRoom || !micOk then s
    else s.(isMuted := !s.isMuted, micEnabled := s.isMuted)
  }

  /** Disconnecting twice is disconnecting once, and a disconnect after a
      disconnect is a no-op. */
  lemma DisconnectIdempotent(s: SessionState, ok1: bool, ok2: bool)
    ensures DisconnectState(DisconnectState(s, true), ok2) == DisconnectState(s, true)
    ensures !DisconnectState(s, ok1).hasRoom ==> DisconnectState(DisconnectState(s, ok1), ok2) == DisconnectState(s, ok1)
  {
  }

  /** Two successful toggles restore the mute flag, and restore the whole
      state when the microphone agreed with the flag to begin with. */
  lemma ToggleTwice(s: SessionState)
    ensures ToggleMuteState(ToggleMuteState(s, true), true).isMuted == s.isMuted
    ensures MicInStep(s) ==> ToggleMuteState(ToggleMuteState(s, true), true) == s
  {
  }

  /** A token error or a reply without a token creates no room. */
  lemma NoTokenNoRoom(s: SessionState, e: ConnectEnv)
    requires e.reply.TokenError? || e.reply.token.None? || e.reply.token == Some("")
    ensures ConnectState(s, e) == s
    ensures !s.hasRoom ==> !ConnectState(s, e).hasRoom
  {
  }

  /** Because neither disconnect nor connect resets the mute flag, a
      participant muted by a moderator who leaves and joins again comes back
      with the microphone live while the flag still reads muted. */
  lemma ReconnectAfterMuteRequest(s: SessionState, self: string, c: Command, e: ConnectEnv)
    requires s.hasRoom && Accepts(self, c) && c.kind == MuteRequest && ConnectSucceeds(e)
    ensures var muted := Receive(s, self, Some(c), true).0;
      var back := ConnectState(DisconnectState(muted, true), e);
      MicInStep(muted) && back.isMuted && back.micEnabled && !MicInStep(back)
  {
  }

  /** The session hook itself. The three constants are the hook's options;
      the fields are its state and the room reference. */
  class Session {
    const roomName: string
    const participantName: string
    const participantId: string

    var hasRoom: bool
    var isConnected: bool
    var isMuted: bool
    var micEnabled: bool
    var participants: seq<Participant>
    var audioTrack: Option<string>

    /** The hook's current state as a value. */
    function State(): SessionState
      reads this
    {
      SessionState(hasRoom, isConnected, isMuted, micEnabled, participants, audioTrack)
    }

    constructor(roomName: string, participantName: string, participantId: string)
      ensures State() == Initial
      ensures this.roomName == roomName && this.participantName == participantName && this.participantId == participantId
    {
      this.roomName := roomName;
      this.participantName := participantName;
      this.participantId := participantId;
      hasRoom, isConnected, isMuted, micEnabled := false, false, false, false;
      participants, audioTrack := [], None;
    }

    /** connect: asks the token function for a token with the hook's own
        options (returned as `sent`), then follows ConnectState. `ok` is false
        exactly when connect rejects. */
    method Connect(e: ConnectEnv) returns (ok: bool, sent: TokenFunction.TokenFields)
      modifies this
      ensures sent == TokenFunction.TokenFields(Some(roomName), Some(participantName), Some(participantId))
      ensures State() == ConnectState(old(State()), e)
      ensures ok == ConnectSucceeds(e)
    {
      sent := TokenFunction.TokenFields(Some(roomName), Some(participantName), Some(participantId));
      if !TokenReceived(e.reply) {
        return false, sent;
      }
      hasRoom := true;
      micEnabled := false;
      if !e.joinOk {
        return false, sent;
      }
      isConnected := true;
      if !e.micOk {
        return false, sent;
      }
      micEnabled := true;
      if e.localTrack.Some? {
        audioTrack := e.localTrack;
      }
      participants := e.remotes;
      ok := true;
    }

    /** disconnect; `ok` says whether room.disconnect resolves. */
    method Disconnect(ok: bool) returns (done: bool)
      modifies this
      ensures State() == DisconnectState(old(State()), ok)
      ensures done == (!old(hasRoom) || ok)
    {
      if hasRoom {
        if !ok {
          return false;
        }
        hasRoom := false;
        isConnected := false;
        micEnabled := false;
        participants := [];
        audioTrack := None;
      }
      done := true;
    }

    /** toggleMute; `micOk` says whether setMicrophoneEnabled resolves. */
    method ToggleMute(micOk: bool) returns (done: bool)
      modifies this
      ensures State() == ToggleMuteState(old(State()), micOk)
      ensures done == (!old(hasRoom) || micOk)
    {
      if !hasRoom {
        return true;
      }
      var newMuted := !isMuted;
      if !micOk {
        return false;
      }
      micEnabled := !newMuted;
      isMuted := newMuted;
      done := true;
    }

    method OnParticipantConnected(p: Participant)
      modifies this
      ensures State() == Joined(old(State()), p)
    {
      participants := participants + [p];
    }

    method OnParticipantDisconnected(p: Participant) returns (notice: Notice)
      modifies this
      ensures (State(), notice) == Left(old(State()), p)
    {
      participants := WithoutSid(participants, p.sid);
      notice := ParticipantLeft(p.identity);
    }

    method OnConnected() returns (notice: Notice)
      modifies this
      ensures (State(), notice) == ConnectedEvent(old(State()))
    {
      isConnected := true;
      notice := ConnectedNotice;
    }

    method OnDisconnected() returns (notice: Notice)
      modifies this
      ensures (State(), notice) == DisconnectedEvent(old(State()))
    {
      isConnected := false;
      notice := DisconnectedNotice;
    }

    /** DataReceived, filtered by this hook's participantId. */
    method OnData(cmd: Option<Command>, micOk: bool) returns (notice: Notice)
      modifies this
      ensures (State(), notice) == Receive(old(State()), participantId, cmd, micOk)
    {
      if cmd.None? {
        return ParseError;
      }
      var c := cmd.value;
      if Truthy(c.targetId) && c.targetId.value != participantId {
        return Silent;
      }
      match c.kind {
        case MuteRequest =>
          if micOk {
            micEnabled := false;
          }
          isMuted := true;
          notice := MuteRequested(OrElse(c.moderatorName, "Host"));
        case HostTransfer =>
          notice := HostTransferred(OrElse(c.newHostId, ""));
        case _ =>
          notice := UnknownCommand;
      }
    }

    /** sendMuteCommand: the packet handed to publishData, if any. */
    method SendMuteCommand(target: string, moderatorName: string) returns (sent: Option<Packet>)
      ensures sent == MuteCommandPacket(hasRoom, target, moderatorName)
    {
      if !hasRoom {
        return None;
      }
      var command := Command(MuteRequest, Some(target), None, Some(moderatorName));
      sent := Some(Packet(command, Some([target])));
    }

    /** sendHostTransferNotification: the packet handed to publishData, if any. */
    method SendHostTransferNotification(newHostId: string) returns (sent: Option<Packet>)
      ensures sent == HostTransferPacket(hasRoom, newHostId)
    {
      if !hasRoom {
        return None;
      }
      var command := Command(HostTransfer, None, Some(newHostId), None);
      sent := Some(Packet(command, None));
    }
  }

  /** A session whose options are all non-empty asks for a token that the
      token function grants (given credentials and a working signer), for
      its own identity and name and for its own room. */
  lemma SessionRequestIsGranted(roomName: string, participantName: string, participantId: string,
                                creds: TokenFunction.Credentials)
    requires roomName != "" && participantName != "" && participantId != ""
    requires TokenFunction.CredentialsPresent(creds)
    ensures var r := TokenFunction.Handle(
              TokenFunction.Request("POST", Some(TokenFunction.TokenFields(Some(roomName), Some(participantName), Some(participantId)))),
              creds, true);
      r.status == 200 && r.body.TokenBody? &&
      r.body.token.identity == participantId && r.body.token.grant.room == roomName
  {
  }
}
