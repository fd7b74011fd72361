/** The Daisy cloud client TelecoDaisy: session login, the installation and
    room directory, command submission and acknowledgment polling.  Each call
    that would post to the service takes the service's reply as a parameter. */
module Client {
  import opened DaisyTypes

  /** The variant get_room_list builds for a device type: 21 and 23 lights, 22 shades, 24 covers. */
  function KindFor(deviceType: int): (k: Option<DeviceKind>)
    ensures k == Some(LightKind) <==> deviceType in {21, 23}
    ensures k == Some(ShadeKind) <==> deviceType == 22
    ensures k == Some(CoverKind) <==> deviceType == 24
  {
    if deviceType == 21 || deviceType == 23 then Some(LightKind)
    else if deviceType == 22 then Some(ShadeKind)
    else if deviceType == 24 then Some(CoverKind)
    else None
  }

  /** The devices of one room: each known record becomes its variant, unknown types are dropped. */
  function Classify(inst: Installation, records: seq<DeviceRecord>): (ds: seq<Device>)
    ensures |ds| <= |records|
    ensures forall k :: 0 <= k < |ds| ==> ds[k].installation == inst
    decreases |records|
  {
    if records == [] then []
    else
      var last := records[|records| - 1];
      Classify(inst, records[..|records| - 1]) +
        (match KindFor(last.idDevicetype)
         case Some(k) => [Device(k, last, inst)]
         case None => [])
  }

  function RoomOf(inst: Installation, raw: RawRoom): Room {
    Room(raw.idInstallationRoom, raw.idRoomtype, raw.roomDescription, raw.roomOrder,
         Classify(inst, raw.deviceList))
  }

  /** One room per raw room, in order. */
  function BuildRooms(inst: Installation, raws: seq<RawRoom>): (rooms: seq<Room>)
    ensures |rooms| == |raws|
    ensures forall k :: 0 <= k < |raws| ==> rooms[k] == RoomOf(inst, raws[k])
    decreases |raws|
  {
    if raws == [] then []
    else BuildRooms(inst, raws[..|raws| - 1]) + [RoomOf(inst, raws[|raws| - 1])]
  }

  /** The outcome of get_room_list for a reply. */
  function RoomList(inst: Installation, reply: Reply<seq<RawRoom>>): (r: Result<seq<Room>>)
    ensures r.Err? <==> reply.codEsito != "S"
    ensures r.Err? ==> r.error == ApiError(reply.codEsito)
    ensures r.Ok? ==> |r.value| == |reply.valRisultato|
  {
    if reply.codEsito != "S" then Err(ApiError(reply.codEsito))
    else Ok(BuildRooms(inst, reply.valRisultato))
  }

  /** Classification distributes over concatenation, so the input order is kept. */
  lemma {:induction false} ClassifyAppend(inst: Installation, a: seq<DeviceRecord>, b: seq<DeviceRecord>)
    ensures Classify(inst, a + b) == Classify(inst, a) + Classify(inst, b)
    decreases |b|
  {
    if b == [] {
      assert a + b == a;
    } else {
      var ab := a + b;
      var init := b[..|b| - 1];
      assert ab[..|ab| - 1] == a + init;
      assert ab[|ab| - 1] == b[|b| - 1];
      ClassifyAppend(inst, a, init);
      var tail := match KindFor(b[|b| - 1].idDevicetype)
        case Some(k) => [Device(k, b[|b| - 1], inst)] case None => [];
      assert Classify(inst, ab) == Classify(inst, a + init) + tail;
      assert Classify(inst, b) == Classify(inst, init) + tail;
    }
  }

  /** Every record of a known type yields its variant, every device comes from a record of
      its installation and of a type that maps to its kind, and unknown types yield nothing. */
  lemma {:induction false} ClassifyExactly(inst: Installation, records: seq<DeviceRecord>)
    ensures forall d :: d in Classify(inst, records) ==>
      d.info in records && d.installation == inst && KindFor(d.info.idDevicetype) == Some(d.kind)
    ensures forall r :: r in records && KindFor(r.idDevicetype).Some? ==>
      Device(KindFor(r.idDevicetype).value, r, inst) in Classify(inst, records)
    ensures |Classify(inst, records)| <= |records|
    decreases |records|
  {
    if records != [] {
      var init := records[..|records| - 1];
      ClassifyExactly(inst, init);
      assert records == init + [records[|records| - 1]];
    }
  }

  /** A room with devices of types 21, 22, 23, 24 and 99 yields two lights, one shade and one
      cover, in input order, and the type-99 device is dropped. */
  lemma ClassifyExample(inst: Installation, r21: DeviceRecord, r22: DeviceRecord, r23: DeviceRecord,
                        r24: DeviceRecord, r99: DeviceRecord)
    requires r21.idDevicetype == 21 && r22.idDevicetype == 22 && r23.idDevicetype == 23
    requires r24.idDevicetype == 24 && r99.idDevicetype == 99
    ensures Classify(inst, [r21, r22, r23, r24, r99]) ==
      [Device(LightKind, r21, inst), Device(ShadeKind, r22, inst), Device(LightKind, r23, inst),
       Device(CoverKind, r24, inst)]
  {
    assert [r21][..0] == [];
    assert Classify(inst, [r21]) == [Device(LightKind, r21, inst)];
    assert [r21, r22][..1] == [r21];
    assert Classify(inst, [r21, r22]) == [Device(LightKind, r21, inst), Device(ShadeKind, r22, inst)];
    assert [r21, r22, r23][..2] == [r21, r22];
    assert Classify(inst, [r21, r22, r23]) ==
      [Device(LightKind, r21, inst), Device(ShadeKind, r22, inst), Device(LightKind, r23, inst)];
    assert [r21, r22, r23, r24][..3] == [r21, r22, r23];
    assert Classify(inst, [r21, r22, r23, r24]) ==
      [Device(LightKind, r21, inst), Device(ShadeKind, r22, inst), Device(LightKind, r23, inst),
       Device(CoverKind, r24, inst)];
    assert [r21, r22, r23, r24, r99][..4] == [r21, r22, r23, r24];
  }

  /** The body of a feedthecommands post: the installation's instCode, not its idInstallation. */
  function FeedRequestFor(inst: Installation, commands: seq<Command>, session: Option<string>): FeedRequest {
    FeedRequest(commands, inst.instCode, session, 0, false)
  }

  /** The body of a getackcommand post. */
  datatype AckRequest = AckRequest(id: string, idInstallation: string, idSession: Option<string>)

  /** An ack reply that means "received, not yet processed": poll again. */
  predicate Pending(a: AckReply) {
    a.messageId == "WS-300" && a.messageText == "RCV"
  }

  /** The index of the first ack reply that ends the polling, if any. */
  function FirstDecisive(acks: seq<AckReply>): (k: Option<nat>)
    ensures k.None? <==> forall j :: 0 <= j < |acks| ==> Pending(acks[j])
    ensures k.Some? ==>
      k.value < |acks| && !Pending(acks[k.value]) &&
      forall j :: 0 <= j < k.value ==> Pending(acks[j])
    decreases |acks|
  {
    if acks == [] then None
    else if !Pending(acks[0]) then Some(0)
    else
      match FirstDecisive(acks[1..])
      case None => None
      case Some(k) => Some(k + 1)
  }

  /** A reply that ends the polling: the message id must be WS-300, then PROC is success
      and any other text is failure. */
  function Judge(a: AckReply): (r: Result<bool>)
    ensures r.Err? <==> a.messageId != "WS-300"
    ensures r == Ok(true) <==> a == AckReply("WS-300", "PROC")
  {
    if a.messageId != "WS-300" then Err(AckProtocolError(a.messageId))
    else Ok(a.messageText == "PROC")
  }

  /** The outcome of _get_ack over a finite sequence of replies. */
  function AckOutcome(acks: seq<AckReply>): (r: Result<bool>)
    ensures r == Err(PollsExhausted) <==> forall j :: 0 <= j < |acks| ==> Pending(acks[j])
  {
    match FirstDecisive(acks)
    case None => Err(PollsExhausted)
    case Some(k) => Judge(acks[k])
  }

  /** How many replies _get_ack reads. */
  function AckPolls(acks: seq<AckReply>): nat {
    match FirstDecisive(acks)
    case None => |acks|
    case Some(k) => k + 1
  }

  /** Polling succeeds exactly when some reply is (WS-300, PROC) and every reply before it is (WS-300, RCV). */
  lemma AckSucceedsIff(acks: seq<AckReply>)
    ensures AckOutcome(acks) == Ok(true) <==>
      exists k :: 0 <= k < |acks| && acks[k] == AckReply("WS-300", "PROC") &&
        forall j :: 0 <= j < k ==> Pending(acks[j])
  {
    if AckOutcome(acks) == Ok(true) {
      var k := FirstDecisive(acks).value;
      assert acks[k] == AckReply("WS-300", "PROC");
    }
    if exists k :: 0 <= k < |acks| && acks[k] == AckReply("WS-300", "PROC") &&
        forall j :: 0 <= j < k ==> Pending(acks[j]) {
      var k :| 0 <= k < |acks| && acks[k] == AckReply("WS-300", "PROC") &&
        forall j :: 0 <= j < k ==> Pending(acks[j]);
      var f := FirstDecisive(acks);
      assert !Pending(acks[k]);
      assert f.Some? && f.value == k;
    }
  }

  /** The first reply that is not (WS-300, RCV) decides the poll: another message id is a protocol
      error, and a WS-300 reply succeeds exactly when its text is PROC. */
  lemma AckOutcomeDecided(acks: seq<AckReply>, k: nat)
    requires k < |acks| && !Pending(acks[k]) && forall j :: 0 <= j < k ==> Pending(acks[j])
    ensures acks[k].messageId != "WS-300" ==> AckOutcome(acks) == Err(AckProtocolError(acks[k].messageId))
    ensures acks[k].messageId == "WS-300" ==> AckOutcome(acks) == Ok(acks[k].messageText == "PROC")
    ensures AckPolls(acks) == k + 1
  {
    assert FirstDecisive(acks) == Some(k);
  }

  /** Replies RCV, RCV, PROC: success after exactly three polls. */
  lemma AckExample()
    ensures var acks := [AckReply("WS-300", "RCV"), AckReply("WS-300", "RCV"), AckReply("WS-300", "PROC")];
      AckOutcome(acks) == Ok(true) && AckPolls(acks) == 3
  {
    var acks := [AckReply("WS-300", "RCV"), AckReply("WS-300", "RCV"), AckReply("WS-300", "PROC")];
    assert acks[1..][1..] == [AckReply("WS-300", "PROC")];
  }

  /** What feed_the_commands returns for a submission reply and the ack replies that follow. */
  function FeedOutcome(ignoreAck: bool, submit: SubmitReply, acks: seq<AckReply>): (r: Result<Option<bool>>)
    ensures submit.messageId != "WS-000" ==> r == Err(CommandRejected(submit.messageId))
    ensures submit.messageId == "WS-000" && ignoreAck ==> r == Ok(None)
    ensures r == Ok(Some(true)) <==> submit.messageId == "WS-000" && !ignoreAck && AckOutcome(acks) == Ok(true)
  {
    if submit.messageId != "WS-000" then Err(CommandRejected(submit.messageId))
    else if ignoreAck then Ok(None)
    else match AckOutcome(acks) case Ok(b) => Ok(Some(b)) case Err(e) => Err(e)
  }

  class TelecoDaisy {
    var idAccount: Option<int>
    var idSession: Option<string>

    constructor ()
      ensures idAccount == None && idSession == None
    {
      idAccount := None;
      idSession := None;
    }

    /** login: a reply whose codEsito is not "S" raises and changes nothing; otherwise the account
        and session ids are stored and returned. */
    method Login(reply: Reply<Credentials>) returns (r: Result<(int, string)>)
      modifies this
      ensures reply.codEsito != "S" ==>
        r == Err(ApiError(reply.codEsito)) && idAccount == old(idAccount) && idSession == old(idSession)
      ensures reply.codEsito == "S" ==>
        && r == Ok((reply.valRisultato.idAccount, reply.valRisultato.idSession))
        && idAccount == Some(reply.valRisultato.idAccount)
        && idSession == Some(reply.valRisultato.idSession)
    {
      if reply.codEsito != "S" {
        return Err(ApiError(reply.codEsito));
      }
      idAccount := Some(reply.valRisultato.idAccount);
      idSession := Some(reply.valRisultato.idSession);
      r := Ok((reply.valRisultato.idAccount, reply.valRisultato.idSession));
    }

    /** get_account_installation_list: the installations of the reply, in order. */
    method GetAccountInstallationList(reply: Reply<seq<Installation>>) returns (r: Result<seq<Installation>>)
      ensures reply.codEsito != "S" ==> r == Err(ApiError(reply.codEsito))
      ensures reply.codEsito == "S" ==> r == Ok(reply.valRisultato)
    {
      if reply.codEsito != "S" {
        return Err(ApiError(reply.codEsito));
      }
      var list := reply.valRisultato;
      var installations: seq<Installation> := [];
      var i := 0;
      while i < |list|
        invariant 0 <= i <= |list|
        invariant installations == list[..i]
      {
        installations := installations + [list[i]];
        i := i + 1;
      }
      assert list[..i] == list;
      r := Ok(installations);
    }

    /** get_room_list: one room per entry of the reply and, in each, the devices of known type in order. */
    method GetRoomList(inst: Installation, reply: Reply<seq<RawRoom>>) returns (r: Result<seq<Room>>)
      ensures r == RoomList(inst, reply)
    {
      if reply.codEsito != "S" {
        return Err(ApiError(reply.codEsito));
      }
      var raws := reply.valRisultato;
      var rooms: seq<Room> := [];
      var i := 0;
      while i < |raws|
        invariant 0 <= i <= |raws|
        invariant rooms == BuildRooms(inst, raws[..i])
      {
        var raw := raws[i];
        var records := raw.deviceList;
        var devices: seq<Device> := [];
        var j := 0;
        while j < |records|
          invariant 0 <= j <= |records|
          invariant devices == Classify(inst, records[..j])
        {
          var rec := records[j];
          if rec.idDevicetype == 21 || rec.idDevicetype == 23 {
            devices := devices + [Device(LightKind, rec, inst)];
          } else if rec.idDevicetype == 22 {
            devices := devices + [Device(ShadeKind, rec, inst)];
          } else if rec.idDevicetype == 24 {
            devices := devices + [Device(CoverKind, rec, inst)];
          }
          assert records[..j + 1][..j] == records[..j];
          j := j + 1;
        }
        assert records[..j] == records;
        rooms := rooms + [Room(raw.idInstallationRoom, raw.idRoomtype, raw.roomDescription, raw.roomOrder, devices)];
        assert raws[..i + 1][..i] == raws[..i];
        i := i + 1;
      }
      assert raws[..i] == raws;
      r := Ok(rooms);
    }

    /** _get_ack as a loop: poll while the reply is (WS-300, RCV); the first other reply decides.
        Every poll posts the same request. */
    method GetAck(inst: Installation, actionReference: string, acks: seq<AckReply>)
      returns (request: AckRequest, r: Result<bool>, polls: nat)
      ensures request == AckRequest(actionReference, inst.instCode, idSession)
      ensures r == AckOutcome(acks) && polls == AckPolls(acks)
    {
      request := AckRequest(actionReference, inst.instCode, idSession);
      polls := 0;
      while polls < |acks| && Pending(acks[polls])
        invariant 0 <= polls <= |acks|
        invariant forall j :: 0 <= j < polls ==> Pending(acks[j])
      {
        polls := polls + 1;
      }
      if polls == |acks| {
        r := Err(PollsExhausted);
      } else {
        var reply := acks[polls];
        polls := polls + 1;
        if reply.messageId != "WS-300" {
          r := Err(AckProtocolError(reply.messageId));
        } else if reply.messageText == "PROC" {
          r := Ok(true);
        } else {
          r := Ok(false);
        }
      }
    }

    /** feed_the_commands: posts the batch with instCode, idScenario 0 and isScenario false; a reply
        other than WS-000 raises; with ignoreAck the result is None without polling; otherwise the
        acknowledgment decides. */
    method FeedTheCommands(inst: Installation, commands: seq<Command>, ignoreAck: bool,
                           submit: SubmitReply, acks: seq<AckReply>)
      returns (request: FeedRequest, r: Result<Option<bool>>, polls: nat)
      ensures request == FeedRequestFor(inst, commands, idSession)
      ensures request.idInstallation == inst.instCode && request.idScenario == 0 && !request.isScenario
      ensures submit.messageId != "WS-000" ==> r == Err(CommandRejected(submit.messageId)) && polls == 0
      ensures submit.messageId == "WS-000" && ignoreAck ==> r == Ok(None) && polls == 0
      ensures submit.messageId == "WS-000" && !ignoreAck ==>
        polls == AckPolls(acks) &&
        r == (match AckOutcome(acks) case Ok(b) => Ok(Some(b)) case Err(e) => Err(e))
      ensures r == FeedOutcome(ignoreAck, submit, acks)
    {
      request := FeedRequestFor(inst, commands, idSession);
      polls := 0;
      if submit.messageId != "WS-000" {
        return request, Err(CommandRejected(submit.messageId)), 0;
      }
      if ignoreAck {
        return request, Ok(None), 0;
      }
      var _, ack, n := GetAck(inst, submit.actionReference, acks);
      polls := n;
      r := match ack case Ok(b) => Ok(Some(b)) case Err(e) => Err(e);
    }
  }
}
