/** The device variants as objects: DaisyLight and DaisyCover (which also stands
    for DaisyShade, whose code is the same apart from its command table).  Their
    status fields are updated in place from a status-device-list reply, and each
    action posts one single-command batch through the client. */
module Devices {
  import opened DaisyTypes
  import opened StatusCodec
  import opened CommandTables
  import opened Client

  /** The batch an action posts, if its command could be built, and what the call returns. */
  function SendOutcome(client: TelecoDaisy, inst: Installation, cmd: Result<Command>,
                       submit: SubmitReply, acks: seq<AckReply>): (Option<FeedRequest>, Result<Option<bool>>)
    reads client
  {
    match cmd
    case Err(e) => (None, Err(e))
    case Ok(c) => (Some(FeedRequestFor(inst, [c], client.idSession)), FeedOutcome(false, submit, acks))
  }

  /** Posts one built command through feed_the_commands; a command that could not be built raises first. */
  method Send(client: TelecoDaisy, inst: Installation, cmd: Result<Command>, submit: SubmitReply, acks: seq<AckReply>)
    returns (request: Option<FeedRequest>, r: Result<Option<bool>>)
    ensures (request, r) == SendOutcome(client, inst, cmd, submit, acks)
    ensures request.Some? ==> |request.value.commandsList| == 1
  {
    if cmd.Err? {
      return None, Err(cmd.error);
    }
    var req, res, _ := client.FeedTheCommands(inst, [cmd.value], false, submit, acks);
    request, r := Some(req), res;
  }

  /** A call whose Python method does not return the feed result: only its exception shows. */
  function Discarded(r: Result<Option<bool>>): Result<Option<bool>> {
    match r
    case Ok(_) => Ok(None)
    case Err(e) => Err(e)
  }

  class DaisyLight {
    const device: Device
    const client: TelecoDaisy
    var isOn: Option<bool>
    var brightness: Option<int>
    var rgb: Option<Rgb>

    function State(): LightState
      reads this
    {
      LightState(isOn, brightness, rgb)
    }

    constructor (device: Device, client: TelecoDaisy)
      ensures this.device == device && this.client == client
      ensures State() == UnknownLight
    {
      this.device := device;
      this.client := client;
      isOn, brightness, rgb := None, None, None;
    }

    /** update_state: a reply other than "S" raises and changes nothing; otherwise the status items
        are folded into the fields in order, and a malformed number stops the loop where it occurs. */
    method UpdateState(reply: Reply<seq<StatusItem>>) returns (failure: Option<Error>)
      modifies this
      ensures reply.codEsito != "S" ==> failure == Some(ApiError(reply.codEsito)) && State() == old(State())
      ensures reply.codEsito == "S" ==> Decoded(State(), failure) == DecodeLight(old(State()), reply.valRisultato)
    {
      if reply.codEsito != "S" {
        return Some(ApiError(reply.codEsito));
      }
      var items := reply.valRisultato;
      var i := 0;
      while i < |items|
        invariant 0 <= i <= |items|
        invariant DecodeLight(old(State()), items) == DecodeLight(State(), items[i..])
      {
        var item := items[i];
        assert items[i..][0] == item && items[i..][1..] == items[i + 1..];
        if item.statusitemCode == "POWER" {
          isOn := Some(item.statusValue == "ON");
        }
        if item.statusitemCode == "COLOR" {
          var v := item.statusValue;
          var b := DecodeBrightness(v);
          if b.Err? {
            return Some(b.error);
          }
          brightness := Some(b.value);
          var c := DecodeRgb(v);
          if c.Err? {
            return Some(c.error);
          }
          rgb := Some(c.value);
        }
        i := i + 1;
      }
      failure := None;
    }

    /** turn_on: one POWER "ON" command from the light table. */
    method TurnOn(submit: SubmitReply, acks: seq<AckReply>) returns (request: Option<FeedRequest>, r: Result<Option<bool>>)
      ensures (request, r) == SendOutcome(client, device.installation, TurnOnCommand(device.info), submit, acks)
    {
      request, r := Send(client, device.installation, TurnOnCommand(device.info), submit, acks);
    }

    /** turn_off: one POWER "OFF" command from the light table. */
    method TurnOff(submit: SubmitReply, acks: seq<AckReply>) returns (request: Option<FeedRequest>, r: Result<Option<bool>>)
      ensures (request, r) == SendOutcome(client, device.installation, TurnOffCommand(device.info), submit, acks)
    {
      request, r := Send(client, device.installation, TurnOffCommand(device.info), submit, acks);
    }

    /** set_rgb_and_brightness: defaults from the stored fields, range checks before anything is
        posted, then one COLOR command whose parameter encodes the brightness and colour. */
    method SetRgbAndBrightness(rgbArg: Option<Rgb>, brightnessArg: Option<int>, submit: SubmitReply, acks: seq<AckReply>)
      returns (request: Option<FeedRequest>, r: Result<Option<bool>>)
      ensures (request, r) ==
        SendOutcome(client, device.installation, SetColorCommand(device.info, State(), rgbArg, brightnessArg), submit, acks)
      ensures request.None? <==>
        !ValidBrightness(EffectiveBrightness(State(), brightnessArg)) || !ValidRgb(EffectiveRgb(State(), rgbArg))
    {
      request, r := Send(client, device.installation, SetColorCommand(device.info, State(), rgbArg, brightnessArg), submit, acks);
    }
  }

  class DaisyCover {
    const device: Device
    const client: TelecoDaisy
    var position: Option<int>
    var isClosed: Option<bool>

    function State(): CoverState
      reads this
    {
      CoverState(position, isClosed)
    }

    constructor (device: Device, client: TelecoDaisy)
      requires IsCoverKind(device.kind)
      ensures this.device == device && this.client == client
      ensures State() == UnknownCover
    {
      this.device := device;
      this.client := client;
      position, isClosed := None, None;
    }

    /** update_state: a reply other than "S" raises and changes nothing; otherwise OPEN_CLOSE and
        LEVEL items are folded into the fields in order, stopping at a malformed LEVEL. */
    method UpdateState(reply: Reply<seq<StatusItem>>) returns (failure: Option<Error>)
      modifies this
      ensures reply.codEsito != "S" ==> failure == Some(ApiError(reply.codEsito)) && State() == old(State())
      ensures reply.codEsito == "S" ==> Decoded(State(), failure) == DecodeCover(old(State()), reply.valRisultato)
    {
      if reply.codEsito != "S" {
        return Some(ApiError(reply.codEsito));
      }
      var items := reply.valRisultato;
      var i := 0;
      while i < |items|
        invariant 0 <= i <= |items|
        invariant DecodeCover(old(State()), items) == DecodeCover(State(), items[i..])
      {
        var item := items[i];
        assert items[i..][0] == item && items[i..][1..] == items[i + 1..];
        if item.statusitemCode == "OPEN_CLOSE" {
          if item.statusValue == "CLOSE" {
            isClosed := Some(true);
          } else if item.statusValue == "OPEN" {
            isClosed := Some(false);
          } else {
            isClosed := None;
          }
        }
        if item.statusitemCode == "LEVEL" {
          var p := ParseField(item.statusValue);
          if p.Err? {
            return Some(p.error);
          }
          position := Some(p.value);
        }
        i := i + 1;
      }
      failure := None;
    }

    /** open_cover(percent): "100" posts the OPEN_STOP_CLOSE open command and returns its result;
        anything else goes through the level table, whose result is not returned. */
    method OpenCover(percent: Option<string>, submit: SubmitReply, acks: seq<AckReply>)
      returns (request: Option<FeedRequest>, r: Result<Option<bool>>)
      requires IsCoverKind(device.kind)
      ensures var (q, s) := SendOutcome(client, device.installation, OpenCoverCommand(device.kind, device.info, percent), submit, acks);
        request == q && r == (if percent == Some("100") then s else Discarded(s))
      ensures percent.None? ==> request.None? && r == Err(MissingKey)
    {
      request, r := Send(client, device.installation, OpenCoverCommand(device.kind, device.info, percent), submit, acks);
      if percent != Some("100") {
        r := Discarded(r);
      }
    }

    /** stop_cover: the OPEN_STOP_CLOSE stop command; its result is not returned. */
    method StopCover(submit: SubmitReply, acks: seq<AckReply>) returns (request: Option<FeedRequest>, r: Result<Option<bool>>)
      requires IsCoverKind(device.kind)
      ensures var (q, s) := SendOutcome(client, device.installation, Ok(OpenStopCloseCommand(device.kind, device.info, StopAction)), submit, acks);
        request == q && r == Discarded(s)
    {
      request, r := Send(client, device.installation, Ok(OpenStopCloseCommand(device.kind, device.info, StopAction)), submit, acks);
      r := Discarded(r);
    }

    /** close_cover: the OPEN_STOP_CLOSE close command; its result is not returned. */
    method CloseCover(submit: SubmitReply, acks: seq<AckReply>) returns (request: Option<FeedRequest>, r: Result<Option<bool>>)
      requires IsCoverKind(device.kind)
      ensures var (q, s) := SendOutcome(client, device.installation, Ok(OpenStopCloseCommand(device.kind, device.info, CloseAction)), submit, acks);
        request == q && r == Discarded(s)
    {
      request, r := Send(client, device.installation, Ok(OpenStopCloseCommand(device.kind, device.info, CloseAction)), submit, acks);
      r := Discarded(r);
    }
  }
}
