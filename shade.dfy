/** The Home Assistant cover entity TelecoDaisyShade: it mirrors the closed flag and the
    position of the DaisyCover it wraps, and every action is one device call followed by a
    status refresh, skipped when the device call raises. */
module Shade {
  import opened DaisyTypes
  import opened StatusCodec
  import opened CommandTables
  import opened Client
  import opened Devices

  /** What set_cover_position asks the device to do. */
  datatype PositionAction = CloseBand | Open33 | Open66 | Open100

  /** The percent an action leaves the cover at: 0 when closed, else the level it opens to. */
  function Level(a: PositionAction): int {
    match a
    case CloseBand => 0
    case Open33 => 33
    case Open66 => 66
    case Open100 => 100
  }

  /** set_cover_position's bands: 1..14 close, 17..47 open to 33, 50..80 open to 66, and every
      other position (0, 15, 16, 48, 49 and 81 upwards included) opens fully. */
  function PositionBand(position: int): (a: PositionAction)
    ensures a == CloseBand <==> 0 < position < 15
    ensures a == Open33 <==> 16 < position < 48
    ensures a == Open66 <==> 49 < position < 81
    ensures a == Open100 <==> position <= 0 || position == 15 || position == 16 || position == 48 || position == 49 || 81 <= position
    ensures 0 < position <= 100 && position !in {15, 16, 48, 49} ==> -14 <= Level(a) - position <= 19
  {
    if 0 < position < 15 then CloseBand
    else if 16 < position < 48 then Open33
    else if 49 < position < 81 then Open66
    else Open100
  }

  /** The command each band sends: the OPEN_STOP_CLOSE close or open command at the ends, and the
      LEVEL commands LEV2 and LEV3 in between; LEV4 is never sent. */
  function PositionCommand(kind: DeviceKind, d: DeviceRecord, a: PositionAction): (c: Command)
    requires IsCoverKind(kind)
    ensures Addresses(c, d) && c.commandParam != "LEV4"
    ensures a == CloseBand ==> c == OpenStopCloseCommand(kind, d, CloseAction)
    ensures a == Open100 ==> c == OpenStopCloseCommand(kind, d, OpenAction)
    ensures a == Open33 ==> c.commandAction == "LEVEL" && c.commandParam == "LEV2"
    ensures a == Open66 ==> c.commandAction == "LEVEL" && c.commandParam == "LEV3"
    ensures c.commandAction == "OPEN_STOP_CLOSE" <==> a == CloseBand || a == Open100
  {
    match a
    case CloseBand => OpenStopCloseCommand(kind, d, CloseAction)
    case Open33 => OpenCoverCommand(kind, d, Some("33")).value
    case Open66 => OpenCoverCommand(kind, d, Some("66")).value
    case Open100 => OpenStopCloseCommand(kind, d, OpenAction)
  }

  /** The two attributes the entity shows: is_closed and current_cover_position. */
  datatype ShadeState = ShadeState(isClosed: Option<bool>, currentPosition: Option<int>)

  class TelecoDaisyShade {
    const cover: DaisyCover
    var isClosed: Option<bool>
    var currentPosition: Option<int>

    function State(): ShadeState
      reads this
    {
      ShadeState(isClosed, currentPosition)
    }

    /** The entity shows what the wrapped device object holds. */
    predicate Mirrors()
      reads this, cover
    {
      isClosed == cover.isClosed && currentPosition == cover.position
    }

    /** The effect of update(): the device folds the status reply into its fields; the entity copies
        them only when that raised nothing, and otherwise keeps what it showed before. */
    ghost predicate Refreshed(before: CoverState, shown: ShadeState, reply: Reply<seq<StatusItem>>, failure: Option<Error>)
      reads this, cover
    {
      && (reply.codEsito != "S" ==> failure == Some(ApiError(reply.codEsito)) && cover.State() == before)
      && (reply.codEsito == "S" ==> Decoded(cover.State(), failure) == DecodeCover(before, reply.valRisultato))
      && (failure.None? ==> Mirrors())
      && (failure.Some? ==> State() == shown)
    }

    constructor (cover: DaisyCover)
      requires IsCoverKind(cover.device.kind)
      ensures this.cover == cover && Mirrors()
    {
      this.cover := cover;
      isClosed := cover.isClosed;
      currentPosition := cover.position;
    }

    /** update: refresh the device's status, then copy it. */
    method Update(reply: Reply<seq<StatusItem>>) returns (failure: Option<Error>)
      modifies this, cover
      ensures Refreshed(old(cover.State()), old(State()), reply, failure)
    {
      failure := cover.UpdateState(reply);
      if failure.None? {
        isClosed := cover.isClosed;
        currentPosition := cover.position;
      }
    }

    /** open_cover: the device's open_cover is called without a percent, so the level lookup raises
        before anything is posted and update is never reached. */
    method OpenCover(submit: SubmitReply, acks: seq<AckReply>) returns (request: Option<FeedRequest>, failure: Option<Error>)
      requires IsCoverKind(cover.device.kind)
      ensures request.None? && failure == Some(MissingKey)
    {
      var r;
      request, r := cover.OpenCover(None, submit, acks);
      failure := Some(r.error);
    }

    /** close_cover: the close command, then update unless posting it raised. */
    method CloseCover(submit: SubmitReply, acks: seq<AckReply>, reply: Reply<seq<StatusItem>>)
      returns (request: Option<FeedRequest>, failure: Option<Error>)
      requires IsCoverKind(cover.device.kind)
      modifies this, cover
      ensures request == Some(FeedRequestFor(cover.device.installation,
        [OpenStopCloseCommand(cover.device.kind, cover.device.info, CloseAction)], cover.client.idSession))
      ensures FeedOutcome(false, submit, acks).Err? ==>
        failure == Some(FeedOutcome(false, submit, acks).error) && unchanged(this, cover)
      ensures FeedOutcome(false, submit, acks).Ok? ==> Refreshed(old(cover.State()), old(State()), reply, failure)
    {
      var r;
      request, r := cover.CloseCover(submit, acks);
      if r.Err? {
        return request, Some(r.error);
      }
      failure := Update(reply);
    }

    /** stop_cover: the stop command, then update unless posting it raised. */
    method StopCover(submit: SubmitReply, acks: seq<AckReply>, reply: Reply<seq<StatusItem>>)
      returns (request: Option<FeedRequest>, failure: Option<Error>)
      requires IsCoverKind(cover.device.kind)
      modifies this, cover
      ensures request == Some(FeedRequestFor(cover.device.installation,
        [OpenStopCloseCommand(cover.device.kind, cover.device.info, StopAction)], cover.client.idSession))
      ensures FeedOutcome(false, submit, acks).Err? ==>
        failure == Some(FeedOutcome(false, submit, acks).error) && unchanged(this, cover)
      ensures FeedOutcome(false, submit, acks).Ok? ==> Refreshed(old(cover.State()), old(State()), reply, failure)
    {
      var r;
      request, r := cover.StopCover(submit, acks);
      if r.Err? {
        return request, Some(r.error);
      }
      failure := Update(reply);
    }

    /** set_cover_position: exactly one command chosen by the position's band, then update unless
        posting it raised. */
    method SetCoverPosition(position: int, submit: SubmitReply, acks: seq<AckReply>, reply: Reply<seq<StatusItem>>)
      returns (request: Option<FeedRequest>, failure: Option<Error>)
      requires IsCoverKind(cover.device.kind)
      modifies this, cover
      ensures request == Some(FeedRequestFor(cover.device.installation,
        [PositionCommand(cover.device.kind, cover.device.info, PositionBand(position))], cover.client.idSession))
      ensures FeedOutcome(false, submit, acks).Err? ==>
        failure == Some(FeedOutcome(false, submit, acks).error) && unchanged(this, cover)
      ensures FeedOutcome(false, submit, acks).Ok? ==> Refreshed(old(cover.State()), old(State()), reply, failure)
    {
      var r;
      if 0 < position < 15 {
        request, r := cover.CloseCover(submit, acks);
      } else if 16 < position < 48 {
        request, r := cover.OpenCover(Some("33"), submit, acks);
      } else if 49 < position < 81 {
        request, r := cover.OpenCover(Some("66"), submit, acks);
      } else {
        request, r := cover.OpenCover(Some("100"), submit, acks);
      }
      if r.Err? {
        return request, Some(r.error);
      }
      failure := Update(reply);
    }
  }
}
