/** Values exchanged with the Daisy cloud service and the records the client
    builds from them.  Every HTTP reply is an abstract input record here. */
module DaisyTypes {

  datatype Option<+T> = None | Some(value: T) {
    function GetOr(default: T): T {
      match this
      case Some(v) => v
      case None => default
    }
  }

  /** The exceptions the client raises, one constructor per distinct cause. */
  datatype Error =
    | ApiError(codEsito: string)          // a query reply whose codEsito is not "S"
    | CommandRejected(messageId: string)  // feedthecommands reply whose MessageID is not "WS-000"
    | AckProtocolError(messageId: string) // getackcommand reply whose MessageID is not "WS-300"
    | PollsExhausted                      // every available ack reply said "RCV"
    | InvalidLiteral(text: string)        // int() of a string that is not a decimal integer
    | BrightnessOutOfRange(brightness: int)
    | ColorOutOfRange(rgb: Rgb)
    | MissingKey                          // a table lookup with a key the table lacks
    | UnboundCommandId(deviceType: int)   // a light action for a type with no command id

  datatype Result<+T> = Ok(value: T) | Err(error: Error)

  type Rgb = (int, int, int)

  /** A query reply: the result code and the payload. */
  datatype Reply<+T> = Reply(codEsito: string, valRisultato: T)

  datatype Credentials = Credentials(idAccount: int, idSession: string)

  datatype Installation = Installation(
    activetimer: string,
    firmwareVersion: string,
    idInstallation: int,
    idInstallationDevice: int,
    instCode: string,
    instDescription: string,
    installationOrder: int,
    weekend: string,
    workdays: string)

  /** One raw entry of a room's deviceList. */
  datatype DeviceRecord = DeviceRecord(
    activetimer: string,
    deviceCode: string,
    deviceIndex: int,
    deviceOrder: int,
    favorite: string,
    feedback: string,
    idDevicemodel: int,
    idDevicetype: int,
    idInstallationDevice: int,
    deviceLabel: string,   // the record's "label" entry
    remoteControlCode: string)

  /** The variant a raw device record is turned into. */
  datatype DeviceKind = LightKind | ShadeKind | CoverKind

  datatype Device = Device(kind: DeviceKind, info: DeviceRecord, installation: Installation)

  datatype RawRoom = RawRoom(
    idInstallationRoom: int,
    idRoomtype: int,
    roomDescription: string,
    roomOrder: int,
    deviceList: seq<DeviceRecord>)

  datatype Room = Room(
    idInstallationRoom: int,
    idRoomtype: int,
    roomDescription: string,
    roomOrder: int,
    deviceList: seq<Device>)

  datatype StatusItem = StatusItem(
    idInstallationDeviceStatusitem: int,
    idDevicetypeStatusitemModel: int,
    statusitemCode: string,
    statusItem: string,
    statusValue: string)

  /** The lowlevelCommand entry of a command: absent, present as null, or a channel. */
  datatype LowLevel = NoKey | NullChannel | Channel(name: string)

  datatype Command = Command(
    deviceCode: string,
    idInstallationDevice: int,
    commandAction: string,
    commandId: int,
    commandParam: string,
    lowlevelCommand: LowLevel)

  /** The body posted to the feedthecommands endpoint. */
  datatype FeedRequest = FeedRequest(
    commandsList: seq<Command>,
    idInstallation: string,
    idSession: Option<string>,
    idScenario: int,
    isScenario: bool)

  datatype SubmitReply = SubmitReply(messageId: string, actionReference: string)

  datatype AckReply = AckReply(messageId: string, messageText: string)
}
