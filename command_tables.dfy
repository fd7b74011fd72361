/** The static command tables of the light and cover variants and the single
    command each action builds (DaisyLight.turn_on/turn_off/set_rgb_and_brightness,
    DaisyCover and DaisyShade open_cover/stop_cover/close_cover). */
module CommandTables {
  import opened DaisyTypes
  import opened Decimal
  import opened StatusCodec

  /** One table row: commandParam, commandId and lowlevelCommand. */
  datatype Entry = Entry(param: string, commandId: int, lowlevel: string)

  datatype OscAction = OpenAction | StopAction | CloseAction

  /** DaisyCover (type 24, lamella pergola). */
  const LamellaOscTable: map<OscAction, Entry> := map[
    OpenAction := Entry("OPEN", 94, "CH4"),
    StopAction := Entry("STOP", 95, "CH7"),
    CloseAction := Entry("CLOSE", 96, "CH1")]

  /** DaisyShade (type 22, ZIP roller). */
  const ZipOscTable: map<OscAction, Entry> := map[
    OpenAction := Entry("OPEN", 75, "CH5"),
    StopAction := Entry("STOP", 76, "CH7"),
    CloseAction := Entry("CLOSE", 77, "CH8")]

  /** Shared by both cover variants, keyed by the percent text. */
  const LevelTable: map<string, Entry> := map[
    "33" := Entry("LEV2", 97, "CH2"),
    "66" := Entry("LEV3", 98, "CH3"),
    "100" := Entry("LEV4", 99, "CH4")]

  predicate IsCoverKind(kind: DeviceKind) {
    kind.ShadeKind? || kind.CoverKind?
  }

  function OscTable(kind: DeviceKind): (t: map<OscAction, Entry>)
    requires IsCoverKind(kind)
    ensures OpenAction in t && StopAction in t && CloseAction in t
  {
    if kind.ShadeKind? then ZipOscTable else LamellaOscTable
  }

  /** The command names the device: deviceCode is str(deviceIndex), plus its installation-device id. */
  predicate Addresses(c: Command, d: DeviceRecord) {
    c.deviceCode == IntToString(d.deviceIndex) && c.idInstallationDevice == d.idInstallationDevice
  }

  function TableCommand(d: DeviceRecord, action: string, e: Entry): (c: Command)
    ensures Addresses(c, d)
  {
    Command(IntToString(d.deviceIndex), d.idInstallationDevice, action, e.commandId, e.param, Channel(e.lowlevel))
  }

  /** _open_stop_close: an OPEN_STOP_CLOSE command from the variant's table. */
  function OpenStopCloseCommand(kind: DeviceKind, d: DeviceRecord, a: OscAction): (c: Command)
    requires IsCoverKind(kind)
    ensures Addresses(c, d) && c.commandAction == "OPEN_STOP_CLOSE"
    ensures c.commandParam == (match a case OpenAction => "OPEN" case StopAction => "STOP" case CloseAction => "CLOSE")
    ensures kind.CoverKind? && a == OpenAction ==> c.commandId == 94 && c.lowlevelCommand == Channel("CH4")
    ensures kind.CoverKind? && a == StopAction ==> c.commandId == 95 && c.lowlevelCommand == Channel("CH7")
    ensures kind.CoverKind? && a == CloseAction ==> c.commandId == 96 && c.lowlevelCommand == Channel("CH1")
    ensures kind.ShadeKind? && a == OpenAction ==> c.commandId == 75 && c.lowlevelCommand == Channel("CH5")
    ensures kind.ShadeKind? && a == StopAction ==> c.commandId == 76 && c.lowlevelCommand == Channel("CH7")
    ensures kind.ShadeKind? && a == CloseAction ==> c.commandId == 77 && c.lowlevelCommand == Channel("CH8")
  {
    var t := OscTable(kind);
    assert a in t by { assert a == OpenAction || a == StopAction || a == CloseAction; }
    TableCommand(d, "OPEN_STOP_CLOSE", t[a])
  }

  /** _control_cover: a LEVEL command from the shared level table; a key it lacks (None included) raises. */
  function ControlCoverCommand(d: DeviceRecord, percent: Option<string>): (r: Result<Command>)
    ensures r.Ok? <==> percent.Some? && percent.value in {"33", "66", "100"}
    ensures r.Err? ==> r.error == MissingKey
    ensures r.Ok? ==> Addresses(r.value, d) && r.value.commandAction == "LEVEL"
  {
    if percent.Some? && percent.value in LevelTable then Ok(TableCommand(d, "LEVEL", LevelTable[percent.value]))
    else Err(MissingKey)
  }

  /** open_cover(percent): "100" opens through OPEN_STOP_CLOSE, never LEV4; "33" and "66" use LEVEL;
      None and any other text fail in the level lookup. */
  function OpenCoverCommand(kind: DeviceKind, d: DeviceRecord, percent: Option<string>): (r: Result<Command>)
    requires IsCoverKind(kind)
    ensures percent == Some("100") ==> r == Ok(OpenStopCloseCommand(kind, d, OpenAction))
    ensures percent == Some("33") ==>
      r == Ok(Command(IntToString(d.deviceIndex), d.idInstallationDevice, "LEVEL", 97, "LEV2", Channel("CH2")))
    ensures percent == Some("66") ==>
      r == Ok(Command(IntToString(d.deviceIndex), d.idInstallationDevice, "LEVEL", 98, "LEV3", Channel("CH3")))
    ensures percent.None? || percent.value !in {"33", "66", "100"} ==> r == Err(MissingKey)
    ensures r.Ok? ==> Addresses(r.value, d) && r.value.commandParam != "LEV4"
  {
    if percent == Some("100") then Ok(OpenStopCloseCommand(kind, d, OpenAction))
    else ControlCoverCommand(d, percent)
  }

  /** turn_on: type 21 sends (146, CH1), type 23 sends 138 with a null channel, any other type has no command id. */
  function TurnOnCommand(d: DeviceRecord): (r: Result<Command>)
    ensures r.Ok? <==> d.idDevicetype in {21, 23}
    ensures r.Err? ==> r.error == UnboundCommandId(d.idDevicetype)
    ensures r.Ok? ==> Addresses(r.value, d) && r.value.commandAction == "POWER" && r.value.commandParam == "ON"
    ensures d.idDevicetype == 21 ==> r.Ok? && r.value.commandId == 146 && r.value.lowlevelCommand == Channel("CH1")
    ensures d.idDevicetype == 23 ==> r.Ok? && r.value.commandId == 138 && r.value.lowlevelCommand == NullChannel
  {
    PowerCommand(d, "ON", if d.idDevicetype == 21 then 146 else 138, "CH1")
  }

  /** turn_off: type 21 sends (147, CH8), type 23 sends 138 with a null channel, any other type has no command id. */
  function TurnOffCommand(d: DeviceRecord): (r: Result<Command>)
    ensures r.Ok? <==> d.idDevicetype in {21, 23}
    ensures r.Err? ==> r.error == UnboundCommandId(d.idDevicetype)
    ensures r.Ok? ==> Addresses(r.value, d) && r.value.commandAction == "POWER" && r.value.commandParam == "OFF"
    ensures d.idDevicetype == 21 ==> r.Ok? && r.value.commandId == 147 && r.value.lowlevelCommand == Channel("CH8")
    ensures d.idDevicetype == 23 ==> r.Ok? && r.value.commandId == 138 && r.value.lowlevelCommand == NullChannel
  {
    PowerCommand(d, "OFF", if d.idDevicetype == 21 then 147 else 138, "CH8")
  }

  /** The POWER command of turn_on and turn_off: the white LED's id and channel for type 21, the
      shared id 138 with a null channel for type 23, and no command id for any other type. */
  function PowerCommand(d: DeviceRecord, param: string, whiteId: int, whiteChannel: string): (r: Result<Command>)
    ensures r.Ok? <==> d.idDevicetype == 21 || d.idDevicetype == 23
    ensures r.Err? ==> r.error == UnboundCommandId(d.idDevicetype)
    ensures r.Ok? ==> Addresses(r.value, d) && r.value.commandAction == "POWER" && r.value.commandParam == param
    ensures d.idDevicetype == 21 ==> r.Ok? && r.value.commandId == whiteId && r.value.lowlevelCommand == Channel(whiteChannel)
    ensures d.idDevicetype == 23 ==> r.Ok? && r.value.commandId == 138 && r.value.lowlevelCommand == NullChannel
  {
    if d.idDevicetype == 21 then
      Ok(Command(IntToString(d.deviceIndex), d.idInstallationDevice, "POWER", whiteId, param, Channel(whiteChannel)))
    else if d.idDevicetype == 23 then
      Ok(Command(IntToString(d.deviceIndex), d.idInstallationDevice, "POWER", 138, param, NullChannel))
    else
      Err(UnboundCommandId(d.idDevicetype))
  }

  /** The brightness set_rgb_and_brightness uses: the argument, else the stored value, else 0. */
  function EffectiveBrightness(stored: LightState, brightness: Option<int>): (b: int)
    ensures brightness.Some? ==> b == brightness.value
    ensures brightness.None? && stored.brightness.Some? ==> b == stored.brightness.value
    ensures brightness.None? && stored.brightness.None? ==> b == 0
  {
    brightness.GetOr(stored.brightness.GetOr(0))
  }

  /** The colour set_rgb_and_brightness uses: the argument, else the stored value, else white. */
  function EffectiveRgb(stored: LightState, rgb: Option<Rgb>): (c: Rgb)
    ensures rgb.Some? ==> c == rgb.value
    ensures rgb.None? && stored.rgb.Some? ==> c == stored.rgb.value
    ensures rgb.None? && stored.rgb.None? ==> c == (255, 255, 255)
  {
    rgb.GetOr(stored.rgb.GetOr((255, 255, 255)))
  }

  /** set_rgb_and_brightness: range checks (brightness first), then one COLOR command with id 137
      and no lowlevelCommand key whatever the device type, whose parameter decodes back to the
      brightness and colour used. */
  function SetColorCommand(d: DeviceRecord, stored: LightState, rgb: Option<Rgb>, brightness: Option<int>)
    : (r: Result<Command>)
    ensures var b, c := EffectiveBrightness(stored, brightness), EffectiveRgb(stored, rgb);
      && (!ValidBrightness(b) ==> r == Err(BrightnessOutOfRange(b)))
      && (ValidBrightness(b) && !ValidRgb(c) ==> r == Err(ColorOutOfRange(c)))
      && (r.Ok? <==> ValidBrightness(b) && ValidRgb(c))
      && (r.Ok? ==>
            && Addresses(r.value, d)
            && r.value.commandAction == "COLOR"
            && r.value.commandId == 137
            && r.value.lowlevelCommand == NoKey
            && |r.value.commandParam| == 16
            && DecodeBrightness(r.value.commandParam) == Ok(b)
            && DecodeRgb(r.value.commandParam) == Ok(c))
  {
    var b := EffectiveBrightness(stored, brightness);
    if !ValidBrightness(b) then Err(BrightnessOutOfRange(b))
    else
      var c := EffectiveRgb(stored, rgb);
      if !ValidRgb(c) then Err(ColorOutOfRange(c))
      else
        ColorRoundTrip(b, c);
        Ok(Command(IntToString(d.deviceIndex), d.idInstallationDevice, "COLOR", 137, EncodeColor(b, c), NoKey))
  }

  /** Every command an action builds can be traced back to its device: int(deviceCode) is deviceIndex. */
  lemma AddressedDeviceIndex(c: Command, d: DeviceRecord)
    requires Addresses(c, d)
    ensures ParseInt(c.deviceCode) == Some(d.deviceIndex)
  {
    ParseIntToString(d.deviceIndex);
  }
}
