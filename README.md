# Teleco Daisy client, hub and shade entity in Dafny

This project models the Home Assistant integration `teleco_daisy`, which drives Teleco
Automation "Daisy" lights, ZIP shades and lamella pergola covers through the Teleco cloud.
The model covers three parts:

- **The cloud client `TelecoDaisy`.** It covers:
  - login and the session fields it keeps;
  - the installation list and the room list, which classifies raw device records into
    lights, shades and covers by `idDevicetype`;
  - `feed_the_commands` and its acknowledgment poll.
- **The device variants.** `DaisyLight`, `DaisyShade` and `DaisyCover` decode status items into
  their fields and build the one command each action posts.
- **The glue logic.** `DaisyHub` logs in and partitions the fetched devices into lights and
  covers. The cover entity `TelecoDaisyShade` turns a requested position into one device command
  and then refreshes its state.

Each server reply is an input value of the member that reads it. This covers the login reply,
the installation and room lists, the status list, the submission reply and the sequence of ack
replies. A Python exception becomes the `Err` case of a `Result`, or a returned failure.

The modules are:

- `DaisyTypes`: records and errors.
- `Decimal`: Python `int()` and `str()` on decimal text, and the `{:03d}` format.
- `StatusCodec`: status decoding and the colour string `A###R###G###B###`.
- `CommandTables`: command tables and command builders.
- `Client`: the class `TelecoDaisy`.
- `Devices`: the classes `DaisyLight` and `DaisyCover`.
- `Hub`: the class `DaisyHub`.
- `Shade`: the class `TelecoDaisyShade`.

`DaisyShade` and `DaisyCover` have the same fields and the same `update_state`. They differ only
in their OPEN_STOP_CLOSE table. One Dafny class, `Devices.DaisyCover`, stands for both, and the
device's kind (`ShadeKind` for type 22, `CoverKind` for type 24) selects the table.

Three behaviours of the code are easy to misread, and the model follows the code in each:

- Type 22 becomes a `DaisyShade`, although the comment at teleco_daisy.py:182 calls it a "ZIP
  cover". That class is not a `DaisyCover`, so the hub puts type-22 devices in neither of its lists.
- `set_rgb_and_brightness` always sends command id 137 and no `lowlevelCommand` key, whatever the
  device type. The id and channel it computes for types 21 and 23 are never used.
- The white LED (type 21) powers on with (146, CH1) and off with (147, CH8). The RGB LED (type 23)
  sends 138 with a null channel both ways.

In `set_cover_position` the bands are open intervals. So positions 0, 15, 16, 48 and 49 fall
through to "open fully", the same as 81 and above. The model keeps this behaviour as written.

## Model

| member | source | states |
|---|---|---|
| Decimal.ParseDigits | custom_components/teleco_daisy/teleco_daisy.py:273 | `int()` of unsigned text succeeds exactly when the text is a non-empty run of ASCII digits |
| Decimal.ParseInt | custom_components/teleco_daisy/teleco_daisy.py:345 | `int()` succeeds exactly on digits with an optional leading `-` or `+` |
| Decimal.NatToDecimal | custom_components/teleco_daisy/teleco_daisy.py:297 | `str()` of a natural number is a non-empty run of digits |
| Decimal.IntToString | custom_components/teleco_daisy/teleco_daisy.py:297 | `str(deviceIndex)` is never empty |
| Decimal.Pad3 | custom_components/teleco_daisy/teleco_daisy.py:430 | `{:03d}` of a natural number gives only digits |
| Decimal.ParseNatToDecimal | custom_components/teleco_daisy/teleco_daisy.py:297 | `int(str(n)) == n` for every natural number (proved by induction) |
| Decimal.ParseIntToString | custom_components/teleco_daisy/teleco_daisy.py:297 | `int(str(i)) == i` for every integer, negative ones included |
| Decimal.NatToDecimalLength | custom_components/teleco_daisy/teleco_daisy.py:430 | `str(n)` has 1, 2 or 3 characters for n below 10, 100 or 1000 |
| Decimal.ParseLeadingZero | custom_components/teleco_daisy/teleco_daisy.py:415-416 | a leading zero does not change the value `int()` reads from digits |
| Decimal.Pad3RoundTrip | custom_components/teleco_daisy/teleco_daisy.py:430 | for n < 1000, `{:03d}` has exactly three characters and `int()` reads n back |
| Decimal.ThreeDigits | custom_components/teleco_daisy/teleco_daisy.py:415-416 | three decimal digits always parse, to a value in 0..999 |
| StatusCodec.PySlice | custom_components/teleco_daisy/teleco_daisy.py:415-416 | a Python slice of a long enough string is the Dafny subsequence, and a slice is never longer than its bounds allow |
| StatusCodec.DecodeBrightness | custom_components/teleco_daisy/teleco_daisy.py:415 | `int(val[1:4])`: a string whose [1:4] is three digits gives a value in 0..999, and a string of at most one character raises on the empty slice |
| StatusCodec.DecodeRgb | custom_components/teleco_daisy/teleco_daisy.py:416 | `int()` of [5:8], [9:12] and [13:16]: three-digit fields give three values in 0..999, and a string of at most five characters raises on the empty slice |
| StatusCodec.EncodeColor | custom_components/teleco_daisy/teleco_daisy.py:430 | the colour string has 16 characters with the letters A, R, G and B at positions 0, 4, 8 and 12 |
| StatusCodec.LightItemEffect | custom_components/teleco_daisy/teleco_daisy.py:411-416 | one light item sets the power flag exactly when its code is POWER; only COLOR touches brightness and colour or raises; a colour is only set together with a brightness and without an error |
| StatusCodec.CoverItemEffect | custom_components/teleco_daisy/teleco_daisy.py:264-273 | one cover item sets the closed flag exactly when its code is OPEN_CLOSE; only LEVEL sets the position or raises, and a raising LEVEL sets nothing |
| StatusCodec.DecodeLight | custom_components/teleco_daisy/teleco_daisy.py:410-416 | the light status loop, items in order and stopping at the first error; a list without COLOR items never raises and keeps brightness and colour |
| StatusCodec.DecodeCover | custom_components/teleco_daisy/teleco_daisy.py:264-273 | the cover status loop, items in order and stopping at the first error; a list without LEVEL items never raises and keeps the position |
| StatusCodec.ColorRoundTrip | custom_components/teleco_daisy/teleco_daisy.py:413-430 | for brightness in 0..100 and channels in 0..255, the colour string has 16 characters, and decoding it at [1:4], [5:8], [9:12] and [13:16] gives back the brightness and channels |
| StatusCodec.EncodeColorFields | custom_components/teleco_daisy/teleco_daisy.py:430 | the colour string holds the zero-padded brightness and channels at [1:4], [5:8], [9:12] and [13:16] |
| StatusCodec.DecodeLightIsOverwrite | custom_components/teleco_daisy/teleco_daisy.py:408-416 | the light status loop equals overwriting the fields named by a patch and a failure that depend only on the item list, not on the prior state |
| StatusCodec.DecodeCoverIsOverwrite | custom_components/teleco_daisy/teleco_daisy.py:262-273 | the same for the cover status loop |
| StatusCodec.DecodeLightIdempotent | custom_components/teleco_daisy/teleco_daisy.py:408-416 | decoding the same status list into a light twice gives the same state and outcome as once |
| StatusCodec.DecodeCoverIdempotent | custom_components/teleco_daisy/teleco_daisy.py:334-345 | decoding the same status list into a cover or shade twice gives the same state and outcome as once |
| StatusCodec.ColorItemDecodes | custom_components/teleco_daisy/teleco_daisy.py:413-416 | a COLOR item holding an encoded colour sets exactly that brightness and colour and nothing else |
| StatusCodec.LightItemDecodes | custom_components/teleco_daisy/teleco_daisy.py:411-416 | POWER sets the flag to whether the value is "ON"; COLOR with a bad [1:4] raises and changes nothing, with a good brightness but bad colour sets only the brightness, and otherwise sets both; other codes change nothing |
| StatusCodec.CoverItemDecodes | custom_components/teleco_daisy/teleco_daisy.py:264-273 | OPEN_CLOSE "CLOSE" sets closed, "OPEN" sets open and any other value sets unknown; LEVEL sets the position or raises on a non-number; other codes change nothing |
| StatusCodec.DecodeExampleColor | custom_components/teleco_daisy/teleco_daisy.py:413-416 | "A050R255G000B000" decodes to brightness 50 and colour (255, 0, 0) |
| CommandTables.OscTable | custom_components/teleco_daisy/teleco_daisy.py:287-291 | each cover variant's OPEN_STOP_CLOSE table has an open, a stop and a close entry |
| CommandTables.TableCommand | custom_components/teleco_daisy/teleco_daisy.py:294-305 | a table command addresses its device by `str(deviceIndex)` and `idInstallationDevice` |
| CommandTables.OpenStopCloseCommand | custom_components/teleco_daisy/teleco_daisy.py:286-305 | the OPEN_STOP_CLOSE command has the action's parameter and the exact table entry: for a type-24 cover open (94, CH4), stop (95, CH7), close (96, CH1); for a type-22 shade open (75, CH5), stop (76, CH7), close (77, CH8) |
| CommandTables.ControlCoverCommand | custom_components/teleco_daisy/teleco_daisy.py:307-327 | the LEVEL lookup succeeds exactly for "33", "66" and "100", and any other key, None included, raises a missing-key error |
| CommandTables.OpenCoverCommand | custom_components/teleco_daisy/teleco_daisy.py:275-278 | "100" sends exactly the variant's OPEN_STOP_CLOSE open command and never LEV4; "33" and "66" send (LEVEL, 97, LEV2, CH2) and (LEVEL, 98, LEV3, CH3); None and other text fail |
| CommandTables.TurnOnCommand | custom_components/teleco_daisy/teleco_daisy.py:452-472 | POWER "ON": type 21 sends (146, CH1), type 23 sends (138, null), and any other type fails with an unbound command id |
| CommandTables.TurnOffCommand | custom_components/teleco_daisy/teleco_daisy.py:474-494 | POWER "OFF": type 21 sends (147, CH8), type 23 sends (138, null), and any other type fails with an unbound command id |
| CommandTables.PowerCommand | custom_components/teleco_daisy/teleco_daisy.py:453-458 | the POWER command: the given id and channel for type 21, 138 with a null channel for type 23, and an unbound command id for any other type |
| CommandTables.EffectiveBrightness | custom_components/teleco_daisy/teleco_daisy.py:421-422 | the brightness argument if given, else the stored brightness, else 0 |
| CommandTables.EffectiveRgb | custom_components/teleco_daisy/teleco_daisy.py:425-426 | the colour argument if given, else the stored colour, else (255, 255, 255) |
| CommandTables.SetColorCommand | custom_components/teleco_daisy/teleco_daisy.py:418-450 | defaults come from the stored values or 0 and white; brightness is checked before the colour; on success it builds one COLOR command with id 137, no lowlevel key and a 16-character parameter that decodes back to the brightness and colour |
| CommandTables.AddressedDeviceIndex | custom_components/teleco_daisy/teleco_daisy.py:297 | `int()` of a command's deviceCode is the device's index |
| Client.KindFor | custom_components/teleco_daisy/teleco_daisy.py:184-195 | types 21 and 23 are lights, 22 is a shade, 24 is a cover, and no other type has a kind |
| Client.Classify | custom_components/teleco_daisy/teleco_daisy.py:178-195 | the classified devices of one room are no more than its records and all belong to the given installation |
| Client.BuildRooms | custom_components/teleco_daisy/teleco_daisy.py:176-197 | one room per raw room, in order, each with its classified devices |
| Client.RoomList | custom_components/teleco_daisy/teleco_daisy.py:172-197 | a code other than "S" is exactly the error case, with that code; otherwise one room per raw room |
| Client.ClassifyAppend | custom_components/teleco_daisy/teleco_daisy.py:178-195 | classification distributes over concatenation, so device order is kept |
| Client.ClassifyExactly | custom_components/teleco_daisy/teleco_daisy.py:184-195 | every classified device comes from an input record of its kind, and every record of a known type appears |
| Client.ClassifyExample | custom_components/teleco_daisy/teleco_daisy.py:184-195 | types 21, 22, 23, 24 and 99 give light, shade, light and cover, in order, and type 99 is dropped |
| Client.FirstDecisive | custom_components/teleco_daisy/teleco_daisy.py:248-255 | the index of the first ack reply that is not (WS-300, RCV), with every earlier reply (WS-300, RCV) |
| Client.Judge | custom_components/teleco_daisy/teleco_daisy.py:249-255 | the deciding reply is a protocol error exactly when its message id is not WS-300, and a success exactly when it is (WS-300, PROC) |
| Client.AckOutcome | custom_components/teleco_daisy/teleco_daisy.py:240-255 | the poll runs out of replies exactly when every reply is (WS-300, RCV) |
| Client.AckOutcomeDecided | custom_components/teleco_daisy/teleco_daisy.py:249-255 | the first reply that is not (WS-300, RCV) decides the poll after that many polls: another message id is a protocol error, and a WS-300 reply succeeds exactly when its text is PROC |
| Client.AckSucceedsIff | custom_components/teleco_daisy/teleco_daisy.py:240-255 | polling succeeds exactly when a (WS-300, PROC) reply comes after nothing but (WS-300, RCV) replies |
| Client.AckExample | custom_components/teleco_daisy/teleco_daisy.py:240-255 | RCV, RCV, PROC succeeds after exactly three polls |
| Client.FeedOutcome | custom_components/teleco_daisy/teleco_daisy.py:232-238 | a MessageID other than WS-000 raises; ignore_ack gives None; the result is success exactly when the submission was accepted, the ack was awaited and it succeeded |
| Client.TelecoDaisy.constructor | custom_components/teleco_daisy/teleco_daisy.py:79-81 | a new client has no account and no session |
| Client.TelecoDaisy.Login | custom_components/teleco_daisy/teleco_daisy.py:128-139 | a code other than "S" raises and leaves both fields; otherwise it stores and returns the account id and session id |
| Client.TelecoDaisy.GetAccountInstallationList | custom_components/teleco_daisy/teleco_daisy.py:141-152 | it raises on a code other than "S" and otherwise returns the installations in reply order |
| Client.TelecoDaisy.GetRoomList | custom_components/teleco_daisy/teleco_daisy.py:164-197 | the loops build exactly `RoomList`: an error for a code other than "S", otherwise the classified rooms in order |
| Client.TelecoDaisy.GetAck | custom_components/teleco_daisy/teleco_daisy.py:240-255 | it posts the action reference with `instCode` and the session, and its outcome and poll count are those of the first non-RCV reply |
| Client.TelecoDaisy.FeedTheCommands | custom_components/teleco_daisy/teleco_daisy.py:216-238 | the batch carries `instCode`, idScenario 0 and isScenario false; a MessageID other than WS-000 raises; ignore_ack gives None without polling; otherwise the ack outcome |
| Devices.Send | custom_components/teleco_daisy/teleco_daisy.py:294-305 | a built command is posted as a batch of exactly one; a command that cannot be built posts nothing |
| Devices.DaisyLight.constructor | custom_components/teleco_daisy/teleco_daisy.py:403-406 | a new light has unknown power, brightness and colour |
| Devices.DaisyLight.UpdateState | custom_components/teleco_daisy/teleco_daisy.py:408-416 | a code other than "S" raises and changes nothing; otherwise the fields become the light status decode of the items, stopping at the first malformed number |
| Devices.DaisyLight.TurnOn | custom_components/teleco_daisy/teleco_daisy.py:452-472 | it posts the turn-on command, or nothing when the type has no command id |
| Devices.DaisyLight.TurnOff | custom_components/teleco_daisy/teleco_daisy.py:474-494 | it posts the turn-off command, or nothing when the type has no command id |
| Devices.DaisyLight.SetRgbAndBrightness | custom_components/teleco_daisy/teleco_daisy.py:418-450 | nothing is posted exactly when the effective brightness or colour is out of range; otherwise the COLOR command is posted |
| Devices.DaisyCover.constructor | custom_components/teleco_daisy/teleco_daisy.py:259-260 | a new cover has unknown position and closed flag |
| Devices.DaisyCover.UpdateState | custom_components/teleco_daisy/teleco_daisy.py:262-273 | a code other than "S" raises and changes nothing; otherwise the fields become the cover status decode of the items |
| Devices.DaisyCover.OpenCover | custom_components/teleco_daisy/teleco_daisy.py:275-278 | it posts the open-cover command and returns the feed result only for "100"; None posts nothing and raises |
| Devices.DaisyCover.StopCover | custom_components/teleco_daisy/teleco_daisy.py:280-281 | it posts the variant's stop command; only an exception shows |
| Devices.DaisyCover.CloseCover | custom_components/teleco_daisy/teleco_daisy.py:283-284 | it posts the variant's close command; only an exception shows |
| Hub.Lights | custom_components/teleco_daisy/hub.py:94-95 | the lights picked from a device list are no more than the devices |
| Hub.Covers | custom_components/teleco_daisy/hub.py:96-97 | the covers picked from a device list are no more than the devices |
| Hub.FetchDevices | custom_components/teleco_daisy/hub.py:71-111 | the fetch over the installations runs to the end exactly when there is a room-list reply for every installation and each has code "S" |
| Hub.FetchEntities | custom_components/teleco_daisy/hub.py:68-111 | a rejected installation list visits nothing and is incomplete; the fetch completes exactly when the installation list and every room list are accepted |
| Hub.FetchStep | custom_components/teleco_daisy/hub.py:71-97 | a successful room list contributes its devices ahead of the rest of the fetch |
| Hub.FetchStop | custom_components/teleco_daisy/hub.py:105-111 | a missing or rejected room list ends the fetch with nothing more and as incomplete |
| Hub.FetchAdvance | custom_components/teleco_daisy/hub.py:71-97 | a successful room list for the next installation extends the devices seen so far by exactly that installation's devices |
| Hub.FetchEnds | custom_components/teleco_daisy/hub.py:104-111 | the fetch is exactly what was seen when it stops, and complete only if every installation was visited |
| Hub.LightsAppend | custom_components/teleco_daisy/hub.py:94-95 | picking lights distributes over concatenation, so order is kept |
| Hub.CoversAppend | custom_components/teleco_daisy/hub.py:96-97 | picking covers distributes over concatenation, so order is kept |
| Hub.PartitionCount | custom_components/teleco_daisy/hub.py:94-102 | every device is exactly one of light, cover or shade |
| Hub.PartitionMembers | custom_components/teleco_daisy/hub.py:94-97 | a device is among the lights exactly when it is a light in the list, and among the covers exactly when it is a type-24 cover |
| Hub.PartitionDisjoint | custom_components/teleco_daisy/hub.py:94-102 | no device is both a light and a cover, and shades are in neither list |
| Hub.DaisyHub.constructor | custom_components/teleco_daisy/hub.py:29-39 | a new hub is offline with no lights and no covers |
| Hub.DaisyHub.Login | custom_components/teleco_daisy/hub.py:41-50 | it returns true and goes online exactly when the API login succeeds, otherwise it returns false and goes offline; the lists are untouched |
| Hub.DaisyHub.AsyncSetup | custom_components/teleco_daisy/hub.py:52-61 | the same as login |
| Hub.RoomsAdvance | custom_components/teleco_daisy/hub.py:77-97 | one more room appends exactly that room's lights and covers, in order |
| Hub.DaisyHub.AppendRoomDevices | custom_components/teleco_daisy/hub.py:86-102 | one room's lights and covers are appended in order |
| Hub.DaisyHub.AppendRooms | custom_components/teleco_daisy/hub.py:77-102 | the rooms' lights and covers are appended room by room |
| Hub.DaisyHub.AppendInstallation | custom_components/teleco_daisy/hub.py:73-102 | one installation's room list is fetched; on success its lights and covers are appended, and on error nothing is |
| Hub.DaisyHub.AsyncFetchEntities | custom_components/teleco_daisy/hub.py:63-111 | the lists are reset, then hold the lights and the type-24 covers of every device visited before the fetch stopped; online only if it ran to the end; a rejected installation list leaves both empty and offline |
| Shade.PositionBand | custom_components/teleco_daisy/shade.py:72-81 | 1..14 closes, 17..47 opens to 33, 50..80 opens to 66, and everything else (0, 15, 16, 48, 49, 81 upwards) opens fully; the bands are disjoint; for a position in 1..100 outside the four gap values the level reached is within 14 below and 19 above it |
| Shade.PositionCommand | custom_components/teleco_daisy/shade.py:74-81 | the close band sends OPEN_STOP_CLOSE close, the middle bands send LEVEL LEV2 or LEV3, the top band sends OPEN_STOP_CLOSE open, and LEV4 is never sent |
| Shade.TelecoDaisyShade.constructor | custom_components/teleco_daisy/shade.py:27-30 | a new entity shows the device's closed flag and position |
| Shade.TelecoDaisyShade.Update | custom_components/teleco_daisy/shade.py:67-70 | the device refreshes its status; the entity copies the closed flag and position only if that raised nothing, and otherwise keeps what it showed |
| Shade.TelecoDaisyShade.OpenCover | custom_components/teleco_daisy/shade.py:55-57 | the device is asked to open without a percent, so the level lookup raises, nothing is posted and no update happens |
| Shade.TelecoDaisyShade.CloseCover | custom_components/teleco_daisy/shade.py:59-61 | one close command is posted; if that raised nothing changes, otherwise update follows |
| Shade.TelecoDaisyShade.StopCover | custom_components/teleco_daisy/shade.py:63-65 | one stop command is posted; if that raised nothing changes, otherwise update follows |
| Shade.TelecoDaisyShade.SetCoverPosition | custom_components/teleco_daisy/shade.py:72-82 | exactly one command, chosen by the position's band, is posted; if that raised nothing changes, otherwise update follows |

## Left out

- `TelecoDaisy.post`, the aiohttp session, the Basic-Auth header and JSON (de)serialisation are network I/O. Each reply is an input value instead.
- async/await, the `sleep(0.5)` between ack polls and all logging are not modelled.
- Several coroutines are never awaited: `DaisyDevice.update_state`, the return of `feed_the_commands` and the recursive `_get_ack`, and the device actions that call `feed_the_commands`. The model gives these calls their evidently intended synchronous meaning.
- Client.TelecoDaisy.GetAck: the source polls without bound while replies say RCV. The model polls over a finite reply sequence, and running out of replies is the error `PollsExhausted`.
- Transport failures are not modelled. The only exception is a missing room-list reply in the hub fetch, which stands for any failure of that call.
- An API error keeps only the result code or message id, not the whole reply.
- `get_installation_is_active` and `DaisyInstallation.status` are not modelled. They only pass a field of the reply through.
- Installation latitude and longitude (floats) are not modelled.
- The request bodies of the login (email and password) and of the list and status queries are not modelled.
- Decimal.ParseInt: Python's `int()` also accepts surrounding whitespace, underscores between digits and non-ASCII digits. The model accepts only an optional sign and ASCII digits, which is what the Daisy status values use.
- Client.TelecoDaisy.GetRoomList: the `pop` of `deviceList` out of the reply dictionary is not modelled, because the reply is a value.
- The Python objects the hub lists share with the entities are Dafny `Device` values. So the hub's lists and a device object's status fields are not linked by identity in the model.
- Hub.DaisyHub.AppendRooms: the `hasattr(room, "deviceList")` guard is not modelled. Every room built by the client has a device list, so that branch cannot be taken.
- Shade.TelecoDaisyShade.OpenCover and the other shade actions return the outcome instead of `None`. Only whether an exception was raised is significant.
- `light.py`, `config_flow.py`, `__init__.py` and `test.py` are Home Assistant wiring, UI and a manual script.
- `shade.py` `async_setup_entry` and `device_info` are not modelled. `async_setup_entry` names a class the module does not define.
- The shade entity's unique id, name, device class and availability are constant attributes set once.
- `DaisyHub.test_connection` and the Home Assistant session acquisition are not modelled.
