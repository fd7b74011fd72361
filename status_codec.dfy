/** Decoding of status items into the typed fields of lights and covers
    (update_state of DaisyLight, DaisyCover and DaisyShade), and the
    fixed-width colour string "A###R###G###B###". */
module StatusCodec {
  import opened DaisyTypes
  import opened Decimal

  /** The status fields of a DaisyLight; None is Python's None. */
  datatype LightState = LightState(isOn: Option<bool>, brightness: Option<int>, rgb: Option<Rgb>)

  /** The status fields of a DaisyCover or DaisyShade. */
  datatype CoverState = CoverState(position: Option<int>, isClosed: Option<bool>)

  const UnknownLight := LightState(None, None, None)
  const UnknownCover := CoverState(None, None)

  /** The fields one status item (or a run of them) assigns: Some(v) overwrites with v. */
  datatype LightPatch = LightPatch(isOn: Option<bool>, brightness: Option<int>, rgb: Option<Rgb>)
  datatype CoverPatch = CoverPatch(position: Option<int>, isClosed: Option<Option<bool>>)

  /** What a status item or list does: the fields it assigns and the error it raises, if any. */
  datatype Effect<P> = Effect(patch: P, failure: Option<Error>)

  /** A decoding outcome: the state after the loop and the error that stopped it, if any. */
  datatype Decoded<S> = Decoded(state: S, failure: Option<Error>)

  const NoLightPatch := LightPatch(None, None, None)
  const NoCoverPatch := CoverPatch(None, None)

  function Overwrite<T>(old_: Option<T>, new_: Option<T>): Option<T> {
    if new_.Some? then new_ else old_
  }

  function ApplyLight(s: LightState, p: LightPatch): LightState {
    LightState(Overwrite(s.isOn, p.isOn), Overwrite(s.brightness, p.brightness), Overwrite(s.rgb, p.rgb))
  }

  function ApplyCover(s: CoverState, p: CoverPatch): CoverState {
    CoverState(Overwrite(s.position, p.position),
               if p.isClosed.Some? then p.isClosed.value else s.isClosed)
  }

  /** Python's s[i:j] for 0 <= i <= j: indices past the end are clamped. */
  function PySlice(s: string, i: nat, j: nat): (r: string)
    requires i <= j
    ensures j <= |s| ==> r == s[i..j]
    ensures |r| <= j - i
  {
    var a := if i < |s| then i else |s|;
    var b := if j < |s| then j else |s|;
    s[a..b]
  }

  function ParseField(text: string): Result<int> {
    match ParseInt(text)
    case Some(v) => Ok(v)
    case None => Err(InvalidLiteral(text))
  }

  /** int(val[1:4]): the brightness field of a colour string. */
  function DecodeBrightness(v: string): (r: Result<int>)
    ensures |v| >= 4 && AllDigits(v[1..4]) ==> r.Ok? && 0 <= r.value < 1000
    ensures |v| <= 1 ==> r == Err(InvalidLiteral(""))
  {
    ThreeDigits(PySlice(v, 1, 4));
    ParseField(PySlice(v, 1, 4))
  }

  /** (int(val[5:8]), int(val[9:12]), int(val[13:16])), evaluated left to right. */
  function DecodeRgb(v: string): (r: Result<Rgb>)
    ensures |v| >= 16 && AllDigits(v[5..8]) && AllDigits(v[9..12]) && AllDigits(v[13..16]) ==>
      r.Ok? && 0 <= r.value.0 < 1000 && 0 <= r.value.1 < 1000 && 0 <= r.value.2 < 1000
    ensures |v| <= 5 ==> r == Err(InvalidLiteral(""))
  {
    ThreeDigits(PySlice(v, 5, 8));
    ThreeDigits(PySlice(v, 9, 12));
    ThreeDigits(PySlice(v, 13, 16));
    match ParseField(PySlice(v, 5, 8))
    case Err(e) => Err(e)
    case Ok(r) =>
      match ParseField(PySlice(v, 9, 12))
      case Err(e) => Err(e)
      case Ok(g) =>
        match ParseField(PySlice(v, 13, 16))
        case Err(e) => Err(e)
        case Ok(b) => Ok((r, g, b))
  }

  predicate ValidBrightness(b: int) {
    0 <= b <= 100
  }

  predicate ValidRgb(c: Rgb) {
    0 <= c.0 <= 255 && 0 <= c.1 <= 255 && 0 <= c.2 <= 255
  }

  /** f"A{b:03d}R{r:03d}G{g:03d}B{b:03d}" for values already range-checked. */
  function EncodeColor(brightness: int, c: Rgb): (s: string)
    requires ValidBrightness(brightness) && ValidRgb(c)
    ensures |s| == 16 && s[0] == 'A' && s[4] == 'R' && s[8] == 'G' && s[12] == 'B'
  {
    Pad3RoundTrip(brightness);
    Pad3RoundTrip(c.0);
    Pad3RoundTrip(c.1);
    Pad3RoundTrip(c.2);
    "A" + Pad3(brightness) + "R" + Pad3(c.0) + "G" + Pad3(c.1) + "B" + Pad3(c.2)
  }

  /** The colour string is 16 characters long and its fixed offsets give back what was encoded. */
  lemma ColorRoundTrip(brightness: int, c: Rgb)
    requires ValidBrightness(brightness) && ValidRgb(c)
    ensures |EncodeColor(brightness, c)| == 16
    ensures DecodeBrightness(EncodeColor(brightness, c)) == Ok(brightness)
    ensures DecodeRgb(EncodeColor(brightness, c)) == Ok(c)
  {
    EncodeColorFields(brightness, c);
    Pad3RoundTrip(brightness);
    Pad3RoundTrip(c.0);
    Pad3RoundTrip(c.1);
    Pad3RoundTrip(c.2);
  }

  /** The colour string holds the four padded numbers at offsets 1, 5, 9 and 13. */
  lemma EncodeColorFields(brightness: int, c: Rgb)
    requires ValidBrightness(brightness) && ValidRgb(c)
    ensures var v := EncodeColor(brightness, c);
      v[1..4] == Pad3(brightness) && v[5..8] == Pad3(c.0) && v[9..12] == Pad3(c.1) && v[13..16] == Pad3(c.2)
  {
    var pb, pr, pg, pl := Pad3(brightness), Pad3(c.0), Pad3(c.1), Pad3(c.2);
    Pad3RoundTrip(brightness);
    Pad3RoundTrip(c.0);
    Pad3RoundTrip(c.1);
    Pad3RoundTrip(c.2);
    var v := EncodeColor(brightness, c);
    assert v == "A" + pb + "R" + pr + "G" + pg + "B" + pl;
    FieldAt(v, 1, pb);
    FieldAt(v, 5, pr);
    FieldAt(v, 9, pg);
    FieldAt(v, 13, pl);
  }

  /** A three-character field that matches the string character by character is its slice. */
  lemma FieldAt(v: string, at: nat, field: string)
    requires |field| == 3 && at + 3 <= |v|
    requires v[at] == field[0] && v[at + 1] == field[1] && v[at + 2] == field[2]
    ensures v[at..at + 3] == field
  {
  }

  /** The fields one item assigns in DaisyLight.update_state. */
  function LightItemEffect(item: StatusItem): (e: Effect<LightPatch>)
    ensures e.patch.isOn.Some? <==> item.statusitemCode == "POWER"
    ensures item.statusitemCode != "COLOR" ==> e.patch.brightness.None? && e.patch.rgb.None? && e.failure.None?
    ensures e.patch.rgb.Some? ==> e.patch.brightness.Some? && e.failure.None?
  {
    var v := item.statusValue;
    if item.statusitemCode == "POWER" then
      Effect(LightPatch(Some(v == "ON"), None, None), None)
    else if item.statusitemCode == "COLOR" then
      match DecodeBrightness(v)
      case Err(e) => Effect(NoLightPatch, Some(e))
      case Ok(b) =>
        match DecodeRgb(v)
        case Err(e) => Effect(LightPatch(None, Some(b), None), Some(e))
        case Ok(c) => Effect(LightPatch(None, Some(b), Some(c)), None)
    else
      Effect(NoLightPatch, None)
  }

  /** The fields one item assigns in DaisyCover.update_state (and DaisyShade's, which is the same). */
  function CoverItemEffect(item: StatusItem): (e: Effect<CoverPatch>)
    ensures e.patch.isClosed.Some? <==> item.statusitemCode == "OPEN_CLOSE"
    ensures e.patch.position.Some? ==> item.statusitemCode == "LEVEL"
    ensures e.failure.Some? ==> item.statusitemCode == "LEVEL" && e.patch == NoCoverPatch
  {
    var v := item.statusValue;
    if item.statusitemCode == "OPEN_CLOSE" then
      var closed := if v == "CLOSE" then Some(true) else if v == "OPEN" then Some(false) else None;
      Effect(CoverPatch(None, Some(closed)), None)
    else if item.statusitemCode == "LEVEL" then
      match ParseField(v)
      case Err(e) => Effect(NoCoverPatch, Some(e))
      case Ok(p) => Effect(CoverPatch(Some(p), None), None)
    else
      Effect(NoCoverPatch, None)
  }

  /** The status loop of DaisyLight.update_state: items in order, stopping at the first error. */
  function DecodeLight(s: LightState, items: seq<StatusItem>): (r: Decoded<LightState>)
    ensures (forall i :: 0 <= i < |items| ==> items[i].statusitemCode != "COLOR") ==>
      r.failure.None? && r.state.brightness == s.brightness && r.state.rgb == s.rgb
    decreases |items|
  {
    if items == [] then Decoded(s, None)
    else
      var e := LightItemEffect(items[0]);
      var s' := ApplyLight(s, e.patch);
      if e.failure.Some? then Decoded(s', e.failure) else DecodeLight(s', items[1..])
  }

  /** The status loop of DaisyCover.update_state and DaisyShade.update_state. */
  function DecodeCover(s: CoverState, items: seq<StatusItem>): (r: Decoded<CoverState>)
    ensures (forall i :: 0 <= i < |items| ==> items[i].statusitemCode != "LEVEL") ==>
      r.failure.None? && r.state.position == s.position
    decreases |items|
  {
    if items == [] then Decoded(s, None)
    else
      var e := CoverItemEffect(items[0]);
      var s' := ApplyCover(s, e.patch);
      if e.failure.Some? then Decoded(s', e.failure) else DecodeCover(s', items[1..])
  }

  function ThenLight(p: LightPatch, q: LightPatch): LightPatch {
    LightPatch(Overwrite(p.isOn, q.isOn), Overwrite(p.brightness, q.brightness), Overwrite(p.rgb, q.rgb))
  }

  function ThenCover(p: CoverPatch, q: CoverPatch): CoverPatch {
    CoverPatch(Overwrite(p.position, q.position), Overwrite(p.isClosed, q.isClosed))
  }

  /** What a whole status list does to a light, whatever its state before. */
  function LightListEffect(items: seq<StatusItem>): Effect<LightPatch>
    decreases |items|
  {
    if items == [] then Effect(NoLightPatch, None)
    else
      var e := LightItemEffect(items[0]);
      if e.failure.Some? then e
      else
        var rest := LightListEffect(items[1..]);
        Effect(ThenLight(e.patch, rest.patch), rest.failure)
  }

  /** What a whole status list does to a cover, whatever its state before. */
  function CoverListEffect(items: seq<StatusItem>): Effect<CoverPatch>
    decreases |items|
  {
    if items == [] then Effect(NoCoverPatch, None)
    else
      var e := CoverItemEffect(items[0]);
      if e.failure.Some? then e
      else
        var rest := CoverListEffect(items[1..]);
        Effect(ThenCover(e.patch, rest.patch), rest.failure)
  }

  /** Decoding a light's status list overwrites the fields named by a patch that does not depend on the prior state. */
  lemma {:induction false} DecodeLightIsOverwrite(s: LightState, items: seq<StatusItem>)
    ensures DecodeLight(s, items) ==
      Decoded(ApplyLight(s, LightListEffect(items).patch), LightListEffect(items).failure)
    decreases |items|
  {
    if items != [] {
      var e := LightItemEffect(items[0]);
      if e.failure.None? {
        DecodeLightIsOverwrite(ApplyLight(s, e.patch), items[1..]);
      }
    }
  }

  /** Decoding a cover's status list overwrites the fields named by a patch that does not depend on the prior state. */
  lemma {:induction false} DecodeCoverIsOverwrite(s: CoverState, items: seq<StatusItem>)
    ensures DecodeCover(s, items) ==
      Decoded(ApplyCover(s, CoverListEffect(items).patch), CoverListEffect(items).failure)
    decreases |items|
  {
    if items != [] {
      var e := CoverItemEffect(items[0]);
      if e.failure.None? {
        DecodeCoverIsOverwrite(ApplyCover(s, e.patch), items[1..]);
      }
    }
  }

  /** Applying the same status list to a light twice gives the state and outcome of applying it once. */
  lemma DecodeLightIdempotent(s: LightState, items: seq<StatusItem>)
    ensures DecodeLight(DecodeLight(s, items).state, items) == DecodeLight(s, items)
  {
    DecodeLightIsOverwrite(s, items);
    DecodeLightIsOverwrite(DecodeLight(s, items).state, items);
  }

  /** Applying the same status list to a cover twice gives the state and outcome of applying it once. */
  lemma DecodeCoverIdempotent(s: CoverState, items: seq<StatusItem>)
    ensures DecodeCover(DecodeCover(s, items).state, items) == DecodeCover(s, items)
  {
    DecodeCoverIsOverwrite(s, items);
    DecodeCoverIsOverwrite(DecodeCover(s, items).state, items);
  }

  /** A COLOR item carrying an encoded colour string sets exactly the brightness and colour encoded. */
  lemma ColorItemDecodes(s: LightState, item: StatusItem, brightness: int, c: Rgb)
    requires ValidBrightness(brightness) && ValidRgb(c)
    requires item.statusitemCode == "COLOR" && item.statusValue == EncodeColor(brightness, c)
    ensures DecodeLight(s, [item]) == Decoded(s.(brightness := Some(brightness), rgb := Some(c)), None)
  {
    ColorRoundTrip(brightness, c);
    assert [item][1..] == [];
  }

  /** POWER sets the power flag to whether the value is "ON"; COLOR sets the brightness from [1:4]
      and then the colour from [5:8], [9:12] and [13:16], raising at the first malformed field
      after keeping what it already set; other codes change nothing. */
  lemma LightItemDecodes(s: LightState, item: StatusItem)
    ensures item.statusitemCode == "POWER" ==>
      DecodeLight(s, [item]) == Decoded(s.(isOn := Some(item.statusValue == "ON")), None)
    ensures item.statusitemCode == "COLOR" && DecodeBrightness(item.statusValue).Err? ==>
      DecodeLight(s, [item]) == Decoded(s, Some(InvalidLiteral(PySlice(item.statusValue, 1, 4))))
    ensures item.statusitemCode == "COLOR" && DecodeBrightness(item.statusValue).Ok? && DecodeRgb(item.statusValue).Err? ==>
      DecodeLight(s, [item]) ==
        Decoded(s.(brightness := Some(DecodeBrightness(item.statusValue).value)), Some(DecodeRgb(item.statusValue).error))
    ensures item.statusitemCode == "COLOR" && DecodeBrightness(item.statusValue).Ok? && DecodeRgb(item.statusValue).Ok? ==>
      DecodeLight(s, [item]) ==
        Decoded(s.(brightness := Some(DecodeBrightness(item.statusValue).value), rgb := Some(DecodeRgb(item.statusValue).value)), None)
    ensures item.statusitemCode !in {"POWER", "COLOR"} ==> DecodeLight(s, [item]) == Decoded(s, None)
  {
    assert [item][1..] == [];
  }

  /** OPEN_CLOSE sets the tri-state flag: CLOSE is closed, OPEN is open, anything else unknown;
      LEVEL with a decimal value sets the position; other codes change nothing. */
  lemma CoverItemDecodes(s: CoverState, item: StatusItem)
    ensures item.statusitemCode == "OPEN_CLOSE" ==>
      DecodeCover(s, [item]) == Decoded(s.(isClosed :=
        if item.statusValue == "CLOSE" then Some(true)
        else if item.statusValue == "OPEN" then Some(false) else None), None)
    ensures item.statusitemCode == "LEVEL" && ParseInt(item.statusValue).Some? ==>
      DecodeCover(s, [item]) == Decoded(s.(position := ParseInt(item.statusValue)), None)
    ensures item.statusitemCode == "LEVEL" && ParseInt(item.statusValue).None? ==>
      DecodeCover(s, [item]) == Decoded(s, Some(InvalidLiteral(item.statusValue)))
    ensures item.statusitemCode !in {"OPEN_CLOSE", "LEVEL"} ==> DecodeCover(s, [item]) == Decoded(s, None)
  {
    assert [item][1..] == [];
  }

  /** Status decode of "A050R255G000B000" gives brightness 50 and colour (255, 0, 0). */
  lemma DecodeExampleColor(s: LightState)
    ensures DecodeLight(s, [StatusItem(0, 0, "COLOR", "", "A050R255G000B000")]).state
      == s.(brightness := Some(50), rgb := Some((255, 0, 0)))
  {
    ColorRoundTrip(50, (255, 0, 0));
    assert EncodeColor(50, (255, 0, 0)) == "A050R255G000B000";
    ColorItemDecodes(s, StatusItem(0, 0, "COLOR", "", "A050R255G000B000"), 50, (255, 0, 0));
  }
}
