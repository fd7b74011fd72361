/** DaisyHub: logs in through the client and keeps the lights and covers it
    found in every room of every installation. */
module Hub {
  import opened DaisyTypes
  import opened Client

  /** The lights among some devices, in order. */
  function Lights(ds: seq<Device>): (r: seq<Device>)
    ensures |r| <= |ds|
    decreases |ds|
  {
    if ds == [] then []
    else
      var last := ds[|ds| - 1];
      Lights(ds[..|ds| - 1]) + (if last.kind == LightKind then [last] else [])
  }

  /** The covers (type 24) among some devices, in order; shades are not among them. */
  function Covers(ds: seq<Device>): (r: seq<Device>)
    ensures |r| <= |ds|
    decreases |ds|
  {
    if ds == [] then []
    else
      var last := ds[|ds| - 1];
      Covers(ds[..|ds| - 1]) + (if last.kind == CoverKind then [last] else [])
  }

  /** The shades among some devices, which the hub keeps in neither list. */
  function Shades(ds: seq<Device>): seq<Device>
    decreases |ds|
  {
    if ds == [] then []
    else
      var last := ds[|ds| - 1];
      Shades(ds[..|ds| - 1]) + (if last.kind == ShadeKind then [last] else [])
  }

  /** Every device of every room, room by room and in device order. */
  function RoomDevices(rooms: seq<Room>): seq<Device>
    decreases |rooms|
  {
    if rooms == [] then []
    else RoomDevices(rooms[..|rooms| - 1]) + rooms[|rooms| - 1].deviceList
  }

  /** The devices a fetch visits before it stops, and whether it ran to the end. */
  datatype FetchResult = FetchResult(devices: seq<Device>, complete: bool)

  /** The per-installation part of async_fetch_entities: one room-list reply per installation in
      order; a rejected or missing reply stops the fetch, keeping what came before. */
  function FetchDevices(insts: seq<Installation>, roomReplies: seq<Reply<seq<RawRoom>>>): (f: FetchResult)
    ensures f.complete <==>
      |insts| <= |roomReplies| && forall i :: 0 <= i < |insts| ==> roomReplies[i].codEsito == "S"
    decreases |insts|
  {
    if insts == [] then FetchResult([], true)
    else if roomReplies == [] then FetchResult([], false)
    else
      match RoomList(insts[0], roomReplies[0])
      case Err(_) => FetchResult([], false)
      case Ok(rooms) =>
        var rest := FetchDevices(insts[1..], roomReplies[1..]);
        FetchResult(RoomDevices(rooms) + rest.devices, rest.complete)
  }

  /** async_fetch_entities as a whole: nothing is visited when the installation list is rejected. */
  function FetchEntities(instReply: Reply<seq<Installation>>, roomReplies: seq<Reply<seq<RawRoom>>>): (f: FetchResult)
    ensures instReply.codEsito != "S" ==> f == FetchResult([], false)
    ensures f.complete <==>
      && instReply.codEsito == "S"
      && |instReply.valRisultato| <= |roomReplies|
      && forall i :: 0 <= i < |instReply.valRisultato| ==> roomReplies[i].codEsito == "S"
  {
    if instReply.codEsito != "S" then FetchResult([], false)
    else FetchDevices(instReply.valRisultato, roomReplies)
  }

  /** One installation's step of the fetch, for a suffix of the installations. */
  lemma FetchStep(insts: seq<Installation>, roomReplies: seq<Reply<seq<RawRoom>>>, i: nat, rooms: seq<Room>)
    requires i < |insts| && i < |roomReplies| && RoomList(insts[i], roomReplies[i]) == Ok(rooms)
    ensures var rest := FetchDevices(insts[i + 1..], roomReplies[i + 1..]);
      FetchDevices(insts[i..], roomReplies[i..]) == FetchResult(RoomDevices(rooms) + rest.devices, rest.complete)
  {
    assert insts[i..][0] == insts[i] && insts[i..][1..] == insts[i + 1..];
    assert roomReplies[i..][0] == roomReplies[i] && roomReplies[i..][1..] == roomReplies[i + 1..];
  }

  /** A missing or rejected room-list reply ends the fetch of a suffix with nothing more visited. */
  lemma FetchStop(insts: seq<Installation>, roomReplies: seq<Reply<seq<RawRoom>>>, i: nat)
    requires i < |insts| && i <= |roomReplies|
    requires i == |roomReplies| || RoomList(insts[i], roomReplies[i]).Err?
    ensures FetchDevices(insts[i..], roomReplies[i..]) == FetchResult([], false)
  {
    if i < |roomReplies| {
      assert insts[i..][0] == insts[i] && roomReplies[i..][0] == roomReplies[i];
    } else {
      assert roomReplies[i..] == [];
    }
  }

  /** The fetch of all installations is what was seen so far followed by the fetch of the rest. */
  ghost predicate FetchedSoFar(insts: seq<Installation>, roomReplies: seq<Reply<seq<RawRoom>>>, i: nat, seen: seq<Device>)
    requires i <= |insts| && i <= |roomReplies|
  {
    var rest := FetchDevices(insts[i..], roomReplies[i..]);
    FetchDevices(insts, roomReplies) == FetchResult(seen + rest.devices, rest.complete)
  }

  /** A successful room list for the next installation extends what the fetch has seen. */
  lemma FetchAdvance(insts: seq<Installation>, roomReplies: seq<Reply<seq<RawRoom>>>, i: nat,
                     seen: seq<Device>, rooms: seq<Room>)
    requires i < |insts| && i < |roomReplies| && RoomList(insts[i], roomReplies[i]) == Ok(rooms)
    requires FetchedSoFar(insts, roomReplies, i, seen)
    ensures FetchedSoFar(insts, roomReplies, i + 1, seen + RoomDevices(rooms))
  {
    var added := RoomDevices(rooms);
    var rest := FetchDevices(insts[i + 1..], roomReplies[i + 1..]);
    FetchStep(insts, roomReplies, i, rooms);
    assert seen + (added + rest.devices) == (seen + added) + rest.devices;
  }

  /** Where the fetch stops, what was seen is all of it; it is complete only after the last installation. */
  lemma FetchEnds(insts: seq<Installation>, roomReplies: seq<Reply<seq<RawRoom>>>, i: nat, seen: seq<Device>)
    requires i <= |insts| && i <= |roomReplies| && FetchedSoFar(insts, roomReplies, i, seen)
    requires i == |insts| || i == |roomReplies| || RoomList(insts[i], roomReplies[i]).Err?
    ensures FetchDevices(insts, roomReplies) == FetchResult(seen, i == |insts|)
  {
    if i < |insts| {
      FetchStop(insts, roomReplies, i);
    } else {
      assert insts[i..] == [];
    }
    assert seen + [] == seen;
  }

  /** One more room of the room loop appends that room's lights and covers. */
  lemma RoomsAdvance(rooms: seq<Room>, j: nat, lightsBefore: seq<Device>, coversBefore: seq<Device>)
    requires j < |rooms|
    ensures lightsBefore + Lights(RoomDevices(rooms[..j])) + Lights(rooms[j].deviceList)
      == lightsBefore + Lights(RoomDevices(rooms[..j + 1]))
    ensures coversBefore + Covers(RoomDevices(rooms[..j])) + Covers(rooms[j].deviceList)
      == coversBefore + Covers(RoomDevices(rooms[..j + 1]))
  {
    var done := RoomDevices(rooms[..j]);
    assert rooms[..j + 1][..j] == rooms[..j];
    assert RoomDevices(rooms[..j + 1]) == done + rooms[j].deviceList;
    LightsAppend(done, rooms[j].deviceList);
    CoversAppend(done, rooms[j].deviceList);
  }

  /** The light partition keeps order across concatenation: devices of earlier rooms and installations come first. */
  lemma {:induction false} LightsAppend(a: seq<Device>, b: seq<Device>)
    ensures Lights(a + b) == Lights(a) + Lights(b)
    decreases |b|
  {
    if b == [] {
      assert a + b == a;
    } else {
      var init := b[..|b| - 1];
      assert (a + b)[..|a + b| - 1] == a + init;
      LightsAppend(a, init);
    }
  }

  /** The cover partition keeps order across concatenation. */
  lemma {:induction false} CoversAppend(a: seq<Device>, b: seq<Device>)
    ensures Covers(a + b) == Covers(a) + Covers(b)
    decreases |b|
  {
    if b == [] {
      assert a + b == a;
    } else {
      var init := b[..|b| - 1];
      assert (a + b)[..|a + b| - 1] == a + init;
      CoversAppend(a, init);
    }
  }

  /** Every device lands in exactly one of lights, covers and shades: the counts add up. */
  lemma {:induction false} PartitionCount(ds: seq<Device>)
    ensures |Lights(ds)| + |Covers(ds)| + |Shades(ds)| == |ds|
    decreases |ds|
  {
    if ds != [] {
      PartitionCount(ds[..|ds| - 1]);
    }
  }

  /** lights holds exactly the devices of kind light and covers exactly those of kind cover. */
  lemma {:induction false} PartitionMembers(ds: seq<Device>)
    ensures forall d :: d in Lights(ds) <==> d in ds && d.kind == LightKind
    ensures forall d :: d in Covers(ds) <==> d in ds && d.kind == CoverKind
    decreases |ds|
  {
    if ds != [] {
      var init := ds[..|ds| - 1];
      PartitionMembers(init);
      assert ds == init + [ds[|ds| - 1]];
    }
  }

  /** No device is both a light and a cover, and a shade is neither. */
  lemma PartitionDisjoint(ds: seq<Device>)
    ensures forall d :: !(d in Lights(ds) && d in Covers(ds))
    ensures forall d :: d in ds && d.kind == ShadeKind ==> d !in Lights(ds) && d !in Covers(ds)
  {
    PartitionMembers(ds);
  }

  class DaisyHub {
    const api: TelecoDaisy
    var online: bool
    var lights: seq<Device>
    var covers: seq<Device>

    constructor (api: TelecoDaisy)
      ensures this.api == api && !online && lights == [] && covers == []
    {
      this.api := api;
      online := false;
      lights, covers := [], [];
    }

    /** login: online and true when the client's login succeeds, offline and false when it raises. */
    method Login(reply: Reply<Credentials>) returns (ok: bool)
      modifies this, api
      ensures ok == (reply.codEsito == "S") && online == ok
      ensures lights == old(lights) && covers == old(covers)
      ensures ok ==> api.idAccount == Some(reply.valRisultato.idAccount) && api.idSession == Some(reply.valRisultato.idSession)
      ensures !ok ==> api.idAccount == old(api.idAccount) && api.idSession == old(api.idSession)
    {
      var r := api.Login(reply);
      online := r.Ok?;
      ok := r.Ok?;
    }

    /** async_setup: the same login step as login. */
    method AsyncSetup(reply: Reply<Credentials>) returns (ok: bool)
      modifies this, api
      ensures ok == (reply.codEsito == "S") && online == ok
      ensures lights == old(lights) && covers == old(covers)
      ensures ok ==> api.idAccount == Some(reply.valRisultato.idAccount) && api.idSession == Some(reply.valRisultato.idSession)
      ensures !ok ==> api.idAccount == old(api.idAccount) && api.idSession == old(api.idSession)
    {
      ok := Login(reply);
    }

    /** The innermost loop of async_fetch_entities: lights and type-24 covers of one room are appended. */
    method AppendRoomDevices(devices: seq<Device>)
      modifies this
      ensures lights == old(lights) + Lights(devices) && covers == old(covers) + Covers(devices)
      ensures online == old(online)
    {
      var k := 0;
      while k < |devices|
        invariant 0 <= k <= |devices| && online == old(online)
        invariant lights == old(lights) + Lights(devices[..k])
        invariant covers == old(covers) + Covers(devices[..k])
      {
        var device := devices[k];
        assert devices[..k + 1][..k] == devices[..k];
        if device.kind == LightKind {
          assert Lights(devices[..k + 1]) == Lights(devices[..k]) + [device];
          lights := lights + [device];
        } else if device.kind == CoverKind {
          assert Covers(devices[..k + 1]) == Covers(devices[..k]) + [device];
          covers := covers + [device];
        }
        k := k + 1;
      }
      assert devices[..k] == devices;
    }

    /** The room loop of async_fetch_entities for one installation. */
    method AppendRooms(rooms: seq<Room>)
      modifies this
      ensures lights == old(lights) + Lights(RoomDevices(rooms))
      ensures covers == old(covers) + Covers(RoomDevices(rooms))
      ensures online == old(online)
    {
      var j := 0;
      while j < |rooms|
        invariant 0 <= j <= |rooms| && online == old(online)
        invariant lights == old(lights) + Lights(RoomDevices(rooms[..j]))
        invariant covers == old(covers) + Covers(RoomDevices(rooms[..j]))
      {
        AppendRoomDevices(rooms[j].deviceList);
        RoomsAdvance(rooms, j, old(lights), old(covers));
        j := j + 1;
      }
      assert rooms[..j] == rooms;
    }

    /** One installation of async_fetch_entities: its room list, then the room loop. */
    method AppendInstallation(inst: Installation, reply: Reply<seq<RawRoom>>) returns (rooms: Result<seq<Room>>)
      modifies this
      ensures rooms == RoomList(inst, reply) && online == old(online)
      ensures rooms.Err? ==> lights == old(lights) && covers == old(covers)
      ensures rooms.Ok? ==>
        lights == old(lights) + Lights(RoomDevices(rooms.value)) &&
        covers == old(covers) + Covers(RoomDevices(rooms.value))
    {
      rooms := api.GetRoomList(inst, reply);
      if rooms.Ok? {
        AppendRooms(rooms.value);
      }
    }

    /** async_fetch_entities: empties both lists, then appends every light and every type-24 cover
        of every room of every installation in order; online only if nothing raised, and what was
        appended before an error is kept. */
    method AsyncFetchEntities(instReply: Reply<seq<Installation>>, roomReplies: seq<Reply<seq<RawRoom>>>)
      modifies this
      ensures var f := FetchEntities(instReply, roomReplies);
        lights == Lights(f.devices) && covers == Covers(f.devices) && online == f.complete
      ensures instReply.codEsito != "S" ==> lights == [] && covers == [] && !online
    {
      lights := [];
      covers := [];
      var instResult := api.GetAccountInstallationList(instReply);
      if instResult.Err? {
        online := false;
        return;
      }
      var insts := instResult.value;
      ghost var seen: seq<Device> := [];
      var i := 0;
      while i < |insts|
        invariant 0 <= i <= |insts| && i <= |roomReplies|
        invariant lights == Lights(seen) && covers == Covers(seen)
        invariant FetchedSoFar(insts, roomReplies, i, seen)
      {
        if i == |roomReplies| {
          online := false;
          FetchEnds(insts, roomReplies, i, seen);
          return;
        }
        var roomResult := AppendInstallation(insts[i], roomReplies[i]);
        if roomResult.Err? {
          online := false;
          FetchEnds(insts, roomReplies, i, seen);
          return;
        }
        FetchAdvance(insts, roomReplies, i, seen, roomResult.value);
        LightsAppend(seen, RoomDevices(roomResult.value));
        CoversAppend(seen, RoomDevices(roomResult.value));
        seen := seen + RoomDevices(roomResult.value);
        i := i + 1;
      }
      FetchEnds(insts, roomReplies, i, seen);
      online := true;
    }
  }
}
