/** The variant domain server (`newdomain.py`): a labyrinth of eight rooms
    behind gates, where every user gets a private copy of the room graph
    (item table, ledgers and puzzle flags) taken from the base state on the
    first arrival, and a session flag `arrived` that `/depart` clears.

    As in `Reference`, the handlers are methods of a class and what they
    compute is stated by pure functions with contracts; the item handlers
    shared with the reference domain come from `Items`. */
module Variant {
  import opened Common
  import opened Items

  // ---------------------------------------------------------------------
  // Rooms and exits.
  // ---------------------------------------------------------------------

  const Nexus := "nexus"
  const SecretChamber := "secret_chamber"
  const PuzzleChamber0 := "puzzle_chamber_0"
  const LoreRoom := "lore_room"
  const TrapRoom := "trap_room"
  const PuzzleChamber1 := "puzzle_chamber_1"
  const PuzzleChamber2 := "puzzle_chamber_2"
  const TreasureRoom := "treasure_room"

  const Rooms: set<string> :=
    {Nexus, SecretChamber, PuzzleChamber0, LoreRoom, TrapRoom, PuzzleChamber1, PuzzleChamber2, TreasureRoom}

  const JourneyNorth := "$journey north"
  const JourneySouth := "$journey south"
  const JourneyWest := "$journey west"
  const JourneyEast := "$journey east"

  /** The exits of each room.  They are part of the copied room graph but no
      handler changes them, so every copy has these.  Besides rooms, an exit
      names a `$journey` to another domain (the nexus's four portals) or, from
      the treasure room, a `puzzle_chamber_3` that does not exist. */
  function Exits(room: string): (r: map<string, string>)
    ensures forall d :: d in r && r[d] !in Rooms ==>
      (room == Nexus && r[d] in {JourneyNorth, JourneySouth, JourneyWest, JourneyEast}) ||
      (room == TreasureRoom && d == "backwards" && r[d] == "puzzle_chamber_3")
    ensures room == Nexus ==> "north" in r && r["north"] == JourneyNorth && "east" in r && r["east"] == JourneyEast
    ensures TrapRoom in r.Values ==> room == LoreRoom
    ensures room !in Rooms ==> r == map[]
  {
    if room == Nexus then
      map["left" := PuzzleChamber0, "north" := JourneyNorth, "south" := JourneySouth, "west" := JourneyWest,
          "east" := JourneyEast, "forward" := LoreRoom, "forwards" := LoreRoom]
    else if room == SecretChamber then map["left" := Nexus, "back" := Nexus, "backwards" := Nexus]
    else if room == PuzzleChamber0 then map["right" := Nexus]
    else if room == LoreRoom then
      map["back" := Nexus, "backward" := Nexus, "backwards" := Nexus, "left" := TrapRoom,
          "right" := PuzzleChamber1, "forward" := PuzzleChamber2, "forwards" := PuzzleChamber2]
    else if room == TrapRoom then map["right" := LoreRoom, "back" := LoreRoom, "backwards" := LoreRoom, "backward" := LoreRoom]
    else if room == PuzzleChamber1 then map["left" := LoreRoom, "back" := LoreRoom, "backwards" := LoreRoom, "backward" := LoreRoom]
    else if room == PuzzleChamber2 then map["backwards" := LoreRoom, "back" := LoreRoom]
    else if room == TreasureRoom then map["backwards" := "puzzle_chamber_3"]
    else map[]
  }

  /** A portal exit is recognised by the substring `$journey`. */
  lemma JourneyExitsAreRecognised(room: string, d: string)
    requires room == Nexus && d in {"north", "south", "west", "east"}
    ensures d in Exits(room) && Contains(Exits(room)[d], "$journey")
  {
    var s := Exits(room)[d];
    assert s[..8] == "$journey";
  }

  // ---------------------------------------------------------------------
  // A user's world.
  // ---------------------------------------------------------------------

  /** One copy of the room graph: the item table, the owned ids, the room
      ledgers, and the puzzle flags the handlers read (the gates, the six
      altar slots, and the rooms whose suspension beams are on). */
  datatype World = World(
    table: Part,
    owned: seq<int>,
    ledgers: map<string, Ledger>,
    gate1: bool,
    gate2: bool,
    gate3: bool,
    altar: seq<bool>,
    beams: set<string>)

  predicate WorldValid(w: World) {
    w.ledgers.Keys == Rooms && Consistent(w.table, w.ledgers)
  }

  /** Two copies whose puzzle flags agree. */
  predicate SameFlags(w: World, v: World) {
    w.gate1 == v.gate1 && w.gate2 == v.gate2 && w.gate3 == v.gate3 && w.altar == v.altar && w.beams == v.beams
  }

  /** Whether a first visit to `dest` is let through: the nexus and the
      first two puzzle chambers are open; the lore room, the second puzzle
      chamber, the treasure room and the secret chamber wait for gate 1,
      gate 2, gate 3 and a full altar; the trap room is not in the list. */
  predicate Opens(w: World, dest: string) {
    || dest == Nexus
    || (dest == SecretChamber && forall i :: 0 <= i < |w.altar| ==> w.altar[i])
    || dest == PuzzleChamber0
    || (dest == LoreRoom && w.gate1)
    || dest == PuzzleChamber1
    || (dest == PuzzleChamber2 && w.gate2)
    || (dest == TreasureRoom && w.gate3)
  }

  /** Only rooms open, the trap room never does, and each gated room only
      with its gate. */
  lemma OpensOnlyGatedRooms(w: World, dest: string)
    requires Opens(w, dest)
    ensures dest in Rooms && dest != TrapRoom
    ensures dest == LoreRoom ==> w.gate1
    ensures dest == PuzzleChamber2 ==> w.gate2
    ensures dest == TreasureRoom ==> w.gate3
    ensures dest == SecretChamber ==> forall i :: 0 <= i < |w.altar| ==> w.altar[i]
  {
  }

  /** A user's entry: their copy of the world, their session, and whether
      they have arrived more recently than departed. */
  datatype Entry = Entry(world: World, session: Session, arrived: bool)

  /** What a session can have seen: rooms only, never the trap room, gated
      rooms only with their gate open, and the current room among them. */
  predicate Explored(e: Entry) {
    && e.session.location in e.session.visited
    && forall r :: r in e.session.visited ==> r in Rooms && Opens(e.world, r)
  }

  /** The invariant of one entry: a well-formed world and a session that
      stays inside what its gates allow. */
  predicate EntryValid(e: Entry) {
    WorldValid(e.world) && Explored(e)
  }

  // ---------------------------------------------------------------------
  // Replies.
  // ---------------------------------------------------------------------

  datatype Notice = NotJoined | DontKnow | CantGo | PleaseSpecify(query: string) | WasTaken(name: string) | NoneToTake(query: string)

  /** One line of a reply.  An item that `look` does not show as lying here
      is shown as held in a beam of light, suspended or locked in place. */
  datatype Line =
    | RoomDescription(room: string)
    | ItemHere(name: string, id: int)
    | Suspended(name: string, id: int)
    | Beamed(name: string, id: int)
    | Title(text: string)
    | Say(text: string)
    | Notice(notice: Notice)

  /** A reply: lines, the 409 of a departed session, or an exception (500). */
  datatype Reply = Said(lines: seq<Line>) | Departed | Failed

  /** How line `l` shows item `id`: here when visible, else suspended when
      the room's beams are on, else locked in place. */
  predicate Shows(l: Line, id: int, table: Part, room: string, beamsOn: bool) {
    && id in table.byId
    && (l.ItemHere? || l.Suspended? || l.Beamed?)
    && l.id == id && l.name == table.byId[id].name
    && (l.ItemHere? <==> Visible(table.byId[id], room))
    && (l.Suspended? <==> !Visible(table.byId[id], room) && beamsOn)
  }

  /** One line per listed item, in ledger order: unlike the reference
      domain, every item the room lists is mentioned. */
  function ItemLines(ids: seq<int>, table: Part, room: string, beamsOn: bool): (r: seq<Line>)
    requires forall x :: x in ids ==> x in table.byId
    ensures |r| == |ids|
    ensures forall i :: 0 <= i < |ids| ==> Shows(r[i], ids[i], table, room, beamsOn)
  {
    if |ids| == 0 then []
    else
      var id := ids[0];
      assert id in ids;
      var item := table.byId[id];
      var line := if Visible(item, room) then ItemHere(item.name, id)
        else if beamsOn then Suspended(item.name, id) else Beamed(item.name, id);
      var rest := ItemLines(ids[1..], table, room, beamsOn);
      assert forall i :: 1 <= i < |ids| ==> ids[i] == ids[1..][i - 1];
      [line] + rest
  }

  /** `look`: the room's description, then one line per item it lists. */
  function LookLines(room: string, w: World): (r: seq<Line>)
    requires room in w.ledgers && Consistent(w.table, w.ledgers)
    ensures |r| == 1 + |w.ledgers[room].ids| && r[0] == RoomDescription(room)
    ensures forall i :: 1 <= i < |r| ==> Shows(r[i], w.ledgers[room].ids[i - 1], w.table, room, room in w.beams)
  {
    [RoomDescription(room)] + ItemLines(w.ledgers[room].ids, w.table, room, room in w.beams)
  }

  // ---------------------------------------------------------------------
  // find_item_location and take.
  // ---------------------------------------------------------------------

  /** What `find_item_location` answers: whether a name is ambiguous, the
      item found, and the id to transfer. */
  datatype Located = Located(duplicate: bool, item: Option<Item>, id: Option<int>)

  /** A digit query is an id looked up among the room's ids; a name query is
      ambiguous when the room lists the name more than once, and is resolved
      through the item table when the room lists it at all. */
  function FindItemLocation(q: string, here: Ledger, table: Part): (r: Located)
    requires forall x :: x in here.ids ==> x in table.byId
    requires forall n :: n in here.names ==> n in table.byName && table.byName[n] in table.byId
    ensures IsDigits(q) ==> !r.duplicate && r.id == Some(ParseNat(q))
    ensures IsDigits(q) ==> (r.item.Some? <==> ParseNat(q) in here.ids)
    ensures !IsDigits(q) ==> (r.duplicate <==> multiset(here.names)[q] > 1)
    ensures !IsDigits(q) ==> (r.item.Some? <==> q in here.names)
    ensures !IsDigits(q) ==> r.id == if q in here.names then Some(table.byName[q]) else None
    ensures r.item.Some? ==> r.id.Some? && r.id.value in table.byId && r.item.value == table.byId[r.id.value]
    ensures r.duplicate ==> r.item.Some?
  {
    if IsDigits(q) then
      var id := ParseNat(q);
      Located(false, if id in here.ids then Some(table.byId[id]) else None, Some(id))
    else
      var duplicate := multiset(here.names)[q] > 1;
      if q in here.names then
        var id := table.byName[q];
        Located(duplicate, Some(table.byId[id]), Some(id))
      else
        Located(duplicate, None, None)
  }

  /** The take rule of this domain: the item was dropped in this room or
      has depth 0.  The source's first clause tests a room key
      `suspension_beams` that no room has, so it never holds.  The rule lets
      through exactly what `look` shows as lying here. */
  predicate CanTake(item: Item, room: string) {
    item.location == Some(room) || item.depth.GetOr(0) == 0
  }

  lemma CanTakeIsVisible(item: Item, room: string)
    ensures CanTake(item, room) <==> Visible(item, room)
  {
  }

  /** `take X` once the query is not ambiguous: find the item, check the
      rule, ask the hub, and only on its 200 move the item. */
  function TakeStep(sc: Scene, q: string, owned: seq<int>, hub: TransferAnswer): (r: TakeResult)
    requires sc.session.location in sc.ledgers && Consistent(sc.table, sc.ledgers)
    ensures hub == Declined ==> r.NothingTaken?
    ensures var f := FindItemLocation(q, sc.ledgers[sc.session.location], sc.table);
      !r.NothingTaken? <==> hub != Declined && f.item.Some? && CanTake(f.item.value, sc.session.location)
    ensures var f := FindItemLocation(q, sc.ledgers[sc.session.location], sc.table);
      !r.NothingTaken? && hub == Agreed ==> r == Pickup(sc, f.id.value, f.item.value, owned)
    ensures !r.NothingTaken? && hub == Raised ==> r == TakeCrashed(sc)
    ensures r.Taken? ==> hub == Agreed && Visible(FindItemLocation(q, sc.ledgers[sc.session.location], sc.table).item.value, sc.session.location)
  {
    var f := FindItemLocation(q, sc.ledgers[sc.session.location], sc.table);
    if f.item.None? || !CanTake(f.item.value, sc.session.location) || hub == Declined then NothingTaken
    else if hub == Raised then TakeCrashed(sc)
    else Pickup(sc, f.id.value, f.item.value, owned)
  }

  function TakeReply(r: TakeResult, q: string): (reply: Reply)
    ensures r.NothingTaken? ==> reply == Said([Notice(NoneToTake(q))])
    ensures r.Taken? ==> reply == Said([Notice(WasTaken(r.name))])
    ensures reply.Failed? <==> r.TakeCrashed?
  {
    match r
    case NothingTaken => Said([Notice(NoneToTake(q))])
    case TakeCrashed(_) => Failed
    case Taken(name, _) => Said([Notice(WasTaken(name))])
  }

  // ---------------------------------------------------------------------
  // Commands.
  // ---------------------------------------------------------------------

  datatype Command = LookAround | Take(query: string) | Go(direction: string) | Verb(verb: string, query: string) | Unknown

  /** The handler's branch order, for commands other than `look` with a target. */
  function Parse(words: seq<string>): (c: Command)
    requires !(|words| >= 2 && words[0] == "look")
    ensures c.Verb? ==> |words| == 2 && words[0] !in {"take", "go"} && c == Verb(words[0], words[1])
    ensures c.Unknown? <==> words != ["look"] && |words| != 2
  {
    if words == ["look"] then LookAround
    else if |words| == 2 && words[0] == "take" then Take(words[1])
    else if |words| == 2 && words[0] == "go" then Go(words[1])
    else if |words| == 2 then Verb(words[0], words[1])
    else Unknown
  }

  /** How `go` moves a user, given the world: where to, and whether this is
      a first visit; `None` when the move is refused. */
  function Move(e: Entry, dest: string): (r: Option<bool>)
    ensures r == Some(false) <==> dest in e.session.visited
    ensures r == Some(true) <==> dest !in e.session.visited && Opens(e.world, dest)
  {
    if dest in e.session.visited then Some(false)
    else if Opens(e.world, dest) then Some(true)
    else None
  }

  /** Where arrival puts a prize: depths 0, 1 and 2 go to the first puzzle
      chamber, the lore room and the second puzzle chamber. */
  function PrizeRoom(item: Item): (r: Option<string>)
    ensures r == Some(PuzzleChamber0) <==> item.depth == Some(0)
    ensures r == Some(LoreRoom) <==> item.depth == Some(1)
    ensures r == Some(PuzzleChamber2) <==> item.depth == Some(2)
    ensures r.None? <==> item.depth !in {Some(0), Some(1), Some(2)}
  {
    if item.depth == Some(0) then Some(PuzzleChamber0)
    else if item.depth == Some(1) then Some(LoreRoom)
    else if item.depth == Some(2) then Some(PuzzleChamber2)
    else None
  }

  function DroppedRoom(item: Item): Option<string> {
    item.location
  }

  /** The entry a user starts from on `/arrive`: their own world when they
      have one, else a fresh copy of the base; the session emptied, at the
      nexus, which counts as visited, and arrived. */
  function Entering(users: map<int, Entry>, uid: int, base: World): (e: Entry)
    ensures e.world == if uid in users then users[uid].world else base
    ensures e.arrived && e.session.location == Nexus
    ensures e.session.owned == EmptyPart && e.session.carried == EmptyPart
    ensures e.session.dropped == EmptyPart && e.session.prize == EmptyPart
    ensures e.session.visited == (if uid in users then users[uid].session.visited else {}) + {Nexus}
    ensures (uid in users ==> Explored(users[uid])) ==> Explored(e)
  {
    if uid in users then
      var s := users[uid].session;
      Entry(users[uid].world, Session(EmptyPart, EmptyPart, EmptyPart, EmptyPart, Nexus, s.visited + {Nexus}), true)
    else
      Entry(base, Session(EmptyPart, EmptyPart, EmptyPart, EmptyPart, Nexus, {Nexus}), true)
  }

  /** Replacing a world by one with the same flags keeps what the session
      has explored within its gates. */
  lemma Reflag(e: Entry, w: World)
    requires Explored(e) && SameFlags(e.world, w)
    ensures Explored(e.(world := w))
  {
    forall r | r in e.session.visited
      ensures Opens(w, r)
    {
      assert Opens(e.world, r);
    }
  }

  /** The entry a drop leaves behind: the session and the world's items as
      `DropItem` left them, the flags untouched. */
  function DroppedEntry(e: Entry, r: DropResult): Entry
    requires !r.NotHeld?
  {
    e.(session := r.after.session, world := e.world.(table := r.after.table, ledgers := r.after.ledgers))
  }

  /** Dropping an item, even one that crashes half-way, keeps the entry
      valid and its flags. */
  lemma DropKeepsEntryValid(e: Entry, id: int)
    requires EntryValid(e)
    ensures e.session.location in e.world.ledgers
    ensures var r := DropItem(Scene(e.session, e.world.table, e.world.ledgers), id);
      !r.NotHeld? ==> EntryValid(DroppedEntry(e, r)) && SameFlags(DroppedEntry(e, r).world, e.world)
  {
    var r := DropItem(Scene(e.session, e.world.table, e.world.ledgers), id);
    if !r.NotHeld? {
      Reflag(e.(session := r.after.session), DroppedEntry(e, r).world);
    }
  }

  /** Taking an item, even one whose removal crashes half-way, keeps the
      entry valid and its flags. */
  lemma TakeKeepsEntryValid(e: Entry, q: string, hub: TransferAnswer)
    requires EntryValid(e)
    ensures e.session.location in e.world.ledgers && Consistent(e.world.table, e.world.ledgers)
    ensures var t := TakeStep(Scene(e.session, e.world.table, e.world.ledgers), q, e.world.owned, hub);
      !t.NothingTaken? ==> EntryValid(TakenEntry(e, t)) && SameFlags(TakenEntry(e, t).world, e.world)
  {
    var t := TakeStep(Scene(e.session, e.world.table, e.world.ledgers), q, e.world.owned, hub);
    if !t.NothingTaken? {
      Reflag(e.(session := t.after.session), TakenEntry(e, t).world);
    }
  }

  /** The entry a take leaves behind: the session and the world's items as
      `TakeStep` left them, the flags untouched. */
  function TakenEntry(e: Entry, t: TakeResult): Entry
    requires !t.NothingTaken?
  {
    e.(session := t.after.session, world := e.world.(table := t.after.table, ledgers := t.after.ledgers))
  }

  /** Every user's entry is valid and carries the base world's flags. */
  predicate EntriesValid(users: map<int, Entry>, base: World) {
    forall u :: u in users ==> EntryValid(users[u]) && SameFlags(users[u].world, base)
  }

  /** Replacing one user's entry by a valid one with the base's flags keeps
      every entry valid. */
  lemma EntriesValidUpdate(users: map<int, Entry>, base: World, uid: int, e: Entry)
    requires EntriesValid(users, base) && EntryValid(e) && SameFlags(e.world, base)
    ensures EntriesValid(users[uid := e], base)
  {
    var m := users[uid := e];
    forall u | u in m
      ensures EntryValid(m[u]) && SameFlags(m[u].world, base)
    {
      if u != uid {
        assert m[u] == users[u];
      }
    }
  }

  /** The filling half of `/arrive`: the four partitions from the four
      lists, and the dropped and prize briefs added to the item table and
      placed in the rooms they name. */
  method Furnish(e: Entry, ownedBriefs: seq<Item>, carried: seq<Item>, dropped: seq<Item>, prize: seq<Item>)
    returns (r: Entry, unused: seq<Item>)
    requires EntryValid(e)
    requires forall i :: 0 <= i < |dropped| ==> dropped[i].location.Some?
    requires forall i :: 0 <= i < |prize| ==> prize[i].depth.Some?
    ensures EntryValid(r) && SameFlags(r.world, e.world)
    ensures unused == Unplaced(prize, PrizeRoom)
    ensures r == Entry(
      e.world.(table := AddAll(AddAll(e.world.table, dropped), prize),
               ledgers := PlaceAll(PlaceAll(e.world.ledgers, dropped, DroppedRoom), prize, PrizeRoom)),
      e.session.(owned := AddAll(e.session.owned, ownedBriefs), carried := AddAll(e.session.carried, carried),
                 dropped := AddAll(e.session.dropped, dropped), prize := AddAll(e.session.prize, prize)),
      e.arrived)
  {
    var w := e.world;
    var s := e.session;
    var ownedPart := Fill(s.owned, ownedBriefs);
    var carriedPart := Fill(s.carried, carried);
    var droppedPart, table, ledgers := Settle(s.dropped, w.table, w.ledgers, dropped, DroppedRoom);
    ArrivalKeepsConsistent(w.table, w.ledgers, dropped, DroppedRoom);
    ghost var table1, ledgers1 := table, ledgers;
    var prizePart;
    prizePart, table, ledgers := Settle(s.prize, table, ledgers, prize, PrizeRoom);
    ArrivalKeepsConsistent(table1, ledgers1, prize, PrizeRoom);
    unused := Unplaced(prize, PrizeRoom);
    var s1 := s.(owned := ownedPart, carried := carriedPart, dropped := droppedPart, prize := prizePart);
    var w1 := w.(table := table, ledgers := ledgers);
    Reflag(e.(session := s1), w1);
    r := Entry(w1, s1, e.arrived);
  }

  /** A command's effect on one entry, and the reply. */
  datatype Outcome = Outcome(entry: Entry, reply: Reply)

  /** `take X`: an ambiguous name asks for the id; otherwise the item moves
      only when the take rule allows it and the hub answers 200. */
  function TakeOutcome(e: Entry, q: string, hub: TransferAnswer): (r: Outcome)
    requires EntryValid(e)
    ensures EntryValid(r.entry) && SameFlags(r.entry.world, e.world) && r.entry.arrived == e.arrived
    ensures r.entry.world.owned == e.world.owned && r.entry.session.location == e.session.location
    ensures var s := e.session;
      var f := FindItemLocation(q, e.world.ledgers[s.location], e.world.table);
      var t := TakeStep(Scene(s, e.world.table, e.world.ledgers), q, e.world.owned, hub);
      (f.duplicate ==> r == Outcome(e, Said([Notice(PleaseSpecify(q))]))) &&
      (!f.duplicate ==> r.reply == TakeReply(t, q)) &&
      (!f.duplicate && t.NothingTaken? ==> r.entry == e) &&
      (!f.duplicate && !t.NothingTaken? ==>
        r.entry == e.(session := t.after.session, world := e.world.(table := t.after.table, ledgers := t.after.ledgers)))
    ensures r.entry != e ==> hub == Agreed
  {
    var s := e.session;
    var w := e.world;
    var f := FindItemLocation(q, w.ledgers[s.location], w.table);
    if f.duplicate then Outcome(e, Said([Notice(PleaseSpecify(q))]))
    else
      var t := TakeStep(Scene(s, w.table, w.ledgers), q, w.owned, hub);
      if t.NothingTaken? then Outcome(e, TakeReply(t, q))
      else
        TakeKeepsEntryValid(e, q, hub);
        Outcome(TakenEntry(e, t), TakeReply(t, q))
  }

  /** Where `go` leads once the exit is known: a `$journey` exit is
      answered verbatim; a seen room is entered and named; an unseen room is
      entered and described only when its gate lets the user in; anything
      else is refused.  Only an entered room changes the entry. */
  function Walk(e: Entry, dest: string): (r: Outcome)
    requires EntryValid(e)
    ensures EntryValid(r.entry) && r.entry.world == e.world && r.entry.arrived == e.arrived
    ensures Contains(dest, "$journey") ==> r == Outcome(e, Said([Say(dest)]))
    ensures !Contains(dest, "$journey") && Move(e, dest).None? ==> r == Outcome(e, Said([Notice(CantGo)]))
    ensures !Contains(dest, "$journey") && Move(e, dest).Some? ==>
      var s := e.session;
      var w := e.world;
      dest in w.ledgers &&
      r.entry == e.(session := s.(location := dest, visited := s.visited + {dest})) &&
      r.reply == Said((if Move(e, dest).value then [RoomDescription(dest)] else [Title(Capitalize(dest))]) +
        ItemLines(w.ledgers[dest].ids, w.table, dest, dest in w.beams))
    // the user only ever moves to a room they have seen or whose gate lets them in
    ensures r.entry != e ==> dest in e.session.visited || Opens(e.world, dest)
  {
    var s := e.session;
    var w := e.world;
    if Contains(dest, "$journey") then Outcome(e, Said([Say(dest)]))
    else
      match Move(e, dest)
      case None => Outcome(e, Said([Notice(CantGo)]))
      case Some(first) =>
        assert dest in Rooms by {
          if first { OpensOnlyGatedRooms(w, dest); }
        }
        var head := if first then [RoomDescription(dest)] else [Title(Capitalize(dest))];
        Outcome(e.(session := s.(location := dest, visited := s.visited + {dest})),
          Said(head + ItemLines(w.ledgers[dest].ids, w.table, dest, dest in w.beams)))
  }

  /** `go D`: a direction the room lacks is refused; otherwise walk to the
      exit's target. */
  function GoOutcome(e: Entry, d: string): (r: Outcome)
    requires EntryValid(e)
    ensures EntryValid(r.entry) && r.entry.world == e.world && r.entry.arrived == e.arrived
    ensures d !in Exits(e.session.location) ==> r == Outcome(e, Said([Notice(CantGo)]))
    ensures d in Exits(e.session.location) ==> r == Walk(e, Exits(e.session.location)[d])
  {
    var exits := Exits(e.session.location);
    if d !in exits then Outcome(e, Said([Notice(CantGo)])) else Walk(e, exits[d])
  }

  // ---------------------------------------------------------------------
  // The server.
  // ---------------------------------------------------------------------

  class VariantDomain {
    var hubUrl: string
    var domainId: Option<int>
    var secret: Option<string>
    /** `base_domain_state`, the world every new user's copy starts from. */
    var base: World
    var users: map<int, Entry>

    ghost predicate Valid()
      reads this
    {
      && WorldValid(base)
      && EntriesValid(users, base)
    }

    /** The server once `/newhub` has filled the base world (that handler is
        not part of this model), with no user yet. */
    constructor(url: string, did: int, sec: string, world: World)
      requires WorldValid(world)
      ensures Valid()
      ensures hubUrl == url && domainId == Some(did) && secret == Some(sec)
      ensures base == world && users == map[]
    {
      hubUrl, domainId, secret := url, Some(did), Some(sec);
      base := world;
      users := map[];
    }

    /** `/arrive`: check the secret; start from the user's own world, or a
        copy of the base on a first arrival; reset the session; then fill it,
        the world's item table and its ledgers from the four lists. */
    method Arrive(sec: string, uid: int, ownedBriefs: seq<Item>, carried: seq<Item>, dropped: seq<Item>, prize: seq<Item>)
      returns (status: Status, unused: seq<Item>)
      requires Valid()
      requires forall i :: 0 <= i < |dropped| ==> dropped[i].location.Some?
      requires forall i :: 0 <= i < |prize| ==> prize[i].depth.Some?
      modifies this
      ensures Valid()
      ensures hubUrl == old(hubUrl) && domainId == old(domainId) && secret == old(secret) && base == old(base)
      ensures secret != Some(sec) ==> status == Forbidden && unused == [] && users == old(users)
      ensures secret == Some(sec) ==>
        var e := Entering(old(users), uid, base);
        var w := e.world;
        status == Ok && unused == Unplaced(prize, PrizeRoom) &&
        users == old(users)[uid := Entry(
          w.(table := AddAll(AddAll(w.table, dropped), prize),
             ledgers := PlaceAll(PlaceAll(w.ledgers, dropped, DroppedRoom), prize, PrizeRoom)),
          e.session.(owned := AddAll(EmptyPart, ownedBriefs), carried := AddAll(EmptyPart, carried),
                     dropped := AddAll(EmptyPart, dropped), prize := AddAll(EmptyPart, prize)),
          true)]
      // each user's world is their own: no other user's entry changes
      ensures forall u :: u in old(users) && u != uid ==> u in users && users[u] == old(users)[u]
    {
      if secret != Some(sec) {
        return Forbidden, [];
      }
      var e := Entering(users, uid, base);
      var e1;
      e1, unused := Furnish(e, ownedBriefs, carried, dropped, prize);
      EntriesValidUpdate(users, base, uid, e1);
      users := users[uid := e1];
      status := Ok;
    }

    /** `/depart`: an unknown user is 404; otherwise only the arrived flag
        drops, and the session keeps its contents. */
    method Depart(uid: int) returns (status: Status)
      requires Valid()
      modifies this
      ensures Valid()
      ensures hubUrl == old(hubUrl) && domainId == old(domainId) && secret == old(secret) && base == old(base)
      ensures uid !in old(users) ==> status == NotFound && users == old(users)
      ensures uid in old(users) ==> status == Ok && users == old(users)[uid := old(users)[uid].(arrived := false)]
    {
      if uid !in users {
        return NotFound;
      }
      EntriesValidUpdate(users, base, uid, users[uid].(arrived := false));
      users := users[uid := users[uid].(arrived := false)];
      status := Ok;
    }

    /** `/dropped`: secret, then user, then the arrived flag; then the item
        moves from the user's hands into their current room. */
    method Dropped(sec: string, uid: int, itemId: int) returns (status: Status, room: Option<string>)
      requires Valid()
      modifies this
      ensures Valid()
      ensures hubUrl == old(hubUrl) && domainId == old(domainId) && secret == old(secret) && base == old(base)
      ensures secret != Some(sec) ==> status == Forbidden && room == None && users == old(users)
      ensures secret == Some(sec) && uid !in old(users) ==> status == NotFound && room == None && users == old(users)
      ensures secret == Some(sec) && uid in old(users) && !old(users)[uid].arrived ==>
        status == Conflict && room == None && users == old(users)
      ensures secret == Some(sec) && uid in old(users) && old(users)[uid].arrived ==>
        var e := old(users)[uid];
        var r := DropItem(Scene(e.session, e.world.table, e.world.ledgers), itemId);
        (r.NotHeld? ==> status == NotFound && room == None && users == old(users)) &&
        (r.DropCrashed? ==> status == ServerError && room == None) &&
        (r.DroppedIn? ==> status == Ok && room == Some(r.room)) &&
        (!r.NotHeld? ==> users == old(users)[uid := DroppedEntry(e, r)])
    {
      if secret != Some(sec) {
        return Forbidden, None;
      }
      if uid !in users {
        return NotFound, None;
      }
      var e := users[uid];
      if !e.arrived {
        return Conflict, None;
      }
      DropKeepsEntryValid(e, itemId);
      var r := DropItem(Scene(e.session, e.world.table, e.world.ledgers), itemId);
      if r.NotHeld? {
        return NotFound, None;
      }
      EntriesValidUpdate(users, base, uid, DroppedEntry(e, r));
      users := users[uid := DroppedEntry(e, r)];
      if r.DroppedIn? {
        status, room := Ok, Some(r.room);
      } else {
        status, room := ServerError, None;
      }
    }

    /** `/command`, for every command except `look` with a target. */
    method HandleCommand(uid: int, words: seq<string>, hub: TransferAnswer) returns (reply: Reply)
      requires Valid()
      requires !(|words| >= 2 && words[0] == "look")
      modifies this
      ensures Valid()
      ensures hubUrl == old(hubUrl) && domainId == old(domainId) && secret == old(secret) && base == old(base)
      ensures uid !in old(users) ==> reply == Said([Notice(NotJoined)]) && users == old(users)
      // a departed session is refused and nothing changes
      ensures uid in old(users) && !old(users)[uid].arrived ==> reply == Departed && users == old(users)
      ensures uid in old(users) && old(users)[uid].arrived ==>
        var e := old(users)[uid];
        var s := e.session;
        var c := Parse(words);
        (!c.Take? && !c.Go? ==> users == old(users)) &&
        (c.LookAround? ==> reply == Said(LookLines(s.location, e.world))) &&
        (c.Unknown? ==> reply == Said([Notice(DontKnow)])) &&
        (c.Verb? ==> var v := VerbAnswer(s, c.verb, c.query);
          reply == (if v.Says? then Said([Say(v.text)]) else if v.Silent? then Said([Notice(DontKnow)]) else Failed))
      ensures uid in old(users) && old(users)[uid].arrived && Parse(words).Take? ==>
        var r := TakeOutcome(old(users)[uid], Parse(words).query, hub);
        users == old(users)[uid := r.entry] && reply == r.reply
      ensures uid in old(users) && old(users)[uid].arrived && Parse(words).Go? ==>
        var r := GoOutcome(old(users)[uid], Parse(words).direction);
        users == old(users)[uid := r.entry] && reply == r.reply
    {
      if uid !in users {
        return Said([Notice(NotJoined)]);
      }
      var e := users[uid];
      if !e.arrived {
        return Departed;
      }
      var s := e.session;
      var w := e.world;
      match Parse(words)
      case LookAround =>
        reply := Said(LookLines(s.location, w));
      case Take(q) =>
        var r := TakeOutcome(e, q, hub);
        EntriesValidUpdate(users, base, uid, r.entry);
        users := users[uid := r.entry];
        reply := r.reply;
      case Go(d) =>
        var r := GoOutcome(e, d);
        EntriesValidUpdate(users, base, uid, r.entry);
        users := users[uid := r.entry];
        reply := r.reply;
      case Verb(verb, q) =>
        var v := VerbAnswer(s, verb, q);
        reply := if v.Says? then Said([Say(v.text)]) else if v.Silent? then Said([Notice(DontKnow)]) else Failed;
      case Unknown =>
        reply := Said([Notice(DontKnow)]);
    }
  }
}
