/** The reference domain server (`domain.py`): three rooms (foyer,
    classroom, podium) with fixed exits, one item table and one ledger per
    room shared by all users, a session per user, and a podium puzzle made of
    a cabinet, a power switch and a screen.

    The handlers are methods of `ReferenceDomain`; what each command prints
    and which state it leaves behind are pure functions below, so that the
    properties of the puzzle, of `look` and of `take` are stated once, as
    lemmas and contracts about those functions.  Replies are kept as lines of
    a `Line` datatype rather than as the flavour text itself. */
module Reference {
  import opened Common
  import opened Items

  // ---------------------------------------------------------------------
  // Rooms.
  // ---------------------------------------------------------------------

  const Foyer := "foyer"
  const Classroom := "classroom"
  const PodiumRoom := "podium"
  const Rooms: set<string> := {Foyer, Classroom, PodiumRoom}

  /** The fixed exits of each room; `None` is the exit that leaves the
      domain eastwards. */
  function Exits(room: string): (r: map<string, Option<string>>)
    ensures forall d :: d in r && r[d].Some? ==> r[d].value in Rooms
    ensures room == Foyer ==> "east" in r && r["east"] == None
    ensures forall d :: d in r && r[d] == None ==> room == Foyer && d == "east"
    ensures room !in Rooms ==> r == map[]
  {
    if room == Foyer then map["north" := Some(Classroom), "east" := None]
    else if room == Classroom then map["south" := Some(Foyer), "down" := Some(PodiumRoom), "west" := Some(PodiumRoom)]
    else if room == PodiumRoom then map["up" := Some(Classroom), "east" := Some(Classroom)]
    else map[]
  }

  // ---------------------------------------------------------------------
  // The podium puzzle.
  // ---------------------------------------------------------------------

  datatype Cabinet = Locked | Closed | Open
  datatype Switch = Up | Down
  datatype Screen = Blank | Password | Won
  datatype Podium = Podium(cabinet: Cabinet, switch: Switch, screen: Screen)

  const InitialPodium := Podium(Locked, Down, Blank)

  /** The screen is dark exactly when the power switch is down. */
  predicate ScreenFollowsSwitch(p: Podium) {
    p.screen == Blank <==> p.switch == Down
  }

  // ---------------------------------------------------------------------
  // Replies.
  // ---------------------------------------------------------------------

  /** The fixed sentences of the command handler. */
  datatype Notice =
    | NotJoined | DontKnow | CantGo | SignSays
    | SeemsLocked | YouOpen | AlreadyOpen | YouClose | AlreadyClosed
    | SwitchMovedUp | SwitchMovedDown | NoKey | KeyUnlocks | KeyLocks
    | PasswordAccepted | PasswordRefused(word: string)
    | DoorsClosed | DoorsOpen | ScreenDark | ScreenPrompt | ScreenFireworks
    | SwitchReadsUp | SwitchReadsDown
    | WasTaken(name: string) | NoneToTake(query: string)

  /** One line of a reply: a room's description, the cabinet interior, an
      item in the cabinet or in the room, a capitalised room name, an item's
      own text, or a fixed sentence. */
  datatype Line =
    | RoomDescription(room: string)
    | CabinetInterior
    | InCabinet(name: string, id: int)
    | ItemHere(name: string, id: int)
    | Title(text: string)
    | Say(text: string)
    | Notice(notice: Notice)

  /** A reply: the lines joined by newlines, or an exception (500). */
  datatype Reply = Said(lines: seq<Line>) | Failed

  // ---------------------------------------------------------------------
  // Parsing a command.
  // ---------------------------------------------------------------------

  datatype PodiumCommand = OpenCabinet | CloseCabinet | UseSwitch | UseKey | TellScreen(word: string)

  datatype Command =
    | LookAround
    | LookAt(target: string)
    | Take(query: string)
    | Go(direction: string)
    | ReadSign
    | AtPodium(podium: PodiumCommand)
    | Verb(verb: string, query: string)
    | Unknown

  /** The podium's own commands. */
  function PodiumParse(words: seq<string>): Option<PodiumCommand> {
    if words == ["open", "cabinet"] then Some(OpenCabinet)
    else if words == ["close", "cabinet"] then Some(CloseCabinet)
    else if words == ["use", "switch"] then Some(UseSwitch)
    else if words == ["use", "key", "cabinet"] then Some(UseKey)
    else if |words| == 3 && words[0] == "tell" && words[1] == "screen" then Some(TellScreen(words[2]))
    else None
  }

  /** The order in which the handler tries its branches.  Standing at the
      podium, a two-word command that is not one of the podium's own falls
      through to "I don't know", so item verbs are never reached there. */
  function Parse(words: seq<string>, atPodium: bool): (c: Command)
    ensures c.AtPodium? ==> atPodium
    ensures atPodium ==> !c.Verb?
    ensures c.Verb? ==> |words| == 2 && words[0] !in {"look", "take", "go"} && c == Verb(words[0], words[1])
    ensures c.ReadSign? ==> |words| == 2 && Join(words) == "read sign"
    ensures |words| == 0 || |words| > 3 ==> c.Unknown?
  {
    if words == ["look"] then LookAround
    else if |words| == 2 && words[0] == "look" then LookAt(words[1])
    else if |words| == 2 && words[0] == "take" then Take(words[1])
    else if |words| == 2 && words[0] == "go" then Go(words[1])
    else if |words| == 2 && Join(words) == "read sign" then ReadSign
    else if atPodium then
      match PodiumParse(words)
      case Some(pc) => AtPodium(pc)
      case None => Unknown
    else if |words| == 2 then Verb(words[0], words[1])
    else Unknown
  }

  /** Joining two words with a space gives "read sign" only for exactly
      those two words. */
  lemma ReadSignIsTwoWords(words: seq<string>)
    requires |words| == 2
    ensures Join(words) == "read sign" <==> words == ["read", "sign"]
  {
    var w0, w1 := words[0], words[1];
    assert Join(words) == w0 + " " + w1 by {
      assert Join(words[1..]) == w1;
    }
    assert words == [w0, w1];
    if Join(words) == "read sign" {
      var s := w0 + " " + w1;
      assert s[|w0|] == ' ';
      assert forall k :: 0 <= k < 9 && k != 4 ==> "read sign"[k] != ' ';
      assert |w0| == 4;
      assert w0 == s[..4] == "read";
      assert w1 == s[5..] == "sign";
    }
  }

  // ---------------------------------------------------------------------
  // What the podium commands do.
  // ---------------------------------------------------------------------

  /** A podium command's effect: the new podium and the reply. */
  datatype Step = Step(after: Podium, lines: seq<Line>)

  /** The cabinet, switch and screen rules.  `hasKey` says the user holds an
      item named `key`; `inside` are the cabinet lines opening shows. */
  function PodiumStep(p: Podium, c: PodiumCommand, hasKey: bool, inside: seq<Line>): (r: Step)
    // the screen stays dark exactly while the switch is down
    ensures ScreenFollowsSwitch(p) ==> ScreenFollowsSwitch(r.after)
    // the cabinet moves only along open, close, or the key's lock and unlock
    ensures r.after.cabinet != p.cabinet ==>
      (c == OpenCabinet && p.cabinet == Closed && r.after.cabinet == Open) ||
      (c == CloseCabinet && p.cabinet == Open && r.after.cabinet == Closed) ||
      (c == UseKey && hasKey && p.cabinet == Locked && r.after.cabinet == Closed) ||
      (c == UseKey && hasKey && p.cabinet == Closed && r.after.cabinet == Locked)
    // the cabinet and the key leave the switch and the screen alone
    ensures c == OpenCabinet || c == CloseCabinet || c == UseKey ==> r.after.switch == p.switch && r.after.screen == p.screen
    ensures c == OpenCabinet && p.cabinet == Locked ==> r.after == p && r.lines == [Notice(SeemsLocked)]
    ensures c == OpenCabinet && p.cabinet == Closed ==> r.after == p.(cabinet := Open) && r.lines == [Notice(YouOpen), CabinetInterior] + inside
    ensures c == OpenCabinet && p.cabinet == Open ==> r.after == p && r.lines == [Notice(AlreadyOpen)]
    ensures c == CloseCabinet && p.cabinet == Open ==> r.after == p.(cabinet := Closed) && r.lines == [Notice(YouClose)]
    ensures c == CloseCabinet && p.cabinet != Open ==> r.after == p && r.lines == [Notice(AlreadyClosed)]
    // the key needs to be in hand, and does nothing to an open cabinet
    ensures c == UseKey && !hasKey ==> r.after == p && r.lines == [Notice(NoKey)]
    ensures c == UseKey && hasKey && p.cabinet == Locked ==> r.after == p.(cabinet := Closed) && r.lines == [Notice(KeyUnlocks)]
    ensures c == UseKey && hasKey && p.cabinet == Closed ==> r.after == p.(cabinet := Locked) && r.lines == [Notice(KeyLocks)]
    ensures c == UseKey && hasKey && p.cabinet == Open ==> r.after == p && r.lines == [Notice(DontKnow)]
    // the switch moves only while the cabinet is open, and sets the screen
    ensures r.after.switch != p.switch ==> c == UseSwitch && p.cabinet == Open
    ensures c == UseSwitch && p.cabinet != Open ==> r.after == p && r.lines == [Notice(DontKnow)]
    ensures c == UseSwitch && p.cabinet == Open && p.switch == Down ==>
      r.after == p.(switch := Up, screen := Password) && r.lines == [Notice(SwitchMovedUp)]
    ensures c == UseSwitch && p.cabinet == Open && p.switch == Up ==>
      r.after == p.(switch := Down, screen := Blank) && r.lines == [Notice(SwitchMovedDown)]
    // the game is won only by the password, typed at the prompt
    ensures r.after.screen == Won && p.screen != Won ==> c == TellScreen("xyzzy") && p.screen == Password
    ensures c.TellScreen? && p.screen != Password ==> r.after == p && r.lines == [Notice(DontKnow)]
    ensures c == TellScreen("xyzzy") && p.screen == Password ==> r.after == p.(screen := Won) && r.lines == [Notice(PasswordAccepted)]
    ensures c.TellScreen? && p.screen == Password && c.word != "xyzzy" ==> r.after == p && r.lines == [Notice(PasswordRefused(c.word))]
  {
    match c
    case OpenCabinet =>
      if p.cabinet == Locked then Step(p, [Notice(SeemsLocked)])
      else if p.cabinet == Closed then Step(p.(cabinet := Open), [Notice(YouOpen), CabinetInterior] + inside)
      else Step(p, [Notice(AlreadyOpen)])
    case CloseCabinet =>
      if p.cabinet == Open then Step(p.(cabinet := Closed), [Notice(YouClose)])
      else Step(p, [Notice(AlreadyClosed)])
    case UseSwitch =>
      if p.cabinet != Open then Step(p, [Notice(DontKnow)])
      else if p.switch == Down then Step(p.(switch := Up, screen := Password), [Notice(SwitchMovedUp)])
      else Step(p.(switch := Down, screen := Blank), [Notice(SwitchMovedDown)])
    case UseKey =>
      if !hasKey then Step(p, [Notice(NoKey)])
      else if p.cabinet == Locked then Step(p.(cabinet := Closed), [Notice(KeyUnlocks)])
      else if p.cabinet == Closed then Step(p.(cabinet := Locked), [Notice(KeyLocks)])
      else Step(p, [Notice(DontKnow)])
    case TellScreen(word) =>
      if p.screen != Password then Step(p, [Notice(DontKnow)])
      else if word == "xyzzy" then Step(p.(screen := Won), [Notice(PasswordAccepted)])
      else Step(p, [Notice(PasswordRefused(word))])
  }

  /** A run of podium commands, as successive requests apply them. */
  function Run(p: Podium, cs: seq<PodiumCommand>, hasKey: bool, inside: seq<Line>): Podium
    decreases |cs|
  {
    if |cs| == 0 then p else Run(PodiumStep(p, cs[0], hasKey, inside).after, cs[1..], hasKey, inside)
  }

  /** From the initial podium, any run of commands keeps the screen dark
      exactly while the switch is down, and wins only through a password
      entered at the prompt. */
  lemma {:induction false} RunKeepsScreenFollowingSwitch(p: Podium, cs: seq<PodiumCommand>, hasKey: bool, inside: seq<Line>)
    requires ScreenFollowsSwitch(p)
    ensures ScreenFollowsSwitch(Run(p, cs, hasKey, inside))
    ensures Run(p, cs, hasKey, inside).screen == Won && p.screen != Won ==> TellScreen("xyzzy") in cs
    decreases |cs|
  {
    if |cs| > 0 {
      var q := PodiumStep(p, cs[0], hasKey, inside).after;
      RunKeepsScreenFollowingSwitch(q, cs[1..], hasKey, inside);
      if Run(p, cs, hasKey, inside).screen == Won && p.screen != Won && q.screen != Won {
        assert TellScreen("xyzzy") in cs[1..];
      }
    }
  }

  /** Whether an item named `key` is among the user's owned or carried items. */
  predicate HasKey(s: Session) {
    (exists id :: id in s.owned.byId && s.owned.byId[id].name == "key") ||
    (exists id :: id in s.carried.byId && s.carried.byId[id].name == "key")
  }

  // ---------------------------------------------------------------------
  // Look.
  // ---------------------------------------------------------------------

  /** One "There is a … here." line for each listed item that is at the
      surface or was dropped in this room. */
  function HereLines(ids: seq<int>, table: Part, room: string): (r: seq<Line>)
    requires forall x :: x in ids ==> x in table.byId
    ensures forall l :: l in r ==> l.ItemHere? && l.id in ids && l.name == table.byId[l.id].name && Visible(table.byId[l.id], room)
    ensures forall x :: x in ids && Visible(table.byId[x], room) ==> ItemHere(table.byId[x].name, x) in r
    ensures |r| <= |ids|
  {
    if |ids| == 0 then []
    else
      var id := ids[0];
      assert id in ids;
      var item := table.byId[id];
      (if Visible(item, room) then [ItemHere(item.name, id)] else []) + HereLines(ids[1..], table, room)
  }

  /** One line per ledger entry: a visible id the room lists twice is shown twice. */
  lemma {:induction false} HereLinesCount(ids: seq<int>, table: Part, room: string)
    requires forall x :: x in ids ==> x in table.byId
    ensures forall x :: x in ids ==>
      multiset(HereLines(ids, table, room))[ItemHere(table.byId[x].name, x)] ==
        if Visible(table.byId[x], room) then multiset(ids)[x] else 0
  {
    if |ids| > 0 {
      var rest := HereLines(ids[1..], table, room);
      HereLinesCount(ids[1..], table, room);
      assert ids == [ids[0]] + ids[1..];
      forall x | x in ids && x !in ids[1..]
        ensures multiset(rest)[ItemHere(table.byId[x].name, x)] == 0
      {
        assert ItemHere(table.byId[x].name, x) !in rest;
      }
    }
  }

  /** One "There is a … inside the cabinet." line for each listed depth-1 item. */
  function CabinetLines(ids: seq<int>, table: Part): (r: seq<Line>)
    requires forall x :: x in ids ==> x in table.byId
    ensures forall l :: l in r ==> l.InCabinet? && l.id in ids && l.name == table.byId[l.id].name && table.byId[l.id].depth == Some(1)
    ensures forall x :: x in ids && table.byId[x].depth == Some(1) ==> InCabinet(table.byId[x].name, x) in r
    ensures |r| <= |ids|
  {
    if |ids| == 0 then []
    else
      var id := ids[0];
      assert id in ids;
      var item := table.byId[id];
      (if item.depth == Some(1) then [InCabinet(item.name, id)] else []) + CabinetLines(ids[1..], table)
  }

  /** One line per ledger entry: a depth-1 id the podium lists twice is shown twice. */
  lemma {:induction false} CabinetLinesCount(ids: seq<int>, table: Part)
    requires forall x :: x in ids ==> x in table.byId
    ensures forall x :: x in ids ==>
      multiset(CabinetLines(ids, table))[InCabinet(table.byId[x].name, x)] ==
        if table.byId[x].depth == Some(1) then multiset(ids)[x] else 0
  {
    if |ids| > 0 {
      var rest := CabinetLines(ids[1..], table);
      CabinetLinesCount(ids[1..], table);
      assert ids == [ids[0]] + ids[1..];
      forall x | x in ids && x !in ids[1..]
        ensures multiset(rest)[InCabinet(table.byId[x].name, x)] == 0
      {
        assert InCabinet(table.byId[x].name, x) !in rest;
      }
    }
  }

  /** The cabinet's contents, as the podium shows them. */
  function Inside(table: Part, ledgers: map<string, Ledger>): seq<Line>
    requires PodiumRoom in ledgers && Consistent(table, ledgers)
  {
    CabinetLines(ledgers[PodiumRoom].ids, table)
  }

  /** The reply to `look`: the room's description; at the podium with the
      cabinet open, the cabinet and the depth-1 items in it; then the room's
      visible items. */
  function LookLines(room: string, p: Podium, table: Part, ledgers: map<string, Ledger>): (r: seq<Line>)
    requires room in ledgers && PodiumRoom in ledgers && Consistent(table, ledgers)
    ensures |r| > 0 && r[0] == RoomDescription(room)
    ensures CabinetInterior in r <==> room == PodiumRoom && p.cabinet == Open
    ensures forall l :: l in r && l.InCabinet? ==>
      room == PodiumRoom && p.cabinet == Open && l.id in ledgers[PodiumRoom].ids && table.byId[l.id].depth == Some(1)
    ensures forall l :: l in r && l.ItemHere? ==> l.id in ledgers[room].ids && Visible(table.byId[l.id], room)
    ensures forall x :: x in ledgers[room].ids && Visible(table.byId[x], room) ==> ItemHere(table.byId[x].name, x) in r
    ensures room == PodiumRoom && p.cabinet == Open ==>
      forall x :: x in ledgers[PodiumRoom].ids && table.byId[x].depth == Some(1) ==> InCabinet(table.byId[x].name, x) in r
  {
    var cabinet := if room == PodiumRoom && p.cabinet == Open then [CabinetInterior] + Inside(table, ledgers) else [];
    [RoomDescription(room)] + cabinet + HereLines(ledgers[room].ids, table, room)
  }

  /** The reply after moving to `dest`: the capitalised name on a revisit,
      else the description (and the open cabinet at the podium); then the
      visible items; then, at the podium with the cabinet open, the items
      inside it. */
  function GoLines(dest: string, revisit: bool, p: Podium, table: Part, ledgers: map<string, Ledger>): (r: seq<Line>)
    requires dest in ledgers && PodiumRoom in ledgers && Consistent(table, ledgers)
    ensures |r| > 0
    ensures revisit ==> r[0] == Title(Capitalize(dest)) && RoomDescription(dest) !in r
    ensures !revisit ==> r[0] == RoomDescription(dest)
    ensures CabinetInterior in r <==> !revisit && dest == PodiumRoom && p.cabinet == Open
    ensures forall l :: l in r && l.InCabinet? ==>
      dest == PodiumRoom && p.cabinet == Open && l.id in ledgers[PodiumRoom].ids && table.byId[l.id].depth == Some(1)
    ensures forall l :: l in r && l.ItemHere? ==> l.id in ledgers[dest].ids && Visible(table.byId[l.id], dest)
    ensures forall x :: x in ledgers[dest].ids && Visible(table.byId[x], dest) ==> ItemHere(table.byId[x].name, x) in r
    ensures dest == PodiumRoom && p.cabinet == Open ==>
      forall x :: x in ledgers[PodiumRoom].ids && table.byId[x].depth == Some(1) ==> InCabinet(table.byId[x].name, x) in r
  {
    var open := dest == PodiumRoom && p.cabinet == Open;
    var head := if revisit then [Title(Capitalize(dest))]
      else [RoomDescription(dest)] + (if open then [CabinetInterior] else []);
    head + HereLines(ledgers[dest].ids, table, dest) + (if open then Inside(table, ledgers) else [])
  }

  /** The room part of `look X`: a listed surface item, by id or by name. */
  function InRoom(q: string, here: Ledger, table: Part): (r: Option<Item>)
    requires forall n :: n in table.byName ==> table.byName[n] in table.byId
    ensures r.Some? ==> Surface(r.value) && r.value in table.byId.Values
    ensures IsDigits(q) ==> (r.Some? <==>
      ParseNat(q) in table.byId && ParseNat(q) in here.ids && Surface(table.byId[ParseNat(q)]))
    ensures !IsDigits(q) ==> (r.Some? <==>
      q in table.byName && q in here.names && Surface(table.byId[table.byName[q]]))
  {
    if IsDigits(q) then
      var id := ParseNat(q);
      if id in table.byId && id in here.ids && Surface(table.byId[id]) then Some(table.byId[id]) else None
    else if q in table.byName && q in here.names && Surface(table.byId[table.byName[q]]) then
      Some(table.byId[table.byName[q]])
    else None
  }

  /** `look X`: the podium's fixtures at the podium, then the item's
      description if it is in the user's hands, else if it lies visible in
      the room. */
  function LookAtLines(s: Session, q: string, p: Podium, table: Part, ledgers: map<string, Ledger>): (r: Reply)
    requires s.location in ledgers && PodiumRoom in ledgers && Consistent(table, ledgers)
    ensures q in {"cabinet", "screen", "switch"} && s.location != PodiumRoom ==> r == Said([Notice(DontKnow)])
    ensures q == "switch" && p.cabinet != Open ==> r == Said([Notice(DontKnow)])
    ensures q == "cabinet" && s.location == PodiumRoom ==> r.Said? && (CabinetInterior in r.lines <==> p.cabinet == Open)
    ensures q !in {"cabinet", "screen", "switch"} ==>
      (r.Failed? <==> InHands(s, q).Dangling?) &&
      (InHands(s, q).Found? ==> r == Said([Say(InHands(s, q).item.description)])) &&
      (InHands(s, q).Absent? ==> var m := InRoom(q, ledgers[s.location], table);
        r == if m.Some? then Said([Say(m.value.description)]) else Said([Notice(DontKnow)]))
    ensures r.Said? && |r.lines| == 1 && r.lines[0].Say? ==>
      exists item :: (item in s.owned.byId.Values || item in s.carried.byId.Values || (item in table.byId.Values && Surface(item))) &&
        r.lines[0].text == item.description
  {
    if q in {"cabinet", "screen", "switch"} then
      if s.location != PodiumRoom then Said([Notice(DontKnow)])
      else if q == "cabinet" then
        if p.cabinet == Open then Said([Notice(DoorsOpen), CabinetInterior] + Inside(table, ledgers))
        else Said([Notice(DoorsClosed)])
      else if q == "screen" then
        Said([Notice(if p.screen == Blank then ScreenDark else if p.screen == Password then ScreenPrompt else ScreenFireworks)])
      else if p.cabinet != Open then Said([Notice(DontKnow)])
      else Said([Notice(if p.switch == Up then SwitchReadsUp else SwitchReadsDown)])
    else
      match InHands(s, q)
      case Dangling => Failed
      case Found(item) => Said([Say(item.description)])
      case Absent =>
        match InRoom(q, ledgers[s.location], table)
        case Some(item) => Said([Say(item.description)])
        case None => Said([Notice(DontKnow)])
  }

  // ---------------------------------------------------------------------
  // Take.
  // ---------------------------------------------------------------------

  /** What `take X` picks: by id, an id the room lists; by name, a name the
      room lists, resolved through the item table. */
  datatype Target = Target(id: int, item: Item)

  function TakeTarget(q: string, here: Ledger, table: Part): (r: Option<Target>)
    requires forall x :: x in here.ids ==> x in table.byId
    requires forall n :: n in here.names ==> n in table.byName && table.byName[n] in table.byId
    ensures r.Some? ==> r.value.item in table.byId.Values
    ensures IsDigits(q) ==> (r.Some? <==> ParseNat(q) in here.ids)
    ensures IsDigits(q) && r.Some? ==> r.value.id == ParseNat(q) && r.value.item == table.byId[ParseNat(q)]
    ensures !IsDigits(q) ==> (r.Some? <==> q in here.names)
    ensures !IsDigits(q) && r.Some? ==> r.value.item == table.byId[table.byName[q]] && r.value.id == r.value.item.id
  {
    if IsDigits(q) then
      var id := ParseNat(q);
      if id in here.ids then Some(Target(id, table.byId[id])) else None
    else if q in here.names then
      var item := table.byId[table.byName[q]];
      Some(Target(item.id, item))
    else None
  }

  /** Depth 0 (or none) is takeable anywhere; depth 1 only from the open
      cabinet at the podium. */
  predicate CanTake(item: Item, room: string, p: Podium) {
    var depth := item.depth.GetOr(0);
    depth == 0 || (depth == 1 && room == PodiumRoom && p.cabinet == Open)
  }

  /** `take X`: find the target, check the tier, ask the hub (`hub` is what
      `/transfer` did), and only on its 200 move the item; a raising call is
      a crash that changes nothing. */
  function TakeStep(sc: Scene, q: string, p: Podium, owned: seq<int>, hub: TransferAnswer): (r: TakeResult)
    requires sc.session.location in sc.ledgers && Consistent(sc.table, sc.ledgers)
    ensures hub == Declined ==> r.NothingTaken?
    ensures var t := TakeTarget(q, sc.ledgers[sc.session.location], sc.table);
      !r.NothingTaken? <==> hub != Declined && t.Some? && CanTake(t.value.item, sc.session.location, p)
    ensures var t := TakeTarget(q, sc.ledgers[sc.session.location], sc.table);
      !r.NothingTaken? && hub == Agreed ==> r == Pickup(sc, t.value.id, t.value.item, owned)
    ensures !r.NothingTaken? && hub == Raised ==> r == TakeCrashed(sc)
    ensures r.Taken? ==> hub == Agreed
    ensures r.Taken? ==>
      var d := TakeTarget(q, sc.ledgers[sc.session.location], sc.table).value.item.depth.GetOr(0);
      d == 0 || (d == 1 && sc.session.location == PodiumRoom && p.cabinet == Open)
  {
    match TakeTarget(q, sc.ledgers[sc.session.location], sc.table)
    case None => NothingTaken
    case Some(t) =>
      if !CanTake(t.item, sc.session.location, p) || hub == Declined then NothingTaken
      else if hub == Raised then TakeCrashed(sc)
      else Pickup(sc, t.id, t.item, owned)
  }

  /** The reply of `take X`: every way of not taking it reads the same. */
  function TakeReply(r: TakeResult, q: string): (reply: Reply)
    ensures r.NothingTaken? ==> reply == Said([Notice(NoneToTake(q))])
    ensures r.Taken? ==> reply == Said([Notice(WasTaken(r.name))])
    ensures reply.Failed? <==> r.TakeCrashed?
  {
    match r
    case NothingTaken => Said([Notice(NoneToTake(q))])
    case TakeCrashed(_) => Failed
    case Taken(name, _) => Said([Notice(WasTaken(name))])
  }

  // ---------------------------------------------------------------------
  // Arrival.
  // ---------------------------------------------------------------------

  /** Where a dropped brief goes back: the room it was dropped in. */
  function DroppedRoom(item: Item): Option<string> {
    item.location
  }

  /** Where a prize goes: depth 0 in the classroom, depth 1 at the podium. */
  function PrizeRoom(item: Item): (r: Option<string>)
    ensures r == Some(Classroom) <==> item.depth == Some(0)
    ensures r == Some(PodiumRoom) <==> item.depth == Some(1)
    ensures r.None? <==> item.depth != Some(0) && item.depth != Some(1)
  {
    if item.depth == Some(0) then Some(Classroom)
    else if item.depth == Some(1) then Some(PodiumRoom)
    else None
  }

  /** The session a user starts from on `/arrive`: the existing one with its
      partitions emptied, or a fresh one; in both cases back in the foyer,
      which counts as visited. */
  function Entering(users: map<int, Session>, uid: int): (s: Session)
    ensures s.owned == EmptyPart && s.carried == EmptyPart && s.dropped == EmptyPart && s.prize == EmptyPart
    ensures s.location == Foyer
    ensures s.visited == (if uid in users then users[uid].visited else {}) + {Foyer}
  {
    var visited := if uid in users then users[uid].visited else {};
    Session(EmptyPart, EmptyPart, EmptyPart, EmptyPart, Foyer, visited + {Foyer})
  }

  // ---------------------------------------------------------------------
  // /newhub.
  // ---------------------------------------------------------------------

  const PaperDescription := "A piece of paper with writing on it."
  const PaperReads := "The paper reads <q>XYZZY</q>"
  const KeyDescription := "A small key, as if for a locker or cabinet."

  /** The two items this domain registers with the hub, under the ids the
      hub gave them. */
  function Paper(id: int): Item {
    Item(id, "paper", PaperDescription, map["read" := PaperReads], None, None)
  }

  function Key(id: int): Item {
    Item(id, "key", KeyDescription, map[], Some(1), None)
  }

  /** The hub's answer to `/register`: a JSON error (relayed with the
      hub's status), an answer that is not JSON or a request that raised
      (the handler raises, which is a 500), or the domain's id, its secret
      and the ids of its items. */
  datatype HubReply =
    | HubRefused(status: Status)
    | HubUnreadable
    | HubAccepted(did: int, secret: string, ids: seq<int>)

  /** The item table `/newhub` builds from the first two ids; `domain_items`
      has only two entries, so a third id raises. */
  function HouseTable(ids: seq<int>): Part {
    if |ids| == 0 then EmptyPart
    else if |ids| == 1 then EmptyPart.AddAs(ids[0], Paper(ids[0]))
    else EmptyPart.AddAs(ids[0], Paper(ids[0])).AddAs(ids[1], Key(ids[1]))
  }

  /** The table holds the paper under the first id and the key under the
      second, every name resolves, and no other id appears. */
  lemma HouseTableContents(ids: seq<int>)
    ensures var t := HouseTable(ids);
      && (|ids| >= 1 ==> ids[0] in t.byId && "paper" in t.byName)
      && (|ids| >= 2 ==> ids[1] in t.byId && t.byId[ids[1]] == Key(ids[1]) && "key" in t.byName && t.byName["key"] == ids[1])
      && (|ids| >= 2 && ids[0] != ids[1] ==> t.byId[ids[0]] == Paper(ids[0]))
      && (forall n :: n in t.byName ==> t.byName[n] in t.byId)
      && (forall k :: k in t.byId ==> k in ids)
  {
  }

  const EmptyLedgers: map<string, Ledger> := map[Foyer := EmptyLedger, Classroom := EmptyLedger, PodiumRoom := EmptyLedger]

  /** The room ledgers `/newhub` leaves: every room empty, except that the
      paper lies in the foyer once its id is known and the source has not
      raised yet. */
  function HouseLedgers(ids: seq<int>): (l: map<string, Ledger>)
    ensures l.Keys == Rooms
  {
    if 1 <= |ids| <= 2 then EmptyLedgers[Foyer := Ledger([ids[0]], ["paper"])] else EmptyLedgers
  }

  /** Only the foyer lists anything, the paper, and the rooms agree with
      the table `/newhub` builds. */
  lemma HouseLedgersContents(ids: seq<int>)
    ensures var l := HouseLedgers(ids);
      && l[Classroom] == EmptyLedger && l[PodiumRoom] == EmptyLedger
      && (1 <= |ids| <= 2 ==> l[Foyer] == Ledger([ids[0]], ["paper"]))
      && (!(1 <= |ids| <= 2) ==> l[Foyer] == EmptyLedger)
      && Consistent(HouseTable(ids), l)
  {
    HouseTableContents(ids);
  }

  // ---------------------------------------------------------------------
  // The server.
  // ---------------------------------------------------------------------

  class ReferenceDomain {
    var hubUrl: string
    var domainId: Option<int>
    var secret: Option<string>
    /** `item_ids` / `item_names`: every item this domain has seen. */
    var table: Part
    var users: map<int, Session>
    /** Ids of items this domain owns (the key). */
    var owned: seq<int>
    /** The `items_id` / `items_name` lists of each room. */
    var ledgers: map<string, Ledger>
    var podium: Podium

    ghost predicate Valid()
      reads this
    {
      && ledgers.Keys == Rooms
      && (forall u :: u in users ==> users[u].location in Rooms)
      && Consistent(table, ledgers)
      && ScreenFollowsSwitch(podium)
    }

    /** The state before any hub is known. */
    constructor()
      ensures Valid()
      ensures hubUrl == "" && domainId == None && secret == None
      ensures table == EmptyPart && users == map[] && owned == [] && ledgers == EmptyLedgers
      ensures podium == InitialPodium
    {
      hubUrl := "";
      domainId := None;
      secret := None;
      table := EmptyPart;
      users := map[];
      owned := [];
      ledgers := EmptyLedgers;
      podium := InitialPodium;
    }

    /** `/newhub` after the hub answered: relay a JSON error, fail on an
        answer that is not JSON, or start over with the hub's answer. */
    method NewHub(url: string, reply: HubReply) returns (status: Status)
      requires Valid()
      modifies this
      ensures Valid()
      ensures reply.HubRefused? ==> status == reply.status && unchanged(this)
      ensures reply.HubUnreadable? ==> status == ServerError && unchanged(this)
      ensures reply.HubAccepted? ==>
        hubUrl == url && domainId == Some(reply.did) && secret == Some(reply.secret) &&
        users == map[] && podium == InitialPodium && table == HouseTable(reply.ids) &&
        ledgers == HouseLedgers(reply.ids) && owned == (if |reply.ids| == 2 then [reply.ids[1]] else []) &&
        (status == Ok <==> |reply.ids| == 2)
    {
      match reply
      case HubRefused(st) =>
        status := st;
      case HubUnreadable =>
        status := ServerError;
      case HubAccepted(did, sec, ids) =>
        status := Restart(url, did, sec, ids);
    }

    /** Remember the hub, forget every user and item, reset the puzzle, and
        put the paper (first id) in the foyer and the key (second id) among
        the owned ids.  Fewer or more than two ids make the source raise
        part-way, after the item table is built. */
    method Restart(url: string, did: int, sec: string, ids: seq<int>) returns (status: Status)
      modifies this
      ensures Valid()
      ensures hubUrl == url && domainId == Some(did) && secret == Some(sec)
      ensures users == map[] && podium == InitialPodium
      ensures table == HouseTable(ids) && ledgers == HouseLedgers(ids)
      ensures owned == if |ids| == 2 then [ids[1]] else []
      ensures status == Ok <==> |ids| == 2
    {
      HouseLedgersContents(ids);
      hubUrl, domainId, secret := url, Some(did), Some(sec);
      users, podium := map[], InitialPodium;
      table := HouseTable(ids);
      ledgers := HouseLedgers(ids);
      // the key's id is recorded only when the source gets that far
      owned := if |ids| == 2 then [ids[1]] else [];
      status := if |ids| == 2 then Ok else ServerError;
    }

    /** `/arrive`: check the secret, reset (or create) the session, then fill
        its partitions from the four lists; dropped briefs and prizes also go
        into the item table and, when they have a room, into its ledger. */
    method Arrive(sec: string, uid: int, ownedBriefs: seq<Item>, carried: seq<Item>, dropped: seq<Item>, prize: seq<Item>)
      returns (status: Status, unused: seq<Item>)
      requires Valid()
      requires forall i :: 0 <= i < |dropped| ==> dropped[i].location.Some?
      requires forall i :: 0 <= i < |prize| ==> prize[i].depth.Some?
      modifies this
      ensures Valid()
      ensures secret != Some(sec) ==> status == Forbidden && unused == [] && unchanged(this)
      ensures secret == Some(sec) ==>
        status == Ok && unused == Unplaced(prize, PrizeRoom) &&
        users == old(users)[uid := Entering(old(users), uid).(
          owned := AddAll(EmptyPart, ownedBriefs), carried := AddAll(EmptyPart, carried),
          dropped := AddAll(EmptyPart, dropped), prize := AddAll(EmptyPart, prize))] &&
        table == AddAll(AddAll(old(table), dropped), prize) &&
        ledgers == PlaceAll(PlaceAll(old(ledgers), dropped, DroppedRoom), prize, PrizeRoom)
      ensures owned == old(owned) && podium == old(podium) && secret == old(secret)
      ensures hubUrl == old(hubUrl) && domainId == old(domainId)
    {
      if secret != Some(sec) {
        return Forbidden, [];
      }
      var s := Entering(users, uid);
      var ownedPart := Fill(s.owned, ownedBriefs);
      var carriedPart := Fill(s.carried, carried);
      var droppedPart, prizePart := Stock(dropped, prize);
      unused := Unplaced(prize, PrizeRoom);
      users := users[uid := s.(owned := ownedPart, carried := carriedPart, dropped := droppedPart, prize := prizePart)];
      status := Ok;
    }

    /** The part of `/arrive` that touches the rooms: dropped briefs, then
        prizes, go into the item table and the ledger of their room; both
        lists are also returned as the session's new partitions. */
    method Stock(dropped: seq<Item>, prize: seq<Item>) returns (droppedPart: Part, prizePart: Part)
      requires ledgers.Keys == Rooms && Consistent(table, ledgers)
      modifies this
      ensures ledgers.Keys == Rooms && Consistent(table, ledgers)
      ensures droppedPart == AddAll(EmptyPart, dropped) && prizePart == AddAll(EmptyPart, prize)
      ensures table == AddAll(AddAll(old(table), dropped), prize)
      ensures ledgers == PlaceAll(PlaceAll(old(ledgers), dropped, DroppedRoom), prize, PrizeRoom)
      ensures users == old(users) && owned == old(owned) && podium == old(podium) && secret == old(secret)
      ensures hubUrl == old(hubUrl) && domainId == old(domainId)
    {
      ghost var table0, ledgers0 := table, ledgers;
      droppedPart, table, ledgers := Settle(EmptyPart, table, ledgers, dropped, DroppedRoom);
      ArrivalKeepsConsistent(table0, ledgers0, dropped, DroppedRoom);
      ghost var table1, ledgers1 := table, ledgers;
      prizePart, table, ledgers := Settle(EmptyPart, table, ledgers, prize, PrizeRoom);
      ArrivalKeepsConsistent(table1, ledgers1, prize, PrizeRoom);
    }

    /** `/dropped`: check the secret and the user, then move the item out of
        the user's hands into the current room, answering with the room. */
    method Dropped(sec: string, uid: int, itemId: int) returns (status: Status, room: Option<string>)
      requires Valid()
      modifies this
      ensures Valid()
      ensures secret != Some(sec) ==> status == Forbidden && room == None && unchanged(this)
      ensures secret == Some(sec) && uid !in old(users) ==> status == NotFound && room == None && unchanged(this)
      ensures secret == Some(sec) && uid in old(users) ==>
        var r := DropItem(Scene(old(users)[uid], old(table), old(ledgers)), itemId);
        (r.NotHeld? ==> status == NotFound && room == None && unchanged(this)) &&
        (r.DropCrashed? ==> status == ServerError && room == None) &&
        (r.DroppedIn? ==> status == Ok && room == Some(r.room)) &&
        (!r.NotHeld? ==> users == old(users)[uid := r.after.session] && table == r.after.table && ledgers == r.after.ledgers)
      ensures owned == old(owned) && podium == old(podium) && secret == old(secret)
      ensures hubUrl == old(hubUrl) && domainId == old(domainId)
    {
      if secret != Some(sec) {
        return Forbidden, None;
      }
      if uid !in users {
        return NotFound, None;
      }
      status, room := DropFor(uid, itemId);
    }

    /** The drop itself, for a known user: the state changes only as
        `DropItem` says. */
    method DropFor(uid: int, itemId: int) returns (status: Status, room: Option<string>)
      requires Valid() && uid in users
      modifies this
      ensures Valid()
      ensures var r := DropItem(Scene(old(users)[uid], old(table), old(ledgers)), itemId);
        (r.NotHeld? ==> status == NotFound && room == None && unchanged(this)) &&
        (r.DropCrashed? ==> status == ServerError && room == None) &&
        (r.DroppedIn? ==> status == Ok && room == Some(r.room)) &&
        (!r.NotHeld? ==> users == old(users)[uid := r.after.session] && table == r.after.table && ledgers == r.after.ledgers)
      ensures owned == old(owned) && podium == old(podium) && secret == old(secret)
      ensures hubUrl == old(hubUrl) && domainId == old(domainId)
    {
      var r := DropItem(Scene(users[uid], table, ledgers), itemId);
      if r.NotHeld? {
        return NotFound, None;
      }
      users, table, ledgers := users[uid := r.after.session], r.after.table, r.after.ledgers;
      if r.DroppedIn? {
        status, room := Ok, Some(r.room);
      } else {
        status, room := ServerError, None;
      }
    }

    /** `take X` for a joined user: the state changes only as `TakeStep` says. */
    method TakeCommand(uid: int, q: string, hub: TransferAnswer) returns (reply: Reply)
      requires Valid() && uid in users
      modifies this
      ensures Valid()
      ensures hubUrl == old(hubUrl) && domainId == old(domainId) && secret == old(secret) && owned == old(owned)
      ensures var r := TakeStep(Scene(old(users)[uid], old(table), old(ledgers)), q, old(podium), old(owned), hub);
        reply == TakeReply(r, q) && podium == old(podium) &&
        (r.NothingTaken? ==> unchanged(this)) &&
        (!r.NothingTaken? ==> users == old(users)[uid := r.after.session] && table == r.after.table && ledgers == r.after.ledgers)
    {
      var r := TakeStep(Scene(users[uid], table, ledgers), q, podium, owned, hub);
      if !r.NothingTaken? {
        users, table, ledgers := users[uid := r.after.session], r.after.table, r.after.ledgers;
      }
      reply := TakeReply(r, q);
    }

    /** `/command`: dispatch on the words, in the source's order. */
    method HandleCommand(uid: int, words: seq<string>, hub: TransferAnswer) returns (reply: Reply)
      requires Valid()
      modifies this
      ensures Valid()
      ensures hubUrl == old(hubUrl) && domainId == old(domainId) && secret == old(secret) && owned == old(owned)
      ensures uid !in old(users) ==> reply == Said([Notice(NotJoined)]) && unchanged(this)
      ensures uid in old(users) ==>
        var s := old(users)[uid];
        var c := Parse(words, s.location == PodiumRoom);
        // every command but take, go and the podium's is read-only
        (!c.Take? && !c.Go? && !c.AtPodium? ==> unchanged(this)) &&
        (c.LookAround? ==> reply == Said(LookLines(s.location, old(podium), old(table), old(ledgers)))) &&
        (c.LookAt? ==> reply == LookAtLines(s, c.target, old(podium), old(table), old(ledgers))) &&
        (c.ReadSign? ==> reply == Said([Notice(if s.location == Foyer then SignSays else DontKnow)])) &&
        (c.Unknown? ==> reply == Said([Notice(DontKnow)])) &&
        (c.Verb? ==> var v := VerbAnswer(s, c.verb, c.query);
          reply == (if v.Says? then Said([Say(v.text)]) else if v.Silent? then Said([Notice(DontKnow)]) else Failed))
      ensures uid in old(users) && Parse(words, old(users)[uid].location == PodiumRoom).Take? ==>
        var s := old(users)[uid];
        var q := Parse(words, s.location == PodiumRoom).query;
        var r := TakeStep(Scene(s, old(table), old(ledgers)), q, old(podium), old(owned), hub);
        reply == TakeReply(r, q) && podium == old(podium) &&
        (r.NothingTaken? ==> unchanged(this)) &&
        (!r.NothingTaken? ==> users == old(users)[uid := r.after.session] && table == r.after.table && ledgers == r.after.ledgers)
      ensures uid in old(users) && Parse(words, old(users)[uid].location == PodiumRoom).Go? ==>
        var s := old(users)[uid];
        var exits := Exits(s.location);
        var d := Parse(words, s.location == PodiumRoom).direction;
        (d !in exits ==> reply == Said([Notice(CantGo)]) && unchanged(this)) &&
        (d in exits && exits[d].None? ==> reply == Said([Say("$journey east")]) && unchanged(this)) &&
        (d in exits && exits[d].Some? ==>
          var dest := exits[d].value;
          users == old(users)[uid := s.(location := dest, visited := s.visited + {dest})] &&
          table == old(table) && ledgers == old(ledgers) && podium == old(podium) &&
          reply == Said(GoLines(dest, dest in s.visited, old(podium), old(table), old(ledgers))))
      ensures uid in old(users) && Parse(words, old(users)[uid].location == PodiumRoom).AtPodium? ==>
        var s := old(users)[uid];
        var step := PodiumStep(old(podium), Parse(words, true).podium, HasKey(s), Inside(old(table), old(ledgers)));
        podium == step.after && reply == Said(step.lines) &&
        users == old(users) && table == old(table) && ledgers == old(ledgers)
    {
      if uid !in users {
        return Said([Notice(NotJoined)]);
      }
      var s := users[uid];
      var c := Parse(words, s.location == PodiumRoom);
      match c
      case LookAround =>
        reply := Said(LookLines(s.location, podium, table, ledgers));
      case LookAt(target) =>
        reply := LookAtLines(s, target, podium, table, ledgers);
      case Take(q) =>
        reply := TakeCommand(uid, q, hub);
      case Go(d) =>
        var exits := Exits(s.location);
        if d !in exits {
          reply := Said([Notice(CantGo)]);
        } else if exits[d].None? {
          reply := Said([Say("$journey east")]);
        } else {
          var dest := exits[d].value;
          users := users[uid := s.(location := dest, visited := s.visited + {dest})];
          reply := Said(GoLines(dest, dest in s.visited, podium, table, ledgers));
        }
      case ReadSign =>
        reply := Said([Notice(if s.location == Foyer then SignSays else DontKnow)]);
      case AtPodium(pc) =>
        var step := PodiumStep(podium, pc, HasKey(s), Inside(table, ledgers));
        podium := step.after;
        reply := Said(step.lines);
      case Verb(verb, q) =>
        var v := VerbAnswer(s, verb, q);
        reply := if v.Says? then Said([Say(v.text)]) else if v.Silent? then Said([Notice(DontKnow)]) else Failed;
      case Unknown =>
        reply := Said([Notice(DontKnow)]);
    }
  }
}
