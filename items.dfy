/** The item records and per-user bookkeeping both domain servers keep.

    An `Item` is the JSON "brief" the hub sends on arrival (`id`, `name`,
    `description`, `verb`, and on some lists `depth` or `location`); the
    domains keep such records in their item table, in the four inventory
    partitions of a session, and refer to them by id and by name from the
    `items_id` / `items_name` lists of each room. */
module Items {
  import opened Common

  /** A brief.  `depth` is present on the domain's own templates and on prize
      briefs; `location` on dropped briefs and on items stamped by `/dropped`. */
  datatype Item = Item(
    id: int,
    name: string,
    description: string,
    verbs: map<string, string>,
    depth: Option<int>,
    location: Option<string>)

  /** `'depth' not in item or item['depth'] == 0`: visible and takeable anywhere. */
  predicate Surface(item: Item) {
    item.depth.None? || item.depth == Some(0)
  }

  /** The look filter of both domains: surface items, and items dropped in this room. */
  predicate Visible(item: Item, room: string) {
    Surface(item) || item.location == Some(room)
  }

  /** One inventory partition: the `items_id` dict (id to brief) and the
      `items_name` dict (name to id) that the source keeps side by side. */
  datatype Part = Part(byId: map<int, Item>, byName: map<string, int>) {
    /** `items_id[id] = item; items_name[item['name']] = id`. */
    function AddAs(id: int, item: Item): Part {
      Part(byId[id := item], byName[item.name := id])
    }

    function Add(item: Item): Part {
      AddAs(item.id, item)
    }
  }

  const EmptyPart := Part(map[], map[])

  /** The partition after adding `items` one after another, as the arrival
      loops do. */
  function AddAll(p: Part, items: seq<Item>): Part {
    if |items| == 0 then p else AddAll(p, items[..|items| - 1]).Add(items[|items| - 1])
  }

  /** Which ids and names a filled partition holds: exactly the old ones and
      those of the added items, and an item whose id no later item shares is
      stored under its id. */
  lemma AddAllContents(p: Part, items: seq<Item>)
    ensures forall k :: k in AddAll(p, items).byId <==>
      (k in p.byId || exists i :: 0 <= i < |items| && items[i].id == k)
    ensures forall n :: n in AddAll(p, items).byName <==>
      (n in p.byName || exists i :: 0 <= i < |items| && items[i].name == n)
    ensures forall i :: 0 <= i < |items| && (forall j :: i < j < |items| ==> items[j].id != items[i].id) ==>
      AddAll(p, items).byId[items[i].id] == items[i]
  {
    AddAllIds(p, items);
    AddAllNames(p, items);
    AddAllStored(p, items);
    assert forall i :: 0 <= i < |items| && (forall j :: i < j < |items| ==> items[j].id != items[i].id) ==>
      LastOfId(items, i);
  }

  lemma {:induction false} AddAllIds(p: Part, items: seq<Item>)
    ensures forall k :: k in AddAll(p, items).byId <==>
      (k in p.byId || exists i :: 0 <= i < |items| && items[i].id == k)
  {
    if |items| > 0 {
      var init := items[..|items| - 1];
      AddAllIds(p, init);
      assert AddAll(p, items) == AddAll(p, init).Add(items[|items| - 1]);
      forall k | exists i :: 0 <= i < |items| && items[i].id == k
        ensures k in AddAll(p, items).byId
      {
        var i :| 0 <= i < |items| && items[i].id == k;
        if i < |init| {
          assert init[i].id == k;
        }
      }
      forall k | k in AddAll(p, items).byId && k !in p.byId && k != items[|items| - 1].id
        ensures exists i :: 0 <= i < |items| && items[i].id == k
      {
        var i :| 0 <= i < |init| && init[i].id == k;
        assert items[i].id == k;
      }
    }
  }

  lemma {:induction false} AddAllNames(p: Part, items: seq<Item>)
    ensures forall n :: n in AddAll(p, items).byName <==>
      (n in p.byName || exists i :: 0 <= i < |items| && items[i].name == n)
  {
    if |items| > 0 {
      var init := items[..|items| - 1];
      AddAllNames(p, init);
      assert AddAll(p, items) == AddAll(p, init).Add(items[|items| - 1]);
      forall n | exists i :: 0 <= i < |items| && items[i].name == n
        ensures n in AddAll(p, items).byName
      {
        var i :| 0 <= i < |items| && items[i].name == n;
        if i < |init| {
          assert init[i].name == n;
        }
      }
      forall n | n in AddAll(p, items).byName && n !in p.byName && n != items[|items| - 1].name
        ensures exists i :: 0 <= i < |items| && items[i].name == n
      {
        var i :| 0 <= i < |init| && init[i].name == n;
        assert items[i].name == n;
      }
    }
  }

  /** No item after position `i` shares its id. */
  predicate LastOfId(items: seq<Item>, i: int)
    requires 0 <= i < |items|
  {
    forall j :: i < j < |items| ==> items[j].id != items[i].id
  }

  lemma {:induction false} AddAllStored(p: Part, items: seq<Item>)
    ensures forall i :: 0 <= i < |items| && LastOfId(items, i) ==>
      items[i].id in AddAll(p, items).byId && AddAll(p, items).byId[items[i].id] == items[i]
  {
    if |items| > 0 {
      var init := items[..|items| - 1];
      var last := items[|items| - 1];
      var q := AddAll(p, init);
      AddAllStored(p, init);
      assert AddAll(p, items).byId == q.byId[last.id := last];
      forall i | 0 <= i < |init| && LastOfId(items, i)
        ensures items[i].id in AddAll(p, items).byId && AddAll(p, items).byId[items[i].id] == items[i]
      {
        assert init[i] == items[i];
        assert items[|items| - 1].id != items[i].id;
        forall j | i < j < |init| ensures init[j].id != init[i].id {
          assert init[j] == items[j];
        }
        assert LastOfId(init, i);
      }
    }
  }

  /** The Python loop `for item in items: part_id[item['id']] = item;
      part_name[item['name']] = item['id']`. */
  method Fill(p: Part, items: seq<Item>) returns (q: Part)
    ensures q == AddAll(p, items)
  {
    q := p;
    var k := 0;
    while k < |items|
      invariant 0 <= k <= |items|
      invariant q == AddAll(p, items[..k])
    {
      assert items[..k + 1][..k] == items[..k];
      q := q.Add(items[k]);
      k := k + 1;
    }
    assert items[..k] == items;
  }

  /** A user's per-domain session: the four partitions (owned, carried,
      dropped, prize), the current room and the rooms seen so far.  Rooms are
      named by the same strings the source uses. */
  datatype Session = Session(
    owned: Part,
    carried: Part,
    dropped: Part,
    prize: Part,
    location: string,
    visited: set<string>)

  /** A room's item ledger: the `items_id` and `items_name` lists. */
  datatype Ledger = Ledger(ids: seq<int>, names: seq<string>) {
    /** Arrival placement: each list gets the value only if it lacks it. */
    function Place(item: Item): (r: Ledger)
      ensures item.id in r.ids && item.name in r.names
      ensures Distinct(ids) ==> Distinct(r.ids)
      ensures item.id in ids ==> r.ids == ids
      ensures forall x :: x in r.ids <==> x in ids || x == item.id
      ensures forall n :: n in r.names <==> n in names || n == item.name
    {
      Ledger(AddOnce(ids, item.id), AddOnce(names, item.name))
    }

    /** `/dropped` placement: both lists get the value unconditionally. */
    function Append(id: int, name: string): (r: Ledger)
      ensures r.ids == ids + [id] && r.names == names + [name]
      ensures |r.ids| == |ids| + 1
    {
      Ledger(ids + [id], names + [name])
    }
  }

  const EmptyLedger := Ledger([], [])

  /** How a look-up in the user's hands ends: the brief, nothing, or a name
      that the name dict maps to an id the id dict no longer has (a
      `KeyError` in the source). */
  datatype Lookup = Found(item: Item) | Absent | Dangling

  /** The inventory search of the look-at and item-verb handlers: digits are
      an id, anything else a name; `owned` is searched before `carried`. */
  function InHands(s: Session, q: string): (r: Lookup)
    ensures r.Found? ==> r.item in s.owned.byId.Values || r.item in s.carried.byId.Values
    ensures IsDigits(q) ==>
      (r.Found? <==> ParseNat(q) in s.owned.byId || ParseNat(q) in s.carried.byId) &&
      (ParseNat(q) in s.owned.byId ==> r == Found(s.owned.byId[ParseNat(q)])) &&
      (ParseNat(q) !in s.owned.byId && ParseNat(q) in s.carried.byId ==> r == Found(s.carried.byId[ParseNat(q)]))
    ensures !IsDigits(q) ==>
      (r.Absent? <==> q !in s.owned.byName && q !in s.carried.byName) &&
      (r.Found? ==> r.item.name == q || q in s.owned.byName || q in s.carried.byName) &&
      // a name is looked up in `owned` first; it dangles when its id is gone
      (q in s.owned.byName ==>
        r == if s.owned.byName[q] in s.owned.byId then Found(s.owned.byId[s.owned.byName[q]]) else Dangling) &&
      (q !in s.owned.byName && q in s.carried.byName ==>
        r == if s.carried.byName[q] in s.carried.byId then Found(s.carried.byId[s.carried.byName[q]]) else Dangling)
    ensures r.Dangling? ==> !IsDigits(q)
  {
    if IsDigits(q) then
      var id := ParseNat(q);
      if id in s.owned.byId then Found(s.owned.byId[id])
      else if id in s.carried.byId then Found(s.carried.byId[id])
      else Absent
    else if q in s.owned.byName then
      var id := s.owned.byName[q];
      if id in s.owned.byId then Found(s.owned.byId[id]) else Dangling
    else if q in s.carried.byName then
      var id := s.carried.byName[q];
      if id in s.carried.byId then Found(s.carried.byId[id]) else Dangling
    else Absent
  }

  /** What the generic `[verb, item]` handler finds: the item's canned
      answer, nothing to say, or the `KeyError` of a dangling name. */
  datatype VerbOutcome = Says(text: string) | Silent | Crash

  /** The generic `[verb, item]` handler: the item's canned answer to `verb`,
      if the item is in the user's hands and declares that verb. */
  function VerbAnswer(s: Session, verb: string, q: string): (r: VerbOutcome)
    ensures r.Says? <==> InHands(s, q).Found? && verb in InHands(s, q).item.verbs
    ensures r.Says? ==> r.text == InHands(s, q).item.verbs[verb]
    ensures r.Crash? <==> InHands(s, q).Dangling?
  {
    match InHands(s, q)
    case Found(item) => if verb in item.verbs then Says(item.verbs[verb]) else Silent
    case Absent => Silent
    case Dangling => Crash
  }

  // ---------------------------------------------------------------------
  // The item table and the room ledgers of a domain.
  // ---------------------------------------------------------------------

  /** The `item_ids` / `item_names` table agrees with the room ledgers: every
      name resolves to a stored id, and every id and name a room lists is in
      the table.  Both domains' look-ups rely on it. */
  predicate Consistent(table: Part, ledgers: map<string, Ledger>) {
    && (forall n :: n in table.byName ==> table.byName[n] in table.byId)
    && (forall r, x :: r in ledgers && x in ledgers[r].ids ==> x in table.byId)
    && (forall r, n :: r in ledgers && n in ledgers[r].names ==> n in table.byName)
  }

  /** Arrival placement: each item whose room `where` names, if that room
      exists, is placed in its ledger without duplicating an id or a name. */
  function PlaceAll(ledgers: map<string, Ledger>, items: seq<Item>, where: Item -> Option<string>): (r: map<string, Ledger>)
    ensures r.Keys == ledgers.Keys
  {
    if |items| == 0 then ledgers
    else
      var before := PlaceAll(ledgers, items[..|items| - 1], where);
      var item := items[|items| - 1];
      var room := where(item);
      if room.Some? && room.value in before then before[room.value := before[room.value].Place(item)] else before
  }

  /** The prizes `where` finds no room for, in arrival order: the
      `unused_items_depth` list of `/arrive`. */
  function Unplaced(prize: seq<Item>, where: Item -> Option<string>): (r: seq<Item>)
    ensures forall item :: item in r <==> item in prize && where(item).None?
    ensures |r| <= |prize|
  {
    if |prize| == 0 then []
    else Unplaced(prize[..|prize| - 1], where) + (if where(prize[|prize| - 1]).None? then [prize[|prize| - 1]] else [])
  }

  /** Arrival placement keeps the set of rooms, keeps each room's ids free of
      duplicates, and leaves a room no item is sent to untouched. */
  lemma {:induction false} PlaceAllFrame(ledgers: map<string, Ledger>, items: seq<Item>, where: Item -> Option<string>)
    ensures forall r :: r in ledgers && Distinct(ledgers[r].ids) ==> Distinct(PlaceAll(ledgers, items, where)[r].ids)
    ensures forall r :: r in ledgers && (forall i :: 0 <= i < |items| ==> where(items[i]) != Some(r)) ==>
      PlaceAll(ledgers, items, where)[r] == ledgers[r]
  {
    if |items| > 0 {
      var init := items[..|items| - 1];
      PlaceAllFrame(ledgers, init, where);
      assert forall i :: 0 <= i < |init| ==> init[i] == items[i];
    }
  }

  /** A room's ids after arrival placement are its earlier ids plus the ids of
      exactly the items sent to it. */
  lemma {:induction false} PlaceAllIds(ledgers: map<string, Ledger>, items: seq<Item>, where: Item -> Option<string>)
    ensures forall r, x :: r in ledgers ==>
      (x in PlaceAll(ledgers, items, where)[r].ids <==>
        x in ledgers[r].ids || exists i :: 0 <= i < |items| && items[i].id == x && where(items[i]) == Some(r))
  {
    if |items| > 0 {
      var init := items[..|items| - 1];
      var last := items[|items| - 1];
      PlaceAllIds(ledgers, init, where);
      var before := PlaceAll(ledgers, init, where);
      forall r, x | r in ledgers
        ensures x in PlaceAll(ledgers, items, where)[r].ids <==>
          x in ledgers[r].ids || exists i :: 0 <= i < |items| && items[i].id == x && where(items[i]) == Some(r)
      {
        if x in PlaceAll(ledgers, items, where)[r].ids && !(x in before[r].ids) {
          assert where(last) == Some(r) && last.id == x;
          assert |items| - 1 < |items|;
        }
        if exists i :: 0 <= i < |items| && items[i].id == x && where(items[i]) == Some(r) {
          var i :| 0 <= i < |items| && items[i].id == x && where(items[i]) == Some(r);
          if i < |init| {
            assert init[i] == items[i];
          }
        }
      }
    }
  }

  /** Likewise for a room's names. */
  lemma {:induction false} PlaceAllNames(ledgers: map<string, Ledger>, items: seq<Item>, where: Item -> Option<string>)
    ensures forall r, n :: r in ledgers ==>
      (n in PlaceAll(ledgers, items, where)[r].names <==>
        n in ledgers[r].names || exists i :: 0 <= i < |items| && items[i].name == n && where(items[i]) == Some(r))
  {
    if |items| > 0 {
      var init := items[..|items| - 1];
      var last := items[|items| - 1];
      PlaceAllNames(ledgers, init, where);
      var before := PlaceAll(ledgers, init, where);
      forall r, n | r in ledgers
        ensures n in PlaceAll(ledgers, items, where)[r].names <==>
          n in ledgers[r].names || exists i :: 0 <= i < |items| && items[i].name == n && where(items[i]) == Some(r)
      {
        if n in PlaceAll(ledgers, items, where)[r].names && !(n in before[r].names) {
          assert where(last) == Some(r) && last.name == n;
          assert |items| - 1 < |items|;
        }
        if exists i :: 0 <= i < |items| && items[i].name == n && where(items[i]) == Some(r) {
          var i :| 0 <= i < |items| && items[i].name == n && where(items[i]) == Some(r);
          if i < |init| {
            assert init[i] == items[i];
          }
        }
      }
    }
  }

  /** The arrival loop over one list of briefs: each brief goes into the
      session's partition and the domain's item table, and into the ledger
      of the room `where` gives it, if that room exists. */
  method Settle(part: Part, table: Part, ledgers: map<string, Ledger>, items: seq<Item>, where: Item -> Option<string>)
    returns (filled: Part, stocked: Part, placed: map<string, Ledger>)
    ensures filled == AddAll(part, items)
    ensures stocked == AddAll(table, items)
    ensures placed == PlaceAll(ledgers, items, where)
  {
    filled, stocked, placed := part, table, ledgers;
    var i := 0;
    while i < |items|
      invariant 0 <= i <= |items|
      invariant filled == AddAll(part, items[..i])
      invariant stocked == AddAll(table, items[..i])
      invariant placed == PlaceAll(ledgers, items[..i], where)
    {
      assert items[..i + 1][..i] == items[..i];
      var item := items[i];
      filled := filled.Add(item);
      stocked := stocked.Add(item);
      var room := where(item);
      if room.Some? && room.value in placed {
        placed := placed[room.value := placed[room.value].Place(item)];
      }
      i := i + 1;
    }
    assert items[..i] == items;
  }

  /** Adding items to the table keeps every name resolvable. */
  lemma {:induction false} AddAllResolves(p: Part, items: seq<Item>)
    requires forall n :: n in p.byName ==> p.byName[n] in p.byId
    ensures var q := AddAll(p, items); forall n :: n in q.byName ==> q.byName[n] in q.byId
    ensures p.byId.Keys <= AddAll(p, items).byId.Keys && p.byName.Keys <= AddAll(p, items).byName.Keys
  {
    if |items| > 0 {
      AddAllResolves(p, items[..|items| - 1]);
    }
  }

  /** An arrival loop (add each brief to the table, place it in its room)
      keeps the table and the ledgers consistent. */
  lemma ArrivalKeepsConsistent(table: Part, ledgers: map<string, Ledger>, items: seq<Item>, where: Item -> Option<string>)
    requires Consistent(table, ledgers)
    ensures Consistent(AddAll(table, items), PlaceAll(ledgers, items, where))
  {
    AddAllContents(table, items);
    AddAllResolves(table, items);
    PlaceAllIds(ledgers, items, where);
    PlaceAllNames(ledgers, items, where);
  }

  // ---------------------------------------------------------------------
  // The item handlers both domains share: /dropped and the pick-up of take.
  // ---------------------------------------------------------------------

  /** A domain's view of one user: the session, the item table and the room ledgers. */
  datatype Scene = Scene(session: Session, table: Part, ledgers: map<string, Ledger>)

  /** The outcome of `/dropped` once the request is authenticated: the item
      is not in hand (404), the name index lacked the item's name (a
      `KeyError` after the id entry was deleted), or the item lies in `room`. */
  datatype DropResult = NotHeld | DropCrashed(after: Scene) | DroppedIn(room: string, after: Scene)

  /** `/dropped`: take the item out of `owned` (looked at first) or `carried`,
      stamp it with the current room, and record it as dropped there. */
  function DropItem(sc: Scene, id: int): (r: DropResult)
    requires sc.session.location in sc.ledgers
    ensures r.NotHeld? <==> id !in sc.session.owned.byId && id !in sc.session.carried.byId
    ensures r.DropCrashed? ==>
      r.after.table == sc.table && r.after.ledgers == sc.ledgers &&
      if id in sc.session.owned.byId then
        sc.session.owned.byId[id].name !in sc.session.owned.byName &&
        r.after.session == sc.session.(owned := sc.session.owned.(byId := sc.session.owned.byId - {id}))
      else
        sc.session.carried.byId[id].name !in sc.session.carried.byName &&
        r.after.session == sc.session.(carried := sc.session.carried.(byId := sc.session.carried.byId - {id}))
    ensures r.DroppedIn? ==>
      var s := sc.session;
      var room := s.location;
      var fromOwned := id in s.owned.byId;
      var item := if fromOwned then s.owned.byId[id] else s.carried.byId[id];
      var t := r.after.session;
      r.room == room && t.location == room && t.visited == s.visited && t.prize == s.prize &&
      // out of the partition it was in, and only that one
      (fromOwned ==> (id !in t.owned.byId && item.name !in t.owned.byName && t.carried == s.carried &&
                      t.owned == Part(s.owned.byId - {id}, s.owned.byName - {item.name}))) &&
      (!fromOwned ==> (id !in t.carried.byId && item.name !in t.carried.byName && t.owned == s.owned &&
                       t.carried == Part(s.carried.byId - {id}, s.carried.byName - {item.name}))) &&
      // into `dropped`, the table and the room, stamped with the room, and
      // nothing else of them changes
      id in t.dropped.byId && t.dropped.byId[id] == item.(location := Some(room)) &&
      item.name in t.dropped.byName && t.dropped.byName[item.name] == id &&
      t.dropped == s.dropped.AddAs(id, item.(location := Some(room))) &&
      id in r.after.table.byId && r.after.table.byId[id] == item.(location := Some(room)) &&
      item.name in r.after.table.byName && r.after.table.byName[item.name] == id &&
      r.after.table == sc.table.AddAs(id, item.(location := Some(room))) &&
      r.after.ledgers.Keys == sc.ledgers.Keys &&
      r.after.ledgers[room].ids == sc.ledgers[room].ids + [id] &&
      r.after.ledgers[room].names == sc.ledgers[room].names + [item.name] &&
      (forall q :: q in sc.ledgers && q != room ==> r.after.ledgers[q] == sc.ledgers[q])
    ensures !r.NotHeld? ==> r.after.ledgers.Keys == sc.ledgers.Keys && r.after.session.location == sc.session.location
    ensures !r.NotHeld? && Consistent(sc.table, sc.ledgers) ==> Consistent(r.after.table, r.after.ledgers)
  {
    var s := sc.session;
    var room := s.location;
    if id !in s.owned.byId && id !in s.carried.byId then NotHeld
    else
      var fromOwned := id in s.owned.byId;
      var part := if fromOwned then s.owned else s.carried;
      var item := part.byId[id];
      var withoutId := part.(byId := part.byId - {id});
      if item.name !in part.byName then
        DropCrashed(sc.(session := if fromOwned then s.(owned := withoutId) else s.(carried := withoutId)))
      else
        var left := withoutId.(byName := part.byName - {item.name});
        var stamped := item.(location := Some(room));
        var s1 := if fromOwned then s.(owned := left) else s.(carried := left);
        var table := sc.table.AddAs(id, stamped);
        var ledgers := sc.ledgers[room := sc.ledgers[room].Append(id, item.name)];
        DroppedIn(room, Scene(s1.(dropped := s1.dropped.AddAs(id, stamped)), table, ledgers))
  }

  /** What the hub's `/transfer` did for a `take`: answered 200, answered
      another status, or raised in the client (a refused connection or the
      three-second timeout), which the handler does not catch. */
  datatype TransferAnswer = Agreed | Declined | Raised

  /** How `take` ends: nothing taken (a reply, no change), a crash in
      `list.remove`, or the item in the user's hands. */
  datatype TakeResult = NothingTaken | TakeCrashed(after: Scene) | Taken(name: string, after: Scene)

  /** The part of `take` after the hub agreed: remove the id and the name
      from the room's lists (each `remove` raises when the value is missing)
      and put the item in `owned` when the domain owns it, else in `carried`. */
  function Pickup(sc: Scene, id: int, item: Item, owned: seq<int>): (r: TakeResult)
    requires sc.session.location in sc.ledgers
    ensures !r.NothingTaken?
    ensures var here := sc.ledgers[sc.session.location];
      r.Taken? <==> id in here.ids && item.name in here.names
    ensures r.TakeCrashed? ==> r.after.session == sc.session && r.after.table == sc.table
    ensures r.Taken? ==>
      var s := sc.session;
      var room := s.location;
      var here := sc.ledgers[room];
      var t := r.after.session;
      r.name == item.name && r.after.table == sc.table &&
      // the room loses one copy of the id and of the name
      r.after.ledgers.Keys == sc.ledgers.Keys &&
      multiset(r.after.ledgers[room].ids) == multiset(here.ids) - multiset{id} &&
      multiset(r.after.ledgers[room].names) == multiset(here.names) - multiset{item.name} &&
      (forall q :: q in sc.ledgers && q != room ==> r.after.ledgers[q] == sc.ledgers[q]) &&
      // and the user gains the item in exactly one partition
      t.location == room && t.visited == s.visited && t.dropped == s.dropped && t.prize == s.prize &&
      (id in owned ==> t.owned == s.owned.AddAs(id, item) && t.carried == s.carried) &&
      (id !in owned ==> t.carried == s.carried.AddAs(id, item) && t.owned == s.owned)
    ensures r.after.ledgers.Keys == sc.ledgers.Keys && r.after.session.location == sc.session.location
    ensures Consistent(sc.table, sc.ledgers) ==> Consistent(r.after.table, r.after.ledgers)
  {
    var s := sc.session;
    var room := s.location;
    var here := sc.ledgers[room];
    if id !in here.ids then TakeCrashed(sc)
    else
      var ids := RemoveFirst(here.ids, id);
      if item.name !in here.names then
        TakeCrashed(sc.(ledgers := sc.ledgers[room := here.(ids := ids)]))
      else
        var names := RemoveFirst(here.names, item.name);
        var s1 := if id in owned then s.(owned := s.owned.AddAs(id, item)) else s.(carried := s.carried.AddAs(id, item));
        Taken(item.name, Scene(s1, sc.table, sc.ledgers[room := Ledger(ids, names)]))
  }
}
