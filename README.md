# A verified model of a text-adventure hub and its two domain servers

The system is a multi-user text adventure in three servers:

- The **hub** (`hub.py`) is the custody authority. It keeps the registries
  of domains, item templates and users. It runs the setup / locked / play
  mode machine. For every user it keeps one custody record per item:
  carried (`'inventory'`) or dropped in a domain at a tag that domain chose.
- The **reference domain** (`domain.py`) has three rooms: foyer, classroom
  and podium. It keeps one item table and one ledger per room for all
  users, a session per user, and a podium puzzle made of a cabinet, a power
  switch and a screen.
- The **variant domain** (`newdomain.py`) is a gated labyrinth of eight
  rooms. On a first arrival each user gets a private copy of the room
  graph. An `arrived` flag is cleared by `/depart`.

Domains change custody only through the hub's `/transfer`. Users change it
through the hub's `drop` and `journey` commands. On arrival the hub sends the
domain four lists of item briefs (owned, carried, dropped, prize), and the
domain rebuilds the user's session from them.

The Dafny modules follow that structure:

- `common.dfy` (`Common`): statuses, options, and the decimal text item ids
  travel as (`str`, `int`, `isdigit`). It also has the Python list operations
  the servers use: `list.remove`, append-if-absent and `' '.join`.
- `items.dfy` (`Items`): the item brief and the paired id/name dictionaries
  of an inventory partition. It also has the room ledger, the arrival loops,
  and the `/dropped` and pick-up steps both domains share.
- `hub.dfy` (`Hub`): the authentication checks, the transfer rule, `/query`,
  the arrival classification and the `drop` matching, as functions. The
  state-changing handlers are methods of the class `HubServer`.
- `reference.dfy` (`Reference`): the podium puzzle, the command parser and
  the replies of `look`, `look X`, `go` and `take`, as functions. The
  handlers are methods of `ReferenceDomain`.
- `variant.dfy` (`Variant`): the per-user world copies, the gates, the
  `find_item_location` look-up and the replies, as functions. The handlers
  are methods of `VariantDomain`.

Some inputs are parameters of the model, because the source draws or
fetches them:

- Random draws: domain id, secret, `t0`, the scenario, the first loot id,
  and the domain a new user is placed in.
- Answers of remote servers:
  - `TransferAnswer` is what `/transfer` did for a `take`: answered 200 (`Agreed`), answered another status (`Declined`), or raised in the client (`Raised`), for a refused connection or the three-second timeout.
  - `DropAnswer` is what a domain answered to `/dropped`.
  - `HubReply` is what the hub answered to `/register`: a JSON error, an answer that is not JSON (the hub's plain-text 409s at hub.py:370 and hub.py:385, or a failed request), or an acceptance.

An exception that really happens in the source is modelled as a `ServerError`
or `Failed` reply that carries the state as the source left it. Examples are
a `list.remove` of a missing value, a `KeyError` on a dangling name, a
missing loot list, and a `/transfer` call of `take` that raises.

Where the code and the written design disagree, the model follows the code:

- Asking for the current mode changes nothing.
- Switching the power off blanks the screen even after a win, so `won` is
  not final.

## Model

| member | source | states |
|---|---|---|
| Common.AddOnce | domain.py:174-200 | the guarded append used on arrival: the value is present afterwards, the list only grows by it, and a duplicate-free list stays duplicate-free |
| Common.RemoveFirst | domain.py:432-434 | `list.remove` takes out exactly one occurrence of the value (multiset minus one), as the take handler does to a room's lists |
| Common.ParseIntToString | hub.py:332-333 | reading back a printed id gives that id, so `int(todrop)` of a matched id string is the matched item |
| Common.IntToStringInjective | hub.py:332 | two different ids never print the same, so an id-string match in `drop` is unique |
| Items.AddAllContents | domain.py:155-183 | after the arrival loops, a partition holds exactly the old ids and names plus those of the added briefs, and the last brief with an id is stored under it |
| Items.Fill | domain.py:155-163 | the loop over the owned and carried briefs fills the partition as the specification function `AddAll` says |
| Items.Ledger.Place | domain.py:174-178 | arrival placement puts the id and the name in the room's lists only when absent, so no id is listed twice |
| Items.PlaceAllFrame | domain.py:166-203 | arrival placement keeps every room's ids duplicate-free and leaves a room no brief is sent to untouched |
| Items.PlaceAllIds | domain.py:166-203 | a room's ids after arrival are its old ids plus exactly the ids of the briefs whose room it is |
| Items.PlaceAllNames | domain.py:166-203 | likewise for a room's names |
| Items.Settle | domain.py:165-203 | the loop over dropped or prize briefs fills the partition and the item table and places each brief in its room, only if that room exists |
| Items.Unplaced | domain.py:180-206 | `unused_items_depth` holds exactly the prizes the domain's prize rule gives no room (both domains use it with their own `PrizeRoom`) |
| Items.AddAllResolves | domain.py:166-186 | adding briefs to the item table keeps every name resolving to a stored id |
| Items.ArrivalKeepsConsistent | domain.py:155-203 | an arrival loop keeps the item table and the room ledgers consistent: every listed id and name is in the table |
| Items.InHands | domain.py:349-360 | the inventory search: a digit query is an id, found in owned, else in carried; anything else is a name, resolved in owned when owned's name dict has it, else in carried; a name whose id is gone from that partition is reported as dangling |
| Items.VerbAnswer | domain.py:585-610 | an item verb answers with the item's own text exactly when the item is in hand and has that verb; a dangling name is the `KeyError` |
| Items.DropItem | domain.py:229-262 | `/dropped` removes the item from owned (checked first) or carried, stamps it with the current room, and adds it to `dropped`, the item table and the end of both of that room's lists, with the rest of the partitions, the table and the other rooms unchanged; an item in neither partition is 404 with no change |
| Items.Pickup | domain.py:432-444 | after the hub's 200, the room loses one copy of the id and the name, and the item goes to owned exactly when the domain owns its id, else to carried; a missing list entry is the crash |
| Hub.ScenarioLoot | hub.py:31-65 | the two outside-world scenario items are homed in domain -1 at depth 0 |
| Hub.CheckSecret | hub.py:110-136 | `checkuid` and `checkdid` refuse in a fixed order: not play 409, missing field 400, unknown id 403, wrong secret 403; they pass exactly when all four hold |
| Hub.Decide | hub.py:435-451 | the transfer guards in order: carried to `inventory` 409; no record and the domain neither home nor host 403; a record, not to `inventory`, domain not home 403; a record not in the requesting domain 403 (every carried record); otherwise the new record |
| Hub.TransferRespectsCustody | hub.py:435-451 | a successful transfer creates a record only for an item the domain owns or hosts, picks up only what lies in that domain, and writes only `'inventory'` or a place in that domain |
| Hub.Unclaimed | hub.py:484-490 | the depth answer: exactly the loot ids with no record whose template depth equals the requested depth |
| Hub.Query | hub.py:458-492 | `/query` is read-only; both or neither of location and depth is 400; a location query returns exactly the ids recorded at `'inventory'` or `(did, location)`; a depth query returns the unclaimed loot of that depth |
| Hub.PrizeBriefs | hub.py:302-307 | the prize list holds only the destination's loot the user has no record of, and every such item's brief, each with the template's name, description, verbs and depth |
| Hub.Classify | hub.py:288-307 | each record lands in at most one list: carried and homed in the destination goes to owned, other carried to carried, dropped in the destination to dropped with its tag as location; records in other domains are left out; every brief carries the template's name, description and verbs; only prize briefs carry a depth, the template's |
| Hub.Inventory | hub.py:276-281 | the inventory reply lists exactly the carried ids, or says there are none |
| Hub.DropChoice | hub.py:324-342 | `drop` matches only carried items, an id string first, then a unique name; no match or several same-named items choose nothing |
| Hub.StoredDepth | hub.py:394-401 | a registered depth is stored as `max(0, depth)`, and only when it is an integer |
| Hub.StoreTemplates | hub.py:394-401 | the registration loop gives every spec an id homed in the registering domain and leaves every template whose id it did not hand out as it was; with no clash the ids are consecutive from `len(templates) + t0`, each holding its own spec's template |
| Hub.FirstFreeId | hub.py:97-98 | `while lootid in templates: lootid += 1` ends at the least free id at or above its start |
| Hub.HubServer.constructor | hub.py:11-24 | the hub starts in setup with empty registries |
| Hub.HubServer.SetMode | hub.py:154-176 | the current mode changes nothing; while locked every other request is 409; setup empties users, domains and templates; play needs a registered domain and ends in play: two fresh ids from `lootStart` on, the scenario's key and the toy, are hosted by and given as loot to the first registered domain, and the expedition records what was hidden and the key; an unknown mode is 400 with no change |
| Hub.HubServer.Launch | hub.py:170-173 | the accepted switch to play: the hub ends in play with users and order unchanged, and two fresh ids from `lootStart` on, the key and the toy, are hosted by and given as loot to the first registered domain, the expedition recording what was hidden and the key |
| Hub.HubServer.AssignLoot | hub.py:89-108 | the key and the toy get fresh, distinct ids; the first domain's loot becomes `[key, toy]`, both hosted there; hiding is what had a depth before |
| Hub.HubServer.Admit | hub.py:386-404 | the accepting half of `/register`: the domain is stored under `did`, joins the registration order when new, and its items are registered as `StoreTemplates` says, with every other template unchanged |
| Hub.HubServer.RegisterDomain | hub.py:367-404 | refused outside setup 409, missing field 400, duplicate URL 409, a third domain 409, each with no change; otherwise the domain is stored and its items registered, and every template under an id the registration did not hand out keeps its value |
| Hub.HubServer.Login | hub.py:204-219 | a new user gets the next id, starts in the chosen domain with no records, and the arrival handshake raises when that domain has no loot |
| Hub.HubServer.Transfer | hub.py:408-454 | the domain check's refusal is relayed; an unknown user, an unknown item or a missing `to` is 400; a guard's refusal answers that guard's status (409 or 403); a successful transfer changes exactly one custody record as the guards decide; every refusal changes nothing |
| Hub.HubServer.Drop | hub.py:322-358 | zero or several matches change nothing, an unreachable domain changes nothing, and otherwise the chosen carried item's record becomes `(did, answer)` |
| Hub.HubServer.Journey | hub.py:256-274 | a non-cardinal direction is 403 with no change; at state 0 while carrying the key, the expedition moves to state 1 and every hidden item becomes carried |
| Reference.Exits | domain.py:15-34 | the fixed exits; the only exit that leaves the domain is the foyer's east |
| Reference.Parse | domain.py:278-610 | the branch order of the command handler: at the podium a two-word command that is not the podium's own never reaches the item verbs |
| Reference.ReadSignIsTwoWords | domain.py:503 | `" ".join(command) == "read sign"` holds for two words exactly when they are `read` and `sign` |
| Reference.PodiumStep | domain.py:507-584 | each command's new podium and notice: open acts only from closed (showing the interior), otherwise it says locked or already open; close acts only from open; the cabinet and key never touch the switch or screen; the key in hand toggles locked and closed and is not understood on an open cabinet, without it nothing changes; the switch needs the open cabinet, up shows the password prompt, down blanks the screen; the screen is won only by `xyzzy` at the prompt, any other word there is echoed with no change, and off the prompt `tell screen` is not understood |
| Reference.RunKeepsScreenFollowingSwitch | domain.py:507-584 | over any run of podium commands the screen is blank exactly while the switch is down, and a win needs the password among the commands |
| Reference.HereLines | domain.py:296-304 | a line for every listed item that has no depth, depth 0, or was dropped in this room, and for no other item |
| Reference.HereLinesCount | domain.py:296-304 | one line per ledger entry: a visible id the room lists twice (as `/dropped` can make it) is shown twice |
| Reference.CabinetLines | domain.py:519-523 | the open cabinet shows exactly the podium's depth-1 items |
| Reference.CabinetLinesCount | domain.py:519-523 | one cabinet line per ledger entry of a depth-1 id, so a twice-listed item is shown twice |
| Reference.LookLines | domain.py:278-306 | `look` is the room's description, the cabinet's depth-1 items only at the podium with the cabinet open, then exactly the visible items |
| Reference.GoLines | domain.py:466-502 | after a move: the capitalised name on a revisit, else the description; then the visible items, and at the podium with the cabinet open its items |
| Reference.InRoom | domain.py:362-379 | `look X` in the room finds a listed surface item by id or by name |
| Reference.LookAtLines | domain.py:307-384 | the podium fixtures are only known at the podium; otherwise the item in hand is described, else a visible item of the room; a dangling name is the crash |
| Reference.TakeTarget | domain.py:395-405 | `take X` picks a listed id, or a listed name resolved through the item table |
| Reference.TakeStep | domain.py:385-448 | an item is taken only at depth 0, or at depth 1 from the open cabinet at the podium, and only when the hub answers 200; a raising `/transfer` is the crash with nothing changed |
| Reference.TakeReply | domain.py:444-448 | every way of not taking the item gives the same "There's no X here to take" |
| Reference.PrizeRoom | domain.py:180-203 | prize depth 0 goes to the classroom, depth 1 to the podium, any other depth nowhere |
| Reference.Entering | domain.py:123-132 | a returning user's partitions are emptied and a new user's are empty; both stand in the foyer, which counts as visited |
| Reference.HouseTableContents | domain.py:75-107 | `/newhub` stores the paper under the first id and the key under the second, every name resolves, and no other id appears |
| Reference.HouseLedgers | domain.py:75-107 | `/newhub` leaves a ledger for exactly the three rooms |
| Reference.HouseLedgersContents | domain.py:75-107 | only the foyer lists anything, the paper, and the ledgers agree with the new item table |
| Reference.ReferenceDomain.constructor | domain.py:7-35 | the server starts with no hub, no users, no items and the puzzle locked, switched off and dark |
| Reference.ReferenceDomain.NewHub | domain.py:53-109 | a JSON error from the hub is relayed with its status and no change; an answer that is not JSON is a 500 with no change; otherwise users, items and puzzle are reset and the key's id becomes owned, once exactly two ids came back |
| Reference.ReferenceDomain.Restart | domain.py:75-107 | the reset after the hub's answer, with the state the source leaves when it raises part-way |
| Reference.ReferenceDomain.Arrive | domain.py:112-206 | a wrong secret is 403 with no change; otherwise the session is reset and filled from the four lists, and dropped and prize briefs are stocked in the table and placed in their rooms |
| Reference.ReferenceDomain.Stock | domain.py:155-203 | the dropped and prize loops change the table and ledgers as the specification functions say and keep them consistent |
| Reference.ReferenceDomain.Dropped | domain.py:209-262 | a wrong secret is 403 and an unknown user 404, both with no change; otherwise the state becomes what `DropItem` says, and the room is returned |
| Reference.ReferenceDomain.DropFor | domain.py:226-262 | for a known user, an item not held is 404 with no change; otherwise the session, table and ledgers become what `DropItem` says, a drop that crashes is a 500 and a completed one is answered with the room |
| Reference.ReferenceDomain.TakeCommand | domain.py:385-448 | `take X` changes the session, table and ledgers exactly as `TakeStep` says, and nothing when nothing is taken; the reply is `TakeReply`'s |
| Reference.ReferenceDomain.HandleCommand | domain.py:264-610 | an unknown user is refused; look, look X, read sign, item verbs and unknown commands change nothing; take, go and the podium commands change the state as their functions say |
| Variant.Exits | newdomain.py:24-88 | the exits of every room; only the nexus's portals leave the domain, and only the lore room leads to the trap room |
| Variant.JourneyExitsAreRecognised | newdomain.py:732-733 | each portal exit of the nexus contains `$journey`, so `go` answers it verbatim |
| Variant.OpensOnlyGatedRooms | newdomain.py:741-795 | a first visit is let in only to a room, never to the trap room, and to the lore room, second puzzle chamber, treasure room and secret chamber only with gate 1, gate 2, gate 3 and a full altar |
| Variant.ItemLines | newdomain.py:556-570 | one line per listed item, in ledger order: here when visible, else suspended when the room's beams are on, else locked in place |
| Variant.LookLines | newdomain.py:512-571 | `look` is the room's description and one line for every item the room lists |
| Variant.FindItemLocation | newdomain.py:457-485 | a digit query looks the id up among the room's ids and is never ambiguous; a name query is ambiguous exactly when the room lists the name more than once, and reports the id the item table gives that name when the room lists it, else none |
| Variant.CanTakeIsVisible | newdomain.py:679-683 | the take rule lets through exactly the items `look` shows as lying here |
| Variant.TakeStep | newdomain.py:663-719 | an item is taken only when it has depth 0 or no depth, or was dropped in this room, and only on the hub's 200; a raising `/transfer` is the crash with nothing changed |
| Variant.TakeReply | newdomain.py:715-719 | every way of not taking the item gives the same reply |
| Variant.Parse | newdomain.py:512-850 | the branch order of the command handler for commands other than `look` with a target |
| Variant.Move | newdomain.py:741-795 | a seen room is entered again; an unseen one only when its gate lets the user in |
| Variant.PrizeRoom | newdomain.py:308-367 | prize depth 0 goes to the first puzzle chamber, 1 to the lore room, 2 to the second puzzle chamber, any other depth nowhere |
| Variant.Entering | newdomain.py:245-273 | a returning user keeps their own world, a new user gets a copy of the base; the session is emptied, at the nexus, which counts as visited, and arrived |
| Variant.Reflag | newdomain.py:245-273 | a world with the same gate and altar flags keeps the session inside what its gates allow |
| Variant.DropKeepsEntryValid | newdomain.py:424-455 | a drop, even one that crashes half-way, keeps the entry well formed and its flags untouched |
| Variant.TakeOutcome | newdomain.py:663-719 | an ambiguous name asks for the id with no change; otherwise the entry changes only as `TakeStep` says, and only when the hub said 200 |
| Variant.Walk | newdomain.py:731-816 | a `$journey` exit is answered verbatim with no change; a refused first visit changes nothing; a move sets the location and adds it to the visited rooms, and the user only enters a seen room or one whose gate lets them in |
| Variant.GoOutcome | newdomain.py:720-733 | a direction the room lacks is refused with no change; otherwise the user walks to the exit's target |
| Variant.VariantDomain.constructor | newdomain.py:15-93 | the server holds the base world and no user; the world's flags and owned list are taken as given |
| Variant.VariantDomain.Arrive | newdomain.py:233-370 | a wrong secret is 403 with no change; otherwise the user's own world (or a copy of the base) is filled from the four lists and the session reset; no other user's entry changes |
| Variant.VariantDomain.Depart | newdomain.py:373-391 | an unknown user is 404; otherwise only the arrived flag drops and the session keeps its contents |
| Variant.Furnish | newdomain.py:278-370 | the filled entry: the four partitions are the four lists added in order, the dropped and prize briefs are added to the world's item table and placed in the rooms they name, the entry stays valid with its flags, and the unused prize briefs are reported |
| Variant.VariantDomain.Dropped | newdomain.py:394-455 | secret 403, then unknown user 404, then a departed session 409, each with no change; otherwise the entry becomes what `DropItem` says, and the room is returned |
| Variant.VariantDomain.HandleCommand | newdomain.py:488-850 | an unknown user is refused, a departed session gets 409 with no change, and each command changes the entry only as its function says |

## Left out

- Transport is not modelled: the aiohttp routes, JSON decoding, CORS middleware and session start and end. Handlers take their decoded fields as parameters.
- Randomness and remote calls are parameters: `make_secret`, the random choices in `login` and `assign_loot`, and the random domain id and `t0` in `register`. The `/transfer`, `/dropped` and `/register` answers are oracles.
- The hub's `/arrive` call to a domain is not modelled. The hub ignores that reply, and an unreachable domain only prints an error.
- Hub.HubServer.Transfer: `to` is modelled as a string. The source accepts any JSON value there. A JSON null with no record is a 409, because `None == None`. A null or non-string `to` on a record dropped in the item's home domain is stored as the tag. Both domains only ever send `"inventory"`.
- Hub.HubServer.Drop: the tag is whatever JSON the domain answered, an error body included. The model reduces it to a string.
- Flavour text is not kept. Room descriptions and fixed sentences are constructors of `Line` and `Notice`. The journey messages are message numbers (0, 1, 2) with the set of items found.
- The hub's `region` and `score` commands, its `/command` dispatcher and `make_map` are not modelled. They only format text.
- Dictionary and set iteration order is lost. The location query and the inventory reply are sets, and the arrival lists are maps keyed by id. `next(iter(domains))` is kept through an explicit registration order.
- The `locked` mode is kept only as the 409 it causes. In a sequential model `set_mode` passes through it within one call, so no concurrency property is stated.
- Variant.VariantDomain.HandleCommand: the `[look, target]` branch of `newdomain.py` (lines 572-662) is excluded by a requires. That branch calls `.count` on a dict and reads unbound variables, so the model does not state what it answers.
- `newdomain.py` `/newhub` (lines 169-230) is not modelled. Its placement depends on the list order of `domain_items`. `VariantDomain`'s constructor takes the filled base world instead.
- Variant.World: of the room graph's puzzle state, only the flags the handlers read are kept: the three gates, the altar slots and the beam switches. Flags no modelled handler reads are left out. In `newdomain.py` no handler ever sets a gate, an altar slot or a beam switch, and the base `owned` list stays empty, so in the program itself the gated rooms are never reachable. The constructor's world accepts any flags, so the model also covers worlds where they are set.
- Variant.CanTake: the first clause of the take rule tests a room key `suspension_beams`, which no room defines (the rooms use `suspensionbeams`). It therefore never holds, and the model leaves it out.
- Items are values. The source's briefs are dicts that rooms, tables and partitions share, and `domain_items` in `domain.py` is mutated through that sharing. The model copies the records instead, so no aliasing effect is captured.
- `isdigit` is modelled for ASCII digits only, and `capitalize` for ASCII letters only.
- Reference.ReferenceDomain.Arrive and Variant.VariantDomain.Arrive require every dropped brief to carry a `location` and every prize brief a `depth`. The hub always supplies both.
- Hub.StoreTemplates: when an id collides with an existing template, the contract states that every spec got an id homed in the registering domain and that templates under other ids are unchanged. It does not say which spec's template a clashing id ends up holding.
- Hub.TemplateOf: the source stores a `name`, `description` or `verb` of any JSON type as it is. The model's specs hold only strings and string maps, so a value of another type is not represented.
