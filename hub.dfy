/** The hub: the custody authority of the item protocol.

    It holds the registries (domains, item templates, users), runs the
    setup / locked / play mode machine, and keeps for each user the single
    custody record of every item the user has touched: carried in the user's
    hands, or dropped inside a domain at a tag that domain chose.  Domains
    change custody through `/transfer`; users through `drop` and `journey`. */
module Hub {
  import opened Common
  import opened Items

  datatype Mode = Setup | Locked | Play

  /** The text each mode is named by on `/mode`. */
  function ModeName(m: Mode): string {
    match m
    case Setup => "setup"
    case Locked => "locked"
    case Play => "play"
  }

  /** A custody record: `'inventory'` (carried) or the pair `(did, tag)`. */
  datatype Loc = Carried | DroppedAt(did: int, tag: string)

  /** An item template.  `hosts` is `[]` for templates without that key;
      `depth` is present only when the registering domain gave an integer. */
  datatype Template = Template(
    name: string,
    description: string,
    verbs: map<string, string>,
    home: int,
    hosts: seq<int>,
    depth: Option<int>)

  /** A registered domain.  `loot` is absent until the play transition
      assigns it, and only the first registered domain ever gets one. */
  datatype Domain = Domain(url: string, name: string, description: string, secret: string, loot: Option<seq<int>>)

  /** A user: secret, current domain (`in`), the `open` list and the custody
      records (`inventory`). */
  datatype User = User(secret: string, at: int, open: seq<int>, inventory: map<int, Loc>)

  /** The simulated outside world (`live_domain`): which scenario was drawn,
      its progress (0 until the key has been used), the hidden items it
      releases, and the id of its key item. */
  datatype Expedition = Expedition(scenario: nat, state: int, hiding: set<int>, key: int)

  // The scenario loot's texts, as the hub declares them.
  const ICardDescription: string := "A University ID card. The name is smudged, but you recognize the face; this is the person who came from IT to fix the classroom computer when it broke down."
  const ICardRead: string := "The text is smudged and you don't know how to read bar codes or magnetic stripes."
  const AxeDescription: string := "An axe, colored like those used by firefighters to break through burning walls."
  const AxeUse: string := "An axe like this could do some serious damage. Best not to use it anywhere on campus."
  const ToyDescription: string := "A small rubber turtle with a hard plastic shell"
  const ToyUse: string := "You play with the turtle."

  /** The loot of each outside-world scenario: the ID card or the axe, both
      homed in the fictitious domain -1 and at depth 0. */
  function ScenarioLoot(scenario: nat): (t: Template)
    requires scenario < 2
    ensures t.home == -1 && t.depth == Some(0) && t.hosts == []
    ensures t.name == (if scenario == 0 then "i-card" else "axe")
  {
    if scenario == 0 then Template("i-card", ICardDescription, map["read" := ICardRead], -1, [], Some(0))
    else Template("axe", AxeDescription, map["use" := AxeUse], -1, [], Some(0))
  }

  /** The toy, homed in the fictitious domain -2 and at depth 1. */
  const Toy := Template("toy", ToyDescription, map["use" := ToyUse], -2, [], Some(1))

  // ---------------------------------------------------------------------
  // Request authentication (checkuid / checkdid).
  // ---------------------------------------------------------------------

  /** The outcome of an authentication check: the checked id or a refusal. */
  datatype Checked = Pass(id: int) | Refuse(status: Status)

  /** The four checks `checkuid` and `checkdid` share, in their order: play
      mode, then both fields present, then a known id, then the right secret.
      `secrets` maps each registered id to its secret; `None` stands for a
      missing field. */
  function CheckSecret(mode: Mode, secrets: map<int, string>, id: Option<int>, secret: Option<string>): (r: Checked)
    ensures mode != Play ==> r == Refuse(Conflict)
    ensures mode == Play && (id.None? || secret.None?) ==> r == Refuse(BadRequest)
    ensures mode == Play && id.Some? && secret.Some? && id.value !in secrets ==> r == Refuse(Forbidden)
    ensures r.Pass? <==>
      mode == Play && id.Some? && secret.Some? && id.value in secrets && secrets[id.value] == secret.value
    ensures r.Pass? ==> r.id == id.value
    ensures r.Refuse? ==> r.status in {Conflict, BadRequest, Forbidden}
  {
    if mode != Play then Refuse(Conflict)
    else if id.None? || secret.None? then Refuse(BadRequest)
    else if id.value !in secrets then Refuse(Forbidden)
    else if secrets[id.value] != secret.value then Refuse(Forbidden)
    else Pass(id.value)
  }

  /** `checkuid`: the checks against the user registry. */
  function CheckUid(mode: Mode, users: map<int, User>, user: Option<int>, secret: Option<string>): Checked {
    CheckSecret(mode, map u | u in users :: users[u].secret, user, secret)
  }

  /** `checkdid`: the checks against the domain registry. */
  function CheckDid(mode: Mode, domains: map<int, Domain>, domain: Option<int>, secret: Option<string>): Checked {
    CheckSecret(mode, map d | d in domains :: domains[d].secret, domain, secret)
  }

  // ---------------------------------------------------------------------
  // The custody-change rule of /transfer.
  // ---------------------------------------------------------------------

  /** The verdict of `/transfer` once the request is authenticated: the new
      custody record, or a refusal. */
  datatype Verdict = Move(loc: Loc) | Deny(status: Status)

  /** The domain may conjure this item: it is the item's home or one of its hosts. */
  predicate Owns(t: Template, did: int) {
    t.home == did || did in t.hosts
  }

  /** The guards of `/transfer` in their order.  A carried record fails the
      last guard because `'inventory'[0]` is the letter `i`, never a domain id. */
  function Decide(t: Template, prior: Option<Loc>, did: int, to: string): (r: Verdict)
    ensures prior == Some(Carried) && to == "inventory" ==> r == Deny(Conflict)
    ensures r.Move? <==>
      (prior.None? && Owns(t, did)) ||
      (prior.Some? && prior.value.DroppedAt? && prior.value.did == did && (to == "inventory" || t.home == did))
    ensures r.Move? ==> r.loc == if to == "inventory" then Carried else DroppedAt(did, to)
    ensures prior == Some(Carried) ==> r.Deny?
    ensures r.Deny? && !(prior == Some(Carried) && to == "inventory") ==> r.status == Forbidden
  {
    var target := if to == "inventory" then Carried else DroppedAt(did, to);
    if prior == Some(Carried) && to == "inventory" then Deny(Conflict)
    else if prior.None? && !Owns(t, did) then Deny(Forbidden)
    else if prior.Some? && to != "inventory" && t.home != did then Deny(Forbidden)
    else if prior.Some? && (prior.value.Carried? || prior.value.did != did) then Deny(Forbidden)
    else Move(target)
  }

  /** What a successful transfer can do: create a record only for an item the
      domain owns or hosts, pick up only what lies in the requesting domain,
      and re-place it there only when the domain is the item's home.  Every
      record it writes is `'inventory'` or lies in the requesting domain. */
  lemma TransferRespectsCustody(t: Template, prior: Option<Loc>, did: int, to: string)
    requires Decide(t, prior, did, to).Move?
    ensures prior.None? ==> Owns(t, did)
    ensures prior.Some? ==> prior.value == DroppedAt(did, prior.value.tag)
    ensures prior.Some? && to != "inventory" ==> t.home == did
    ensures var loc := Decide(t, prior, did, to).loc; loc.Carried? || loc.did == did
  {
  }

  // ---------------------------------------------------------------------
  // /query.
  // ---------------------------------------------------------------------

  /** Every loot id of every domain names a template. */
  predicate LootKnown(domains: map<int, Domain>, templates: map<int, Template>) {
    forall d, t :: d in domains && domains[d].loot.Some? && t in domains[d].loot.value ==> t in templates
  }

  /** The loot ids the user has no record of and whose template depth is `depth`, in loot order. */
  function Unclaimed(loot: seq<int>, inventory: map<int, Loc>, templates: map<int, Template>, depth: Option<int>): (r: seq<int>)
    requires forall t :: t in loot ==> t in templates
    ensures forall t :: t in r <==> t in loot && t !in inventory && templates[t].depth == depth
    ensures |r| <= |loot|
  {
    if |loot| == 0 then []
    else
      var rest := Unclaimed(loot[1..], inventory, templates, depth);
      var t := loot[0];
      if t !in inventory && templates[t].depth == depth then [t] + rest else rest
  }

  /** The answer of `/query`: the ids at a location, the unclaimed prizes
      of a depth, or an error status. */
  datatype Answer = AtLocation(ids: set<int>) | OfDepth(prizes: seq<int>) | QueryFailed(status: Status)

  /** `/query`.  `location` and `depth` are `None` when the field is absent
      and `Some(None)` when it is JSON null. */
  function Query(mode: Mode, domains: map<int, Domain>, templates: map<int, Template>, users: map<int, User>,
                 domain: Option<int>, secret: Option<string>, user: Option<int>,
                 location: Option<Option<string>>, depth: Option<Option<int>>): (r: Answer)
    requires LootKnown(domains, templates)
    ensures CheckDid(mode, domains, domain, secret).Refuse? ==> r == QueryFailed(CheckDid(mode, domains, domain, secret).status)
    ensures CheckDid(mode, domains, domain, secret).Pass? && (user.None? || user.value !in users) ==> r == QueryFailed(BadRequest)
    ensures CheckDid(mode, domains, domain, secret).Pass? && user.Some? && user.value in users && location.Some? == depth.Some? ==>
      r == QueryFailed(BadRequest)
    ensures location == Some(None) ==> r.QueryFailed?
    ensures r.AtLocation? ==>
      CheckDid(mode, domains, domain, secret).Pass? && user.Some? && user.value in users &&
      location.Some? && location.value.Some? && depth.None? &&
      var did := domain.value;
      var w := location.value.value;
      var inv := users[user.value].inventory;
      forall t :: t in r.ids <==> t in inv && inv[t] == (if w == "inventory" then Carried else DroppedAt(did, w))
    ensures r.OfDepth? ==>
      CheckDid(mode, domains, domain, secret).Pass? && user.Some? && user.value in users &&
      depth.Some? && location.None? && domains[domain.value].loot.Some? &&
      var inv := users[user.value].inventory;
      forall t :: t in r.prizes <==> t in domains[domain.value].loot.value && t !in inv && templates[t].depth == depth.value
    ensures r.QueryFailed? ==> r.status != Ok
  {
    var checked := CheckDid(mode, domains, domain, secret);
    if checked.Refuse? then QueryFailed(checked.status)
    else if user.None? || user.value !in users then QueryFailed(BadRequest)
    else if location.Some? == depth.Some? then QueryFailed(BadRequest)
    else
      var did := checked.id;
      var inv := users[user.value].inventory;
      if location.Some? then
        if location.value.None? then QueryFailed(BadRequest)
        else
          var w := location.value.value;
          var where := if w == "inventory" then Carried else DroppedAt(did, w);
          AtLocation(set t | t in inv && inv[t] == where)
      else if domains[did].loot.None? then QueryFailed(ServerError)
      else OfDepth(Unclaimed(domains[did].loot.value, inv, templates, depth.value))
  }

  // ---------------------------------------------------------------------
  // The arrival lists (arrive).
  // ---------------------------------------------------------------------

  /** The four lists sent to a domain on `/arrive`, keyed by item id. */
  datatype Arrival = Arrival(owned: map<int, Item>, carried: map<int, Item>, dropped: map<int, Item>, prize: seq<Item>)

  /** The brief of a template: name, description and verbs, plus the id. */
  function Brief(tid: int, t: Template): Item {
    Item(tid, t.name, t.description, t.verbs, None, None)
  }

  /** The prize brief of loot `t`: its brief with the template's depth. */
  function PrizeOf(t: int, templates: map<int, Template>): Item
    requires t in templates
  {
    Brief(t, templates[t]).(depth := templates[t].depth)
  }

  /** The prize briefs: loot the user has no record of, in loot order, each
      with the template's depth. */
  function PrizeBriefs(loot: seq<int>, inventory: map<int, Loc>, templates: map<int, Template>): (r: seq<Item>)
    requires forall t :: t in loot ==> t in templates
    ensures forall i :: 0 <= i < |r| ==> r[i].id in loot && r[i].id !in inventory
    ensures forall i :: 0 <= i < |r| ==> r[i] == PrizeOf(r[i].id, templates)
    ensures forall t :: t in loot && t !in inventory ==> PrizeOf(t, templates) in r
  {
    if |loot| == 0 then []
    else
      var rest := PrizeBriefs(loot[1..], inventory, templates);
      var t := loot[0];
      assert forall u :: u in loot ==> u == t || u in loot[1..];
      if t in inventory then rest
      else
        var r := [PrizeOf(t, templates)] + rest;
        assert forall i :: 1 <= i < |r| ==> r[i] == rest[i - 1];
        r
  }

  /** The classification `arrive` makes of a user's records for domain `dest`. */
  function Classify(templates: map<int, Template>, inventory: map<int, Loc>, dest: int, loot: seq<int>): (a: Arrival)
    requires inventory.Keys <= templates.Keys
    requires forall t :: t in loot ==> t in templates
    // each record lands in at most one list, and in one exactly when it is
    // carried or lies in the destination
    ensures a.owned.Keys !! a.carried.Keys && a.owned.Keys !! a.dropped.Keys && a.carried.Keys !! a.dropped.Keys
    ensures forall t :: t in inventory ==>
      ((t in a.owned || t in a.carried || t in a.dropped) <==> (inventory[t].Carried? || inventory[t].did == dest))
    ensures forall t :: t in a.owned ==> t in inventory && inventory[t] == Carried && templates[t].home == dest
    ensures forall t :: t in a.carried ==> t in inventory && inventory[t] == Carried && templates[t].home != dest
    ensures forall t :: t in a.dropped ==>
      t in inventory && inventory[t].DroppedAt? && inventory[t].did == dest &&
      a.dropped[t].location == Some(inventory[t].tag)
    // only prize briefs carry a depth
    ensures forall t :: t in a.owned ==> a.owned[t] == Brief(t, templates[t])
    ensures forall t :: t in a.carried ==> a.carried[t] == Brief(t, templates[t])
    ensures forall t :: t in a.dropped ==> a.dropped[t].depth.None? && a.dropped[t].id == t
    ensures forall t :: t in a.dropped ==> a.dropped[t] == Brief(t, templates[t]).(location := Some(inventory[t].tag))
    ensures forall i :: 0 <= i < |a.prize| ==> a.prize[i].id in loot && a.prize[i].id !in inventory
    ensures forall i :: 0 <= i < |a.prize| ==> a.prize[i] == PrizeOf(a.prize[i].id, templates)
    ensures forall t :: t in loot && t !in inventory ==> PrizeOf(t, templates) in a.prize
  {
    Arrival(
      map t | t in inventory && inventory[t] == Carried && templates[t].home == dest :: Brief(t, templates[t]),
      map t | t in inventory && inventory[t] == Carried && templates[t].home != dest :: Brief(t, templates[t]),
      map t | t in inventory && inventory[t].DroppedAt? && inventory[t].did == dest ::
        Brief(t, templates[t]).(location := Some(inventory[t].tag)),
      PrizeBriefs(loot, inventory, templates))
  }

  // ---------------------------------------------------------------------
  // The user-side commands: inventory and drop.
  // ---------------------------------------------------------------------

  /** The ids the user is carrying. */
  function Gear(inventory: map<int, Loc>): set<int> {
    set t | t in inventory && inventory[t] == Carried
  }

  datatype InventoryReply = NotCarrying | Carrying(ids: set<int>)

  /** `inventory`: the carried items, or the message that there are none. */
  function Inventory(inventory: map<int, Loc>): (r: InventoryReply)
    ensures r.NotCarrying? <==> forall t :: t in inventory ==> inventory[t] != Carried
    ensures r.Carrying? ==> r.ids != {} && forall t :: t in r.ids <==> t in inventory && inventory[t] == Carried
  {
    if forall t :: t in inventory ==> inventory[t] != Carried then NotCarrying
    else
      var g := Gear(inventory);
      assert g != {} by {
        var w :| w in inventory && inventory[w] == Carried;
        assert w in g;
      }
      Carrying(g)
  }

  /** How `drop` resolves its argument among the carried items. */
  datatype Choice = NoneNamed | Several(ids: set<int>) | Chosen(id: int)

  lemma PrintedIdParses(s: string)
    requires exists t :: IntToString(t) == s
    ensures AllDigits(s) || (|s| > 0 && s[0] == '-' && AllDigits(s[1..]))
    ensures IntToString(ParseInt(s)) == s
  {
    var t :| IntToString(t) == s;
    ParseIntToString(t);
  }

  /** The matching of `drop`: an id written out wins, then a unique name;
      no match or several same-named items choose nothing. */
  function DropChoice(templates: map<int, Template>, inventory: map<int, Loc>, todrop: string): (c: Choice)
    requires inventory.Keys <= templates.Keys
    ensures c.Chosen? ==> c.id in Gear(inventory)
    ensures (exists t :: t in Gear(inventory) && IntToString(t) == todrop) <==> c.Chosen? && IntToString(c.id) == todrop
    ensures c.Chosen? && IntToString(c.id) != todrop ==>
      templates[c.id].name == todrop &&
      forall t :: t in Gear(inventory) && templates[t].name == todrop ==> t == c.id
    ensures c.NoneNamed? <==> forall t :: t in Gear(inventory) ==> IntToString(t) != todrop && templates[t].name != todrop
    ensures c.Several? ==>
      |c.ids| > 1 && forall t :: t in c.ids <==> t in Gear(inventory) && templates[t].name == todrop
  {
    var gear := Gear(inventory);
    if exists t :: t in gear && IntToString(t) == todrop then
      PrintedIdParses(todrop);
      var id := ParseInt(todrop);
      assert id in gear by {
        var t :| t in gear && IntToString(t) == todrop;
        IntToStringInjective(t, id);
      }
      Chosen(id)
    else if forall t :: t in gear ==> templates[t].name != todrop then
      NoneNamed
    else if exists a, b :: a in gear && b in gear && a != b && templates[a].name == todrop && templates[b].name == todrop then
      var named := set t | t in gear && templates[t].name == todrop;
      assert |named| > 1 by {
        var a, b :| a in gear && b in gear && a != b && templates[a].name == todrop && templates[b].name == todrop;
        assert {a, b} <= named;
        assert |{a, b}| == 2;
        SubsetCardinality({a, b}, named);
      }
      Several(named)
    else
      var t :| t in gear && templates[t].name == todrop;
      assert IntToString(t) != todrop;
      Chosen(t)
  }

  lemma SubsetCardinality(a: set<int>, b: set<int>)
    requires a <= b
    ensures |a| <= |b|
  {
    assert b == a + (b - a);
  }

  /** What the domain answered to `/dropped`: nothing (the call raised), or a
      JSON value, which the hub stores as the tag whatever it is. */
  datatype DropAnswer = Unreachable | Answered(tag: string)

  datatype DropReply = AskWhat | NothingToDrop | Ambiguous(ids: set<int>) | WontLetYou | DroppedItem(id: int)

  /** The journey messages: 0 before the key is found, 1 when the key opens
      the hidden place (naming what was found), 2 once the expedition is over. */
  datatype JourneyReply = NotCardinal | Story(message: nat, found: set<int>)

  predicate Cardinal(rest: seq<string>) {
    |rest| == 1 && rest[0] in {"north", "south", "east", "west"}
  }

  /** The templates with a depth: what the expedition hides. */
  function Hidden(templates: map<int, Template>): (h: set<int>)
    ensures forall t :: t in h <==> t in templates && templates[t].depth.Some?
  {
    set t | t in templates && templates[t].depth.Some?
  }

  /** An item spec as registered: each field `None` when absent; `depth`
      tells an integer from a value of another type.  A JSON boolean passes
      the source's `isinstance(depth, int)`, so `true` is `IntDepth(1)` and
      `false` is `IntDepth(0)`, not `OtherDepth`. */
  datatype DepthField = NoDepth | IntDepth(value: int) | OtherDepth
  datatype ItemSpec = ItemSpec(name: Option<string>, description: Option<string>, verbs: Option<map<string, string>>, depth: DepthField)

  /** The depth stored for a spec: `max(0, depth)` when it is an int, else none. */
  function StoredDepth(d: DepthField): (r: Option<int>)
    ensures r.Some? <==> d.IntDepth?
    ensures r.Some? ==> r.value >= 0 && r.value >= d.value && (r.value == 0 || r.value == d.value)
  {
    match d
    case IntDepth(v) => Some(if v < 0 then 0 else v)
    case _ => None
  }

  /** The template stored for a spec registered by domain `did`, with the source's defaults. */
  function TemplateOf(spec: ItemSpec, did: int): (t: Template)
    ensures t.home == did && t.hosts == [] && t.depth == StoredDepth(spec.depth)
    ensures t.name == spec.name.GetOr("thing")
  {
    Template(spec.name.GetOr("thing"),
      spec.description.GetOr("error: owner did not describe this item"),
      spec.verbs.GetOr(map[]), did, [], StoredDepth(spec.depth))
  }

  /** The ids `len(templates) + t0 + i` of a registration of `n` items are all fresh. */
  predicate NoClash(templates: map<int, Template>, t0: int, n: nat) {
    forall k :: |templates| + t0 <= k < |templates| + t0 + n ==> k !in templates
  }

  predicate DepthsNonNegative(templates: map<int, Template>) {
    forall t :: t in templates && templates[t].depth.Some? ==> templates[t].depth.value >= 0
  }

  /** The registration loop: each spec is stored under `len(templates) + t0`
      as it stands at that moment, so a clash overwrites an older template. */
  method StoreTemplates(start: map<int, Template>, specs: seq<ItemSpec>, did: int, t0: int)
    returns (templates: map<int, Template>, ids: seq<int>)
    ensures |ids| == |specs| && start.Keys <= templates.Keys
    ensures forall k :: k in templates && k !in start ==> k in ids
    ensures forall i :: 0 <= i < |ids| ==> ids[i] in templates && templates[ids[i]].home == did
    ensures DepthsNonNegative(start) ==> DepthsNonNegative(templates)
    ensures forall k :: k in start && k !in ids ==> templates[k] == start[k]
    // with no clash, ids are consecutive from len(templates) + t0 and each
    // holds its own spec's template
    ensures NoClash(start, t0, |specs|) ==>
      forall i :: 0 <= i < |ids| ==> ids[i] == |start| + t0 + i && templates[ids[i]] == TemplateOf(specs[i], did)
  {
    templates := start;
    ids := [];
    ghost var clean := NoClash(start, t0, |specs|);
    var i := 0;
    while i < |specs|
      invariant 0 <= i <= |specs|
      invariant Stored(start, did, i, templates, ids)
      invariant clean ==> StoredFresh(start, specs, did, t0, i, templates, ids)
    {
      var t := TemplateOf(specs[i], did);
      StoreStep(start, did, i, templates, ids, |templates| + t0, t);
      if clean {
        StoreStepFresh(start, specs, did, t0, i, templates, ids);
      }
      templates, ids := templates[|templates| + t0 := t], ids + [|templates| + t0];
      i := i + 1;
    }
    StoredMeans(start, specs, did, t0, templates, ids);
  }

  /** The finished loop's bookkeeping, spelled out as `StoreTemplates` promises it. */
  lemma StoredMeans(start: map<int, Template>, specs: seq<ItemSpec>, did: int, t0: int,
                    templates: map<int, Template>, ids: seq<int>)
    requires Stored(start, did, |specs|, templates, ids)
    requires NoClash(start, t0, |specs|) ==> StoredFresh(start, specs, did, t0, |specs|, templates, ids)
    ensures |ids| == |specs| && start.Keys <= templates.Keys
    ensures forall k :: k in templates && k !in start ==> k in ids
    ensures forall i :: 0 <= i < |ids| ==> ids[i] in templates && templates[ids[i]].home == did
    ensures DepthsNonNegative(start) ==> DepthsNonNegative(templates)
    ensures forall k :: k in start && k !in ids ==> templates[k] == start[k]
    ensures NoClash(start, t0, |specs|) ==>
      forall i :: 0 <= i < |ids| ==> ids[i] == |start| + t0 + i && templates[ids[i]] == TemplateOf(specs[i], did)
  {
  }

  /** What the registration loop has done after `i` specs: one id per spec,
      each homed in `did`, and old templates kept unless overwritten. */
  ghost predicate Stored(start: map<int, Template>, did: int, i: nat, templates: map<int, Template>, ids: seq<int>) {
    && |ids| == i
    && start.Keys <= templates.Keys
    && (forall k :: k in templates && k !in start ==> k in ids)
    && (forall j :: 0 <= j < i ==> ids[j] in templates && templates[ids[j]].home == did)
    && (DepthsNonNegative(start) ==> DepthsNonNegative(templates))
    && (forall k :: k in start && k !in ids ==> templates[k] == start[k])
  }

  /** With no clash, the same `i` turns have handed out consecutive ids,
      each holding its own spec's template. */
  ghost predicate StoredFresh(start: map<int, Template>, specs: seq<ItemSpec>, did: int, t0: int, i: nat,
                              templates: map<int, Template>, ids: seq<int>)
    requires i <= |specs| && |ids| == i
  {
    && |templates| == |start| + i
    && (forall j :: 0 <= j < i ==> ids[j] == |start| + t0 + j && ids[j] in templates && templates[ids[j]] == TemplateOf(specs[j], did))
  }

  /** One turn of the registration loop keeps `Stored`. */
  lemma StoreStep(start: map<int, Template>, did: int, i: nat, templates: map<int, Template>, ids: seq<int>,
                  tid: int, t: Template)
    requires Stored(start, did, i, templates, ids) && t.home == did
    requires t.depth.Some? ==> t.depth.value >= 0
    ensures Stored(start, did, i + 1, templates[tid := t], ids + [tid])
  {
    var t2 := templates[tid := t];
    var ids2 := ids + [tid];
    forall k | k in start && k !in ids2
      ensures t2[k] == start[k]
    {
      assert k !in ids && k != tid;
    }
    forall k | k in t2 && k !in start
      ensures k in ids2
    {
      if k != tid {
        assert k in ids;
      }
    }
  }

  /** One turn of the registration loop keeps `StoredFresh` when no id clashes. */
  lemma StoreStepFresh(start: map<int, Template>, specs: seq<ItemSpec>, did: int, t0: int, i: nat,
                       templates: map<int, Template>, ids: seq<int>)
    requires i < |specs| && Stored(start, did, i, templates, ids) && NoClash(start, t0, |specs|)
    requires StoredFresh(start, specs, did, t0, i, templates, ids)
    ensures var tid := |templates| + t0;
      StoredFresh(start, specs, did, t0, i + 1, templates[tid := TemplateOf(specs[i], did)], ids + [tid])
  {
    var tid := |templates| + t0;
    var t2 := templates[tid := TemplateOf(specs[i], did)];
    var ids2 := ids + [tid];
    assert tid == |start| + t0 + i;
    assert tid !in start;
    assert tid !in ids;
    forall j | 0 <= j <= i
      ensures ids2[j] == |start| + t0 + j && ids2[j] in t2 && t2[ids2[j]] == TemplateOf(specs[j], did)
    {
      if j < i {
        assert ids2[j] == ids[j] != tid;
      }
    }
  }

  /** The least id at or above `from` that names no template: the loop
      `while lootid in templates: lootid += 1`. */
  method FirstFreeId(templates: map<int, Template>, from: int) returns (id: int)
    ensures from <= id && id !in templates
    ensures forall k :: from <= k < id ==> k in templates
  {
    id := from;
    while id in templates
      invariant from <= id
      invariant forall k :: from <= k < id ==> k in templates
      decreases set k | k in templates && k >= id
    {
      ghost var above := set k | k in templates && k >= id;
      id := id + 1;
      assert (set k | k in templates && k >= id) < above by {
        assert id - 1 in above;
      }
    }
  }

  // ---------------------------------------------------------------------
  // The hub's state and its state-changing handlers.
  // ---------------------------------------------------------------------

  class HubServer {
    var mode: Mode
    var domains: map<int, Domain>
    /** The registration order of `domains` (a Python dict keeps it); its
        first element is `next(iter(domains))`. */
    var domainOrder: seq<int>
    var templates: map<int, Template>
    var users: map<int, User>
    var expedition: Option<Expedition>

    ghost predicate Valid()
      reads this
    {
      && Distinct(domainOrder)
      && |domainOrder| == |domains|
      && (forall i :: 0 <= i < |domainOrder| ==> domainOrder[i] in domains)
      && (forall d :: d in domains ==> d in domainOrder)
      && LootKnown(domains, templates)
      && DepthsNonNegative(templates)
      && (forall u :: u in users <==> 0 <= u < |users|)
      && (forall u :: u in users ==> users[u].at in domains && users[u].inventory.Keys <= templates.Keys)
      && (mode == Play ==> |domainOrder| > 0 && expedition.Some? && expedition.value.hiding <= templates.Keys)
    }

    constructor ()
      ensures Valid()
      ensures mode == Setup && domains == map[] && templates == map[] && users == map[] && expedition == None
    {
      mode := Setup;
      domains := map[];
      domainOrder := [];
      templates := map[];
      users := map[];
      expedition := None;
    }

    /** `/mode`. */
    method SetMode(newmode: string, scenario: nat, lootStart: int) returns (status: Status)
      requires Valid()
      requires scenario < 2
      modifies this
      ensures Valid()
      ensures newmode == ModeName(old(mode)) ==> status == Ok && unchanged(this)
      ensures newmode != ModeName(old(mode)) && old(mode) == Locked ==> status == Conflict && unchanged(this)
      ensures newmode != ModeName(old(mode)) && old(mode) != Locked && newmode == "setup" ==>
        (status == Ok && mode == Setup && users == map[] && domains == map[] && templates == map[] &&
         domainOrder == [] && expedition == old(expedition))
      ensures newmode != ModeName(old(mode)) && old(mode) != Locked && newmode == "play" && old(domains) == map[] ==>
        status == Conflict && unchanged(this)
      ensures newmode != ModeName(old(mode)) && old(mode) != Locked && newmode == "play" && old(domains) != map[] ==>
        (status == Ok && mode == Play && users == old(users) && domainOrder == old(domainOrder) &&
         exists key, toy ::
           key !in old(templates) && toy !in old(templates) && lootStart <= key < toy &&
           templates == old(templates)[key := ScenarioLoot(scenario).(hosts := [old(domainOrder)[0]])]
                                      [toy := Toy.(hosts := [old(domainOrder)[0]])] &&
           domains == old(domains)[old(domainOrder)[0] := old(domains)[old(domainOrder)[0]].(loot := Some([key, toy]))] &&
           expedition == Some(Expedition(scenario, 0, Hidden(old(templates)), key)))
      ensures newmode !in {ModeName(old(mode)), "setup", "play"} && old(mode) != Locked ==>
        status == BadRequest && unchanged(this)
    {
      if newmode == ModeName(mode) {
        status := Ok;
      } else if mode == Locked {
        status := Conflict;
      } else if newmode == "setup" {
        mode := Setup;
        users := map[];
        domains := map[];
        domainOrder := [];
        templates := map[];
        status := Ok;
      } else if newmode == "play" {
        if |domains| == 0 {
          status := Conflict;
        } else {
          Launch(scenario, lootStart);
          status := Ok;
        }
      } else {
        status := BadRequest;
      }
    }

    /** The accepted switch to play: lock the hub, assign the loot, and
        open play. */
    method Launch(scenario: nat, lootStart: int)
      requires Valid() && mode != Locked && |domainOrder| > 0
      requires scenario < 2
      modifies this
      ensures Valid()
      ensures mode == Play && users == old(users) && domainOrder == old(domainOrder)
      ensures exists key, toy ::
        key !in old(templates) && toy !in old(templates) && lootStart <= key < toy &&
        templates == old(templates)[key := ScenarioLoot(scenario).(hosts := [old(domainOrder)[0]])]
                                   [toy := Toy.(hosts := [old(domainOrder)[0]])] &&
        domains == old(domains)[old(domainOrder)[0] := old(domains)[old(domainOrder)[0]].(loot := Some([key, toy]))] &&
        expedition == Some(Expedition(scenario, 0, Hidden(old(templates)), key))
    {
      mode := Locked;
      var key, toy := AssignLoot(scenario, lootStart);
      assert expedition.value.hiding <= templates.Keys;
      mode := Play;
    }

    /** `assign_loot`: draw a scenario, record what is hidden, and give the
        first registered domain two fresh loot ids, the scenario's key and
        the toy, both hosted there. */
    method AssignLoot(scenario: nat, lootStart: int) returns (key: int, toy: int)
      requires Valid() && mode == Locked && |domainOrder| > 0
      requires scenario < 2
      modifies this
      ensures Valid()
      ensures mode == old(mode) && users == old(users) && domainOrder == old(domainOrder)
      ensures key !in old(templates) && toy !in old(templates) && lootStart <= key < toy
      ensures templates ==
        old(templates)[key := ScenarioLoot(scenario).(hosts := [old(domainOrder)[0]])][toy := Toy.(hosts := [old(domainOrder)[0]])]
      ensures domains == old(domains)[old(domainOrder)[0] := old(domains)[old(domainOrder)[0]].(loot := Some([key, toy]))]
      ensures expedition == Some(Expedition(scenario, 0, Hidden(old(templates)), key))
    {
      var hiding := Hidden(templates);
      key := FirstFreeId(templates, lootStart);
      var host := domainOrder[0];
      var withKey := templates[key := ScenarioLoot(scenario).(hosts := [host])];
      toy := FirstFreeId(withKey, key);
      templates := withKey[toy := Toy.(hosts := [host])];
      domains := domains[host := domains[host].(loot := Some([key, toy]))];
      expedition := Some(Expedition(scenario, 0, hiding, key));
    }

    /** `/register`.  `did`, `secret` and `t0` are the source's random draws. */
    method RegisterDomain(url: Option<string>, name: Option<string>, description: Option<string>,
                          items: Option<seq<ItemSpec>>, did: int, secret: string, t0: int)
      returns (status: Status, ids: seq<int>)
      requires Valid()
      requires 0 <= did < 1000 && 0 <= t0 < 1000
      modifies this
      ensures Valid()
      ensures old(mode) != Setup ==> status == Conflict
      ensures old(mode) == Setup && (name.None? || description.None? || url.None? || items.None?) ==> status == BadRequest
      ensures (old(mode) == Setup && name.Some? && description.Some? && url.Some? && items.Some? &&
               ((exists d :: d in old(domains) && old(domains)[d].url == url.value) || |old(domains)| > 1)) ==>
        status == Conflict
      ensures status == Ok <==>
        old(mode) == Setup && name.Some? && description.Some? && url.Some? && items.Some? &&
        (forall d :: d in old(domains) ==> old(domains)[d].url != url.value) && |old(domains)| <= 1
      ensures status != Ok ==> unchanged(this) && ids == []
      ensures status == Ok ==>
        mode == old(mode) && users == old(users) && expedition == old(expedition) &&
        domains == old(domains)[did := Domain(url.value, name.value, description.value, secret, None)] &&
        domainOrder == (if did in old(domains) then old(domainOrder) else old(domainOrder) + [did]) &&
        |ids| == |items.value| && old(templates).Keys <= templates.Keys &&
        (forall i :: 0 <= i < |ids| ==> ids[i] in templates && templates[ids[i]].home == did) &&
        (forall k :: k in old(templates) && k !in ids ==> templates[k] == old(templates)[k])
      // with no id collision, ids are consecutive from len(templates) + t0 and
      // each holds its spec's template
      ensures status == Ok && NoClash(old(templates), t0, |items.value|) ==>
        forall i :: 0 <= i < |ids| ==> ids[i] == |old(templates)| + t0 + i && templates[ids[i]] == TemplateOf(items.value[i], did)
    {
      ids := [];
      if mode != Setup {
        status := Conflict;
        return;
      }
      if name.None? || description.None? || url.None? || items.None? {
        status := BadRequest;
        return;
      }
      if exists d :: d in domains && domains[d].url == url.value {
        status := Conflict;
        return;
      }
      if |domains| > 1 {
        status := Conflict;
        return;
      }
      ids := Admit(url.value, name.value, description.value, items.value, did, secret, t0);
      status := Ok;
    }

    /** The accepting half of `/register`: store the domain and register its items. */
    method Admit(url: string, name: string, description: string, items: seq<ItemSpec>, did: int, secret: string, t0: int)
      returns (ids: seq<int>)
      requires Valid() && mode == Setup
      modifies this
      ensures Valid()
      ensures mode == old(mode) && users == old(users) && expedition == old(expedition)
      ensures domains == old(domains)[did := Domain(url, name, description, secret, None)]
      ensures domainOrder == (if did in old(domains) then old(domainOrder) else old(domainOrder) + [did])
      ensures |ids| == |items| && old(templates).Keys <= templates.Keys
      ensures forall i :: 0 <= i < |ids| ==> ids[i] in templates && templates[ids[i]].home == did
      ensures forall k :: k in old(templates) && k !in ids ==> templates[k] == old(templates)[k]
      ensures NoClash(old(templates), t0, |items|) ==>
        forall i :: 0 <= i < |ids| ==> ids[i] == |old(templates)| + t0 + i && templates[ids[i]] == TemplateOf(items[i], did)
    {
      var order := if did in domains then domainOrder else domainOrder + [did];
      var known := domains[did := Domain(url, name, description, secret, None)];
      var stored;
      stored, ids := StoreTemplates(templates, items, did, t0);
      assert LootKnown(known, stored) by {
        forall d, t | d in known && known[d].loot.Some? && t in known[d].loot.value
          ensures t in stored
        {
          assert d in domains && domains[d].loot == known[d].loot;
        }
      }
      domains, domainOrder, templates := known, order, stored;
    }

    /** `/login`: a new user placed in `dest` (the source's random choice
        among the registered domains), followed by the arrival handshake,
        which raises when `dest` has no loot list. */
    method Login(secret: string, dest: int) returns (status: Status, uid: int)
      requires Valid()
      requires mode == Play ==> dest in domains
      modifies this
      ensures Valid()
      ensures old(mode) != Play ==> status == Conflict && unchanged(this)
      ensures old(mode) == Play ==>
        uid == |old(users)| && uid !in old(users) &&
        users == old(users)[uid := User(secret, dest, [dest], map[])] &&
        mode == old(mode) && domains == old(domains) && templates == old(templates) &&
        domainOrder == old(domainOrder) && expedition == old(expedition) &&
        (status == Ok <==> domains[dest].loot.Some?) && (status != Ok ==> status == ServerError)
    {
      uid := 0;
      if mode != Play {
        status := Conflict;
        return;
      }
      uid := |users|;
      assert uid !in users;
      users := users[uid := User(secret, dest, [dest], map[])];
      status := if domains[dest].loot.Some? then Ok else ServerError;
    }

    /** `/transfer`: the only way a domain changes custody. */
    method Transfer(domain: Option<int>, secret: Option<string>, user: Option<int>, item: Option<int>, to: Option<string>)
      returns (status: Status)
      requires Valid()
      modifies this
      ensures Valid()
      ensures status == Ok <==>
        CheckDid(old(mode), old(domains), domain, secret).Pass? &&
        user.Some? && user.value in old(users) && item.Some? && item.value in old(templates) && to.Some? &&
        Decide(old(templates)[item.value], Get(old(users)[user.value].inventory, item.value), domain.value, to.value).Move?
      ensures CheckDid(old(mode), old(domains), domain, secret).Refuse? ==>
        status == CheckDid(old(mode), old(domains), domain, secret).status
      ensures CheckDid(old(mode), old(domains), domain, secret).Pass? && (user.None? || user.value !in old(users)) ==>
        status == BadRequest
      ensures (CheckDid(old(mode), old(domains), domain, secret).Pass? && user.Some? && user.value in old(users) &&
               (item.None? || item.value !in old(templates) || to.None?)) ==> status == BadRequest
      ensures (CheckDid(old(mode), old(domains), domain, secret).Pass? && user.Some? && user.value in old(users) &&
               item.Some? && item.value in old(templates) && to.Some?) ==>
        var verdict := Decide(old(templates)[item.value], Get(old(users)[user.value].inventory, item.value), domain.value, to.value);
        verdict.Deny? ==> status == verdict.status
      ensures status != Ok ==> users == old(users)
      ensures status == Ok ==>
        var inv := old(users)[user.value].inventory;
        var verdict := Decide(old(templates)[item.value], Get(inv, item.value), domain.value, to.value);
        users == old(users)[user.value := old(users)[user.value].(inventory := inv[item.value := verdict.loc])]
      ensures mode == old(mode) && domains == old(domains) && templates == old(templates)
      ensures domainOrder == old(domainOrder) && expedition == old(expedition)
    {
      var checked := CheckDid(mode, domains, domain, secret);
      if checked.Refuse? {
        status := checked.status;
        return;
      }
      if user.None? || user.value !in users {
        status := BadRequest;
        return;
      }
      if item.None? || item.value !in templates {
        status := BadRequest;
        return;
      }
      if to.None? {
        status := BadRequest;
        return;
      }
      var me := users[user.value];
      var verdict := Decide(templates[item.value], Get(me.inventory, item.value), checked.id, to.value);
      if verdict.Deny? {
        status := verdict.status;
        return;
      }
      users := users[user.value := me.(inventory := me.inventory[item.value := verdict.loc])];
      status := Ok;
    }

    /** `drop`: called with a checked user id during play. */
    method Drop(uid: int, rest: seq<string>, answer: DropAnswer) returns (reply: DropReply)
      requires Valid() && mode == Play && uid in users
      modifies this
      ensures Valid()
      ensures mode == old(mode) && domains == old(domains) && templates == old(templates)
      ensures domainOrder == old(domainOrder) && expedition == old(expedition)
      ensures |rest| == 0 ==> reply == AskWhat && users == old(users)
      ensures |rest| > 0 ==>
        var inv := old(users)[uid].inventory;
        match DropChoice(old(templates), inv, Join(rest))
        case NoneNamed => reply == NothingToDrop && users == old(users)
        case Several(ids) => reply == Ambiguous(ids) && users == old(users)
        case Chosen(t) =>
          (answer.Unreachable? ==> reply == WontLetYou && users == old(users)) &&
          (answer.Answered? ==>
            reply == DroppedItem(t) &&
            users == old(users)[uid := old(users)[uid].(inventory := inv[t := DroppedAt(old(users)[uid].at, answer.tag)])])
      ensures reply.DroppedItem? ==> old(users)[uid].inventory[reply.id] == Carried
    {
      if |rest| == 0 {
        reply := AskWhat;
        return;
      }
      var me := users[uid];
      var choice := DropChoice(templates, me.inventory, Join(rest));
      match choice
      case NoneNamed => reply := NothingToDrop;
      case Several(ids) => reply := Ambiguous(ids);
      case Chosen(t) =>
        if answer.Unreachable? {
          reply := WontLetYou;
        } else {
          users := users[uid := me.(inventory := me.inventory[t := DroppedAt(me.at, answer.tag)])];
          reply := DroppedItem(t);
        }
    }

    /** `journey`: called with a checked user id during play.  The trailing
        arrival handshake raises when the user's domain has no loot list,
        after the records have changed. */
    method Journey(uid: int, rest: seq<string>) returns (reply: JourneyReply, status: Status)
      requires Valid() && mode == Play && uid in users
      modifies this
      ensures Valid()
      ensures mode == old(mode) && domains == old(domains) && templates == old(templates) && domainOrder == old(domainOrder)
      ensures !Cardinal(rest) ==> reply == NotCardinal && status == Forbidden && unchanged(this)
      ensures Cardinal(rest) ==>
        var x := old(expedition).value;
        var inv := old(users)[uid].inventory;
        (status == Ok <==> domains[old(users)[uid].at].loot.Some?) && (status != Ok ==> status == ServerError) &&
        if x.state == 0 && Get(inv, x.key) == Some(Carried) then
          reply == Story(1, x.hiding) && expedition == Some(x.(state := 1)) &&
          users == old(users)[uid := old(users)[uid].(inventory := inv + map t | t in x.hiding :: Carried)]
        else
          reply == Story(if x.state == 0 then 0 else 2, {}) && expedition == old(expedition) && users == old(users)
    {
      if !Cardinal(rest) {
        reply := NotCardinal;
        status := Forbidden;
        return;
      }
      var me := users[uid];
      var x := expedition.value;
      reply := Story(2, {});
      if x.state == 0 {
        if Get(me.inventory, x.key) == Some(Carried) {
          expedition := Some(x.(state := 1));
          users := users[uid := me.(inventory := me.inventory + map t | t in x.hiding :: Carried)];
          reply := Story(1, x.hiding);
        } else {
          reply := Story(0, {});
        }
      }
      status := if domains[users[uid].at].loot.Some? then Ok else ServerError;
    }
  }

  /** `dict.get`. */
  function Get<K, V>(m: map<K, V>, k: K): (r: Option<V>)
    ensures r.Some? <==> k in m
    ensures r.Some? ==> r.value == m[k]
  {
    if k in m then Some(m[k]) else None
  }
}
