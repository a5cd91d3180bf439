/** src/loan-products/loan-products.service.ts: versions of a product's configuration. */
module ConfigVersions {
  import opened Wrappers
  import opened Tables

  datatype Config = Config(product: Id, version: int, active: bool, previous: Option<Id>)

  /** A version number handed out. */
  datatype Issue = Issue(product: Id, version: int)

  /** The table, with the ids ever made, which are never made again, and the version numbers handed out, in order. */
  datatype Store = Store(rows: map<Id, Config>, created: set<Id>, issued: seq<Issue>)

  const EMPTY_STORE := Store(map[], {}, [])

  datatype Latest = Latest(id: Id, row: Config)

  datatype Call =
    | Create(product: Id, id: Id)
    | CreateWrite(product: Id, id: Id, latest: Option<Latest>)
    | Delete(product: Id, id: Id)
    | DeleteWrite(id: Id)

  datatype Outcome =
    | Read(next: Call)
    | Wrote(store: Store)
    | Threw

  /** Whether `found` is what "the highest version of the product" returns. */
  predicate IsLatest(rows: map<Id, Config>, product: Id, found: Option<Id>) {
    match found
    case None => forall j :: j in rows ==> rows[j].product != product
    case Some(i) =>
      && i in rows && rows[i].product == product
      && forall j :: j in rows && rows[j].product == product ==> rows[j].version <= rows[i].version
  }

  function CreateRead(s: Store, product: Id, id: Id, found: Option<Id>): Outcome {
    if !IsLatest(s.rows, product, found) then Threw
    else Read(CreateWrite(product, id, if found.None? then None else Some(Latest(found.value, s.rows[found.value]))))
  }

  function NextVersion(latest: Option<Latest>): int {
    if latest.None? then 1 else latest.value.row.version + 1
  }

  function PreviousOf(latest: Option<Latest>): Option<Id> {
    if latest.None? then None else Some(latest.value.id)
  }

  /** The transaction: deactivates the latest version it read and inserts the next one, unless a constraint refuses. */
  function CreateCommit(s: Store, product: Id, id: Id, latest: Option<Latest>): Outcome {
    if latest.Some? && latest.value.id !in s.rows then Threw
    else if id in s.created then Threw
    else if exists j :: j in s.rows && s.rows[j].product == product && s.rows[j].version == NextVersion(latest)
    then Threw
    else if latest.Some? && exists j :: j in s.rows && s.rows[j].previous == Some(latest.value.id) then Threw
    else
      var rows :=
        if latest.Some? && latest.value.row.active
        then s.rows[latest.value.id := s.rows[latest.value.id].(active := false)]
        else s.rows;
      Wrote(Store(rows[id := Config(product, NextVersion(latest), true, PreviousOf(latest))],
                  s.created + {id}, s.issued + [Issue(product, NextVersion(latest))]))
  }

  function DeleteRead(s: Store, product: Id, id: Id): Outcome {
    if id !in s.rows || s.rows[id].product != product || s.rows[id].active then Threw
    else Read(DeleteWrite(id))
  }

  /** Applications that were priced with the version keep it; a successor loses its link. */
  function DeleteCommit(s: Store, id: Id, referenced: bool): Outcome {
    if id !in s.rows || referenced then Threw
    else Wrote(s.(rows := Unlinked(s.rows, id)))
  }

  function Unlinked(rows: map<Id, Config>, id: Id): map<Id, Config> {
    map j | j in rows && j != id :: if rows[j].previous == Some(id) then rows[j].(previous := None) else rows[j]
  }

  function Advance(s: Store, c: Call, found: Option<Id>, referenced: bool): Outcome {
    match c
    case Create(product, id) => CreateRead(s, product, id, found)
    case CreateWrite(product, id, latest) => CreateCommit(s, product, id, latest)
    case Delete(product, id) => DeleteRead(s, product, id)
    case DeleteWrite(id) => DeleteCommit(s, id, referenced)
  }

  // Interleaved runs

  datatype World = World(store: Store, calls: map<nat, Call>)

  datatype Action =
    | Begin(t: nat, call: Call)
    | Resume(t: nat, found: Option<Id>, referenced: bool)

  function Step(w: World, a: Action): World {
    match a
    case Begin(t, call) =>
      if t in w.calls || !(call.Create? || call.Delete?) then w else w.(calls := w.calls[t := call])
    case Resume(t, found, referenced) =>
      if t !in w.calls then w
      else
        match Advance(w.store, w.calls[t], found, referenced)
        case Read(next) => w.(calls := w.calls[t := next])
        case Wrote(store) => World(store, w.calls - {t})
        case Threw => w.(calls := w.calls - {t})
  }

  function Run(w: World, actions: seq<Action>): World {
    if actions == [] then w else Step(Run(w, actions[..|actions| - 1]), actions[|actions| - 1])
  }

  const EMPTY_WORLD := World(EMPTY_STORE, map[])

  // Serial runs

  function Alone(s: Store, c: Call, found: Option<Id>, referenced: bool): Store
    requires c.Create? || c.Delete?
  {
    match Advance(s, c, found, referenced)
    case Read(next) => (var o := Advance(s, next, found, referenced); if o.Wrote? then o.store else s)
    case _ => s
  }

  datatype Request = Request(call: Call, found: Option<Id>, referenced: bool)

  function Serial(s: Store, requests: seq<Request>): Store {
    if requests == [] then s
    else
      var before, last := Serial(s, requests[..|requests| - 1]), requests[|requests| - 1];
      if last.call.Create? || last.call.Delete? then Alone(before, last.call, last.found, last.referenced) else before
  }

  // The service

  class LoanProductsService {
    var rows: map<Id, Config>
    var created: set<Id>
    var issued: seq<Issue>

    function View(): Store
      reads this
    {
      Store(rows, created, issued)
    }

    /** `findFirst`, highest version first. */
    method FindLatest(product: Id) returns (found: Option<Id>)
      ensures IsLatest(rows, product, found)
    {
      var matching := FindMany(set j | j in rows && rows[j].product == product);
      found := None;
      for i := 0 to |matching|
        invariant forall j :: j in matching ==> j in rows && rows[j].product == product
        invariant found.None? ==> i == 0
        invariant found.Some? ==> found.value in matching[..i]
        invariant found.Some? ==> forall j :: j in matching[..i] ==> rows[j].version <= rows[found.value].version
      {
        assert matching[i] in matching;
        if found.None? || rows[matching[i]].version > rows[found.value].version { found := Some(matching[i]); }
      }
      assert matching[..|matching|] == matching;
      assert forall j :: j in rows && rows[j].product == product ==> j in matching;
    }

    method CreateConfigVersion(product: Id, id: Id) returns (ok: bool, found: Option<Id>)
      modifies this
      ensures View() == Alone(old(View()), Create(product, id), found, false)
      ensures IsLatest(old(rows), product, found)
      ensures ok <==> |issued| == |old(issued)| + 1
    {
      found := FindLatest(product);
      var latest := if found.None? then None else Some(Latest(found.value, rows[found.value]));
      var nextVersion := NextVersion(latest);
      var before := rows;
      var previousVersionId := None;
      if latest.Some? {
        if latest.value.row.active { rows := rows[latest.value.id := rows[latest.value.id].(active := false)]; }
        previousVersionId := Some(latest.value.id);
      }
      if id in created
         || (exists j :: j in before && before[j].product == product && before[j].version == nextVersion)
         || (latest.Some? && exists j :: j in before && before[j].previous == previousVersionId) {
        rows := before;
        return false, found;
      }
      rows := rows[id := Config(product, nextVersion, true, previousVersionId)];
      created, issued := created + {id}, issued + [Issue(product, nextVersion)];
      return true, found;
    }

    method DeleteConfigVersion(product: Id, id: Id, referenced: bool) returns (ok: bool)
      modifies this
      ensures View() == Alone(old(View()), Delete(product, id), None, referenced)
      ensures ok <==> id in old(rows) && old(rows)[id].product == product && !old(rows)[id].active && !referenced
    {
      if id !in rows || rows[id].product != product { return false; }
      if rows[id].active || referenced { return false; }
      rows :=
        map j | j in rows && j != id :: if rows[j].previous == Some(id) then rows[j].(previous := None) else rows[j];
      return true;
    }

    constructor ()
      ensures View() == EMPTY_STORE
    {
      rows, created, issued := map[], {}, [];
    }
  }
}
