/** One active configuration, the highest; version numbers without gaps and without reuse. */
module ConfigVersionLaws {
  import opened Wrappers
  import opened Tables
  import opened ConfigVersions

  /** The newest version number handed out for a product, or 0. */
  function LastIssued(issued: seq<Issue>, product: Id): int {
    if issued == [] then 0
    else
      var last := issued[|issued| - 1];
      if last.product == product then last.version else LastIssued(issued[..|issued| - 1], product)
  }

  lemma LastAfter(issued: seq<Issue>, e: Issue, product: Id)
    ensures LastIssued(issued + [e], product) == if e.product == product then e.version else LastIssued(issued, product)
  {
    assert (issued + [e])[..|issued|] == issued;
  }

  // What creates and deletes keep, interleaved or not

  ghost predicate UniqueVersions(rows: map<Id, Config>) {
    forall i, j :: i in rows && j in rows && rows[i].product == rows[j].product
                   && rows[i].version == rows[j].version ==>
      i == j
  }

  /** A row is active exactly when its version is the newest ever handed out for its product. */
  ghost predicate ActiveIsNewest(rows: map<Id, Config>, issued: seq<Issue>) {
    forall i :: i in rows ==>
      && 1 <= rows[i].version <= LastIssued(issued, rows[i].product)
      && (rows[i].active <==> rows[i].version == LastIssued(issued, rows[i].product))
  }

  ghost predicate HasVersion(rows: map<Id, Config>, product: Id, version: int) {
    exists i :: i in rows && rows[i].product == product && rows[i].version == version
  }

  ghost predicate NewestExists(rows: map<Id, Config>, issued: seq<Issue>) {
    forall p :: LastIssued(issued, p) != 0 ==> HasVersion(rows, p, LastIssued(issued, p))
  }

  ghost predicate IssuedClimb(issued: seq<Issue>) {
    forall k, l :: 0 <= k < l < |issued| && issued[k].product == issued[l].product ==>
      issued[k].version < issued[l].version
  }

  ghost predicate IssuedPositive(issued: seq<Issue>) {
    forall k :: 0 <= k < |issued| ==> issued[k].version >= 1
  }

  ghost predicate RowsMade(rows: map<Id, Config>, created: set<Id>) {
    forall i :: i in rows ==> i in created
  }

  ghost predicate Lawful(s: Store) {
    && UniqueVersions(s.rows) && ActiveIsNewest(s.rows, s.issued) && NewestExists(s.rows, s.issued)
    && IssuedClimb(s.issued) && IssuedPositive(s.issued) && RowsMade(s.rows, s.created)
  }

  lemma {:induction false} IssuedAtMostLast(issued: seq<Issue>, k: nat)
    requires IssuedClimb(issued) && k < |issued|
    ensures issued[k].version <= LastIssued(issued, issued[k].product)
    decreases |issued|
  {
    var init := issued[..|issued| - 1];
    if k < |init| {
      assert forall l :: 0 <= l < |init| ==> init[l] == issued[l];
      IssuedAtMostLast(init, k);
    }
  }

  lemma {:induction false} LastPositive(issued: seq<Issue>, product: Id)
    requires IssuedPositive(issued)
    ensures LastIssued(issued, product) >= 0
    decreases |issued|
  {
    if issued != [] {
      LastPositive(issued[..|issued| - 1], product);
    }
  }

  /** The version the transaction read is still the newest one of the product, and still active. */
  ghost predicate ReadNewest(s: Store, product: Id, latest: Option<Latest>) {
    && NextVersion(latest) == LastIssued(s.issued, product) + 1
    && (latest.Some? ==>
          && latest.value.id in s.rows && latest.value.row.active && s.rows[latest.value.id].active
          && s.rows[latest.value.id].product == product && s.rows[latest.value.id].version == latest.value.row.version)
  }

  /** The rows after a create: the old newest deactivated, the new one in. */
  lemma CreateRows(s: Store, product: Id, id: Id, latest: Option<Latest>)
    requires Lawful(s) && ReadNewest(s, product, latest) && CreateCommit(s, product, id, latest).Wrote?
    ensures var s' := CreateCommit(s, product, id, latest).store;
            ActiveIsNewest(s'.rows, s'.issued) && UniqueVersions(s'.rows)
  {
    var s' := CreateCommit(s, product, id, latest).store;
    forall i | i in s'.rows
      ensures 1 <= s'.rows[i].version <= LastIssued(s'.issued, s'.rows[i].product)
      ensures s'.rows[i].active <==> s'.rows[i].version == LastIssued(s'.issued, s'.rows[i].product)
    {
      LastAfter(s.issued, Issue(product, NextVersion(latest)), s'.rows[i].product);
      LastPositive(s.issued, product);
      if i != id {
        assert s'.rows[i].version == s.rows[i].version && s'.rows[i].product == s.rows[i].product;
        if s.rows[i].active && s.rows[i].product == product {
          assert latest.Some? && i == latest.value.id;
        }
      }
    }
  }

  lemma CreateIssues(s: Store, product: Id, id: Id, latest: Option<Latest>)
    requires Lawful(s) && ReadNewest(s, product, latest) && CreateCommit(s, product, id, latest).Wrote?
    ensures var s' := CreateCommit(s, product, id, latest).store;
            && NewestExists(s'.rows, s'.issued) && IssuedClimb(s'.issued) && IssuedPositive(s'.issued)
            && RowsMade(s'.rows, s'.created)
  {
    hide UniqueVersions, ActiveIsNewest, NewestExists;
    CreateHasNewest(s, product, id, latest);
    LastPositive(s.issued, product);
    forall k | 0 <= k < |s.issued| && s.issued[k].product == product
      ensures s.issued[k].version < NextVersion(latest)
    {
      IssuedAtMostLast(s.issued, k);
    }
  }

  lemma CreateHasNewest(s: Store, product: Id, id: Id, latest: Option<Latest>)
    requires Lawful(s) && ReadNewest(s, product, latest) && CreateCommit(s, product, id, latest).Wrote?
    ensures var s' := CreateCommit(s, product, id, latest).store;
            NewestExists(s'.rows, s'.issued)
  {
    hide UniqueVersions, ActiveIsNewest, IssuedClimb, IssuedPositive;
    var s' := CreateCommit(s, product, id, latest).store;
    forall p | LastIssued(s'.issued, p) != 0
      ensures HasVersion(s'.rows, p, LastIssued(s'.issued, p))
    {
      LastAfter(s.issued, Issue(product, NextVersion(latest)), p);
      if p == product {
        assert id in s'.rows && s'.rows[id].product == p;
      } else {
        var i :| i in s.rows && s.rows[i].product == p && s.rows[i].version == LastIssued(s.issued, p);
        assert s'.rows[i].version == s.rows[i].version;
      }
    }
  }

  lemma CreateKeeps(s: Store, product: Id, id: Id, latest: Option<Latest>)
    requires Lawful(s) && ReadNewest(s, product, latest) && CreateCommit(s, product, id, latest).Wrote?
    ensures Lawful(CreateCommit(s, product, id, latest).store)
  {
    CreateRows(s, product, id, latest);
    CreateIssues(s, product, id, latest);
    hide UniqueVersions, ActiveIsNewest, NewestExists, IssuedClimb, IssuedPositive, RowsMade, CreateCommit;
  }

  /** Reading the highest version gives the newest one ever handed out, and it is active. */
  lemma LatestIsNewest(s: Store, product: Id, found: Option<Id>)
    requires Lawful(s) && IsLatest(s.rows, product, found)
    ensures ReadNewest(s, product, if found.None? then None else Some(Latest(found.value, s.rows[found.value])))
  {
    LastPositive(s.issued, product);
    if LastIssued(s.issued, product) != 0 {
      var i :| i in s.rows && s.rows[i].product == product && s.rows[i].version == LastIssued(s.issued, product);
    }
  }

  // Interleaved creates

  /** Every version links to the one below it. */
  ghost predicate Linked(rows: map<Id, Config>) {
    forall i :: i in rows ==>
      if rows[i].version == 1 then rows[i].previous == None
      else rows[i].previous.Some? && rows[i].previous.value in rows
           && rows[rows[i].previous.value].product == rows[i].product
           && rows[rows[i].previous.value].version == rows[i].version - 1
  }

  ghost predicate CallOk(rows: map<Id, Config>, c: Call) {
    match c
    case Create(_, _) => true
    case CreateWrite(_, _, None) => true
    case CreateWrite(product, _, Some(l)) =>
      l.row.active && l.row.product == product && l.id in rows && rows[l.id].(active := true) == l.row
    case Delete(_, _) => false
    case DeleteWrite(_) => false
  }

  ghost predicate WorldInv(w: World) {
    && Lawful(w.store) && Linked(w.store.rows)
    && forall t :: t in w.calls ==> CallOk(w.store.rows, w.calls[t])
  }

  /** No gaps: below every version there is every smaller one. */
  lemma {:induction false} Contiguous(rows: map<Id, Config>, i: Id, v: int)
    requires Linked(rows) && i in rows && 1 <= v <= rows[i].version
    ensures HasVersion(rows, rows[i].product, v)
    decreases rows[i].version
  {
    if v < rows[i].version {
      Contiguous(rows, rows[i].previous.value, v);
    }
  }

  /** A create that commits read the newest version, however stale its read: the unique number validates it. */
  lemma ReadIsValidated(s: Store, product: Id, id: Id, latest: Option<Latest>)
    requires Lawful(s) && Linked(s.rows) && CallOk(s.rows, CreateWrite(product, id, latest))
    requires CreateCommit(s, product, id, latest).Wrote?
    ensures ReadNewest(s, product, latest)
    ensures latest.Some? ==> s.rows[latest.value.id] == latest.value.row
  {
    LastPositive(s.issued, product);
    var last := LastIssued(s.issued, product);
    if last != 0 {
      var i :| i in s.rows && s.rows[i].product == product && s.rows[i].version == last;
      if NextVersion(latest) <= last {
        Contiguous(s.rows, i, NextVersion(latest));
        assert false;
      }
    }
  }

  lemma LinkedKeeps(s: Store, product: Id, id: Id, latest: Option<Latest>)
    requires Linked(s.rows) && ReadNewest(s, product, latest) && CreateCommit(s, product, id, latest).Wrote?
    requires latest.Some? ==> latest.value.row.version >= 1
    requires RowsMade(s.rows, s.created)
    ensures Linked(CreateCommit(s, product, id, latest).store.rows)
  {
    hide Lawful;
  }

  lemma RowsStay(s: Store, product: Id, id: Id, latest: Option<Latest>, c: Call)
    requires CallOk(s.rows, c) && CreateCommit(s, product, id, latest).Wrote? && RowsMade(s.rows, s.created)
    ensures CallOk(CreateCommit(s, product, id, latest).store.rows, c)
  {
  }

  lemma CreateStepKeeps(w: World, t: nat, product: Id, id: Id, latest: Option<Latest>)
    requires WorldInv(w) && t in w.calls && w.calls[t] == CreateWrite(product, id, latest)
    requires CreateCommit(w.store, product, id, latest).Wrote?
    ensures WorldInv(World(CreateCommit(w.store, product, id, latest).store, w.calls - {t}))
  {
    assert RowsMade(w.store.rows, w.store.created);
    hide Lawful, Linked, CreateCommit, CallOk, RowsMade;
    ReadIsValidated(w.store, product, id, latest);
    CreateKeeps(w.store, product, id, latest);
    AtLeastOne(w.store, latest);
    LinkedKeeps(w.store, product, id, latest);
    forall u | u in w.calls
      ensures CallOk(CreateCommit(w.store, product, id, latest).store.rows, w.calls[u])
    {
      RowsStay(w.store, product, id, latest, w.calls[u]);
    }
  }

  lemma AtLeastOne(s: Store, latest: Option<Latest>)
    requires Lawful(s)
    ensures latest.Some? && latest.value.id in s.rows ==> s.rows[latest.value.id].version >= 1
  {
  }

  lemma StepKeeps(w: World, a: Action)
    requires WorldInv(w) && !(a.Begin? && a.call.Delete?)
    ensures WorldInv(Step(w, a))
  {
    hide Lawful, Linked;
    if a.Resume? && a.t in w.calls {
      match w.calls[a.t]
      case Create(product, id) =>
        if IsLatest(w.store.rows, product, a.found) { LatestIsNewest(w.store, product, a.found); }
      case CreateWrite(product, id, latest) =>
        if CreateCommit(w.store, product, id, latest).Wrote? {
          CreateStepKeeps(w, a.t, product, id, latest);
        }
    }
  }

  ghost predicate OnlyCreates(actions: seq<Action>) {
    forall a :: a in actions ==> !(a.Begin? && a.call.Delete?)
  }

  lemma {:induction false} RunKeeps(actions: seq<Action>)
    requires OnlyCreates(actions)
    ensures WorldInv(Run(EMPTY_WORLD, actions))
    decreases |actions|
  {
    hide Step;
    if actions != [] {
      RunKeeps(actions[..|actions| - 1]);
      StepKeeps(Run(EMPTY_WORLD, actions[..|actions| - 1]), actions[|actions| - 1]);
    }
  }

  /** However creates interleave: at most one active version of a product, always the highest, and no gaps below it. */
  lemma OneActiveHighest(actions: seq<Action>, i: Id, j: Id, v: int)
    requires OnlyCreates(actions)
    ensures var rows := Run(EMPTY_WORLD, actions).store.rows;
            i in rows ==>
              && (rows[i].active && j in rows && rows[j].product == rows[i].product && j != i ==>
                    rows[j].version < rows[i].version && !rows[j].active)
              && (1 <= v <= rows[i].version ==> HasVersion(rows, rows[i].product, v))
  {
    RunKeeps(actions);
    var rows := Run(EMPTY_WORLD, actions).store.rows;
    if i in rows && 1 <= v <= rows[i].version { Contiguous(rows, i, v); }
  }

  // Serial creates and deletes

  /** Links point to lower versions of the same product. */
  ghost predicate LinksDown(rows: map<Id, Config>) {
    forall i :: i in rows && rows[i].previous.Some? ==>
      && rows[i].previous.value in rows
      && rows[rows[i].previous.value].product == rows[i].product
      && rows[rows[i].previous.value].version < rows[i].version
  }

  ghost predicate SerialInv(s: Store) {
    Lawful(s) && LinksDown(s.rows)
  }

  /** With nothing running beside it a create always commits: no constraint refuses it. */
  lemma SerialCreateCommits(s: Store, product: Id, id: Id, latest: Option<Latest>)
    requires SerialInv(s) && id !in s.created && ReadNewest(s, product, latest)
    ensures CreateCommit(s, product, id, latest).Wrote?
  {
  }

  lemma SerialCreateKeeps(s: Store, product: Id, id: Id, latest: Option<Latest>)
    requires SerialInv(s) && ReadNewest(s, product, latest) && CreateCommit(s, product, id, latest).Wrote?
    ensures SerialInv(CreateCommit(s, product, id, latest).store)
  {
    CreateKeeps(s, product, id, latest);
    LinksDownKeeps(s, product, id, latest);
    hide Lawful, CreateCommit;
  }

  lemma LinksDownKeeps(s: Store, product: Id, id: Id, latest: Option<Latest>)
    requires LinksDown(s.rows) && ReadNewest(s, product, latest) && CreateCommit(s, product, id, latest).Wrote?
    requires RowsMade(s.rows, s.created)
    ensures LinksDown(CreateCommit(s, product, id, latest).store.rows)
  {
  }

  lemma DeleteKeepsRows(rows: map<Id, Config>, issued: seq<Issue>, id: Id)
    requires UniqueVersions(rows) && ActiveIsNewest(rows, issued)
    ensures UniqueVersions(Unlinked(rows, id)) && ActiveIsNewest(Unlinked(rows, id), issued)
  {
    var rows' := Unlinked(rows, id);
    forall i | i in rows'
      ensures i in rows && rows'[i] == rows[i].(previous := rows'[i].previous)
    {
    }
  }

  lemma DeleteKeepsLinks(rows: map<Id, Config>, id: Id)
    requires LinksDown(rows)
    ensures LinksDown(Unlinked(rows, id))
  {
  }

  lemma DeleteKeepsNewest(rows: map<Id, Config>, issued: seq<Issue>, id: Id)
    requires NewestExists(rows, issued) && ActiveIsNewest(rows, issued) && id in rows && !rows[id].active
    ensures NewestExists(Unlinked(rows, id), issued)
  {
    var rows' := Unlinked(rows, id);
    forall p | LastIssued(issued, p) != 0
      ensures HasVersion(rows', p, LastIssued(issued, p))
    {
      var i :| i in rows && rows[i].product == p && rows[i].version == LastIssued(issued, p);
      assert i in rows' && rows'[i].version == rows[i].version;
    }
  }

  lemma DeleteKeeps(s: Store, id: Id)
    requires SerialInv(s) && id in s.rows && !s.rows[id].active
    ensures SerialInv(s.(rows := Unlinked(s.rows, id)))
  {
    hide Unlinked, UniqueVersions, ActiveIsNewest, NewestExists, IssuedClimb, IssuedPositive, LinksDown;
    DeleteKeepsRows(s.rows, s.issued, id);
    DeleteKeepsLinks(s.rows, id);
    DeleteKeepsNewest(s.rows, s.issued, id);
    DeleteKeepsMade(s.rows, s.created, id);
  }

  lemma DeleteKeepsMade(rows: map<Id, Config>, created: set<Id>, id: Id)
    requires RowsMade(rows, created)
    ensures RowsMade(Unlinked(rows, id), created)
  {
  }

  lemma AloneKeeps(s: Store, r: Request)
    requires SerialInv(s) && (r.call.Create? || r.call.Delete?)
    ensures SerialInv(Alone(s, r.call, r.found, r.referenced))
  {
    hide SerialInv, Unlinked;
    match r.call
    case Create(product, id) =>
      if IsLatest(s.rows, product, r.found) {
        var latest := CreateRead(s, product, id, r.found).next.latest;
        SerialLatest(s, product, r.found);
        if CreateCommit(s, product, id, latest).Wrote? { SerialCreateKeeps(s, product, id, latest); }
      }
    case Delete(product, id) =>
      if id in s.rows && !s.rows[id].active { DeleteKeeps(s, id); }
  }

  lemma SerialLatest(s: Store, product: Id, found: Option<Id>)
    requires SerialInv(s) && IsLatest(s.rows, product, found)
    ensures ReadNewest(s, product, if found.None? then None else Some(Latest(found.value, s.rows[found.value])))
  {
    hide LinksDown;
    LatestIsNewest(s, product, found);
  }

  lemma {:induction false} SerialKeeps(requests: seq<Request>)
    ensures SerialInv(Serial(EMPTY_STORE, requests))
    decreases |requests|
  {
    hide Alone, IsLatest;
    if requests != [] {
      hide SerialInv;
      var last := requests[|requests| - 1];
      SerialKeeps(requests[..|requests| - 1]);
      if last.call.Create? || last.call.Delete? { AloneKeeps(Serial(EMPTY_STORE, requests[..|requests| - 1]), last); }
    }
  }

  /** Serially, deletes included: a product that ever got a version has exactly one active version, and it is the
      highest; and no version number is handed out twice. */
  lemma ExactlyOneActive(requests: seq<Request>, k: nat, l: nat)
    requires k < |Serial(EMPTY_STORE, requests).issued|
    ensures var s := Serial(EMPTY_STORE, requests);
            && (exists i :: i in s.rows && s.rows[i].product == s.issued[k].product && s.rows[i].active
                  && forall j :: j in s.rows && s.rows[j].product == s.issued[k].product && j != i ==>
                       s.rows[j].version < s.rows[i].version && !s.rows[j].active)
            && (k < l < |s.issued| && s.issued[k].product == s.issued[l].product ==>
                 s.issued[k].version < s.issued[l].version)
  {
    SerialKeeps(requests);
    var s := Serial(EMPTY_STORE, requests);
    var p := s.issued[k].product;
    IssuedAtMostLast(s.issued, k);
    var i :| i in s.rows && s.rows[i].product == p && s.rows[i].version == LastIssued(s.issued, p);
  }

  /** Serially a create never fails on a constraint: it always publishes the next version. */
  lemma CreatePublishes(requests: seq<Request>, product: Id, id: Id, found: Option<Id>)
    requires id !in Serial(EMPTY_STORE, requests).created
    requires IsLatest(Serial(EMPTY_STORE, requests).rows, product, found)
    ensures var s := Serial(EMPTY_STORE, requests);
            var s' := Alone(s, Create(product, id), found, false);
            && id in s'.rows && s'.rows[id].product == product && s'.rows[id].active
            && s'.issued == s.issued + [Issue(product, s'.rows[id].version)]
  {
    hide SerialInv;
    SerialKeeps(requests);
    var s := Serial(EMPTY_STORE, requests);
    SerialLatest(s, product, found);
    SerialCreateCommits(s, product, id, CreateRead(s, product, id, found).next.latest);
  }

  // Creates and deletes beside each other

  /** What every create between its read and its write knows; its row may have lost its link, or be gone. */
  ghost predicate Believes(s: Store, product: Id, latest: Option<Latest>) {
    latest.Some? ==>
      && latest.value.row.product == product && latest.value.row.active
      && (latest.value.id in s.rows ==>
            s.rows[latest.value.id].product == product && s.rows[latest.value.id].version == latest.value.row.version)
  }

  ghost predicate AtMostOneActive(rows: map<Id, Config>, product: Id) {
    forall i, j :: i in rows && j in rows && rows[i].product == product == rows[j].product
                   && rows[i].active && rows[j].active ==>
      i == j
  }

  lemma LawfulActive(s: Store, product: Id)
    requires SerialInv(s)
    ensures AtMostOneActive(s.rows, product)
  {
  }

  /** A number below the newest: two versions are active, and the newest is not the last handed out. */
  lemma OvertakenCommit(s: Store, product: Id, id: Id, latest: Option<Latest>)
    requires SerialInv(s) && Believes(s, product, latest) && CreateCommit(s, product, id, latest).Wrote?
    requires NextVersion(latest) != LastIssued(s.issued, product) + 1
    ensures var s' := CreateCommit(s, product, id, latest).store;
            !SerialInv(s') && !AtMostOneActive(s'.rows, product)
  {
    var s' := CreateCommit(s, product, id, latest).store;
    LastPositive(s.issued, product);
    LastAfter(s.issued, Issue(product, NextVersion(latest)), product);
    var z :| z in s.rows && s.rows[z].product == product && s.rows[z].version == LastIssued(s.issued, product);
    assert z != id && s.rows[z].active;
    assert s'.rows[z] == s.rows[z] && s'.rows[id].active;
    assert s'.rows[z].version > LastIssued(s'.issued, product);
  }

  lemma BelievedNewest(s: Store, product: Id, id: Id, latest: Option<Latest>)
    requires SerialInv(s) && Believes(s, product, latest) && CreateCommit(s, product, id, latest).Wrote?
    requires NextVersion(latest) == LastIssued(s.issued, product) + 1
    ensures ReadNewest(s, product, latest)
  {
  }

  /** The commit of a create leaves a lawful product, and leaves at most one version active, exactly when the number
      it read up to is still the newest handed out, whatever was published or deleted since its read. */
  lemma CommitLawfulIff(s: Store, product: Id, id: Id, latest: Option<Latest>)
    requires SerialInv(s) && Believes(s, product, latest) && CreateCommit(s, product, id, latest).Wrote?
    ensures var s' := CreateCommit(s, product, id, latest).store;
            && (SerialInv(s') <==> NextVersion(latest) == LastIssued(s.issued, product) + 1)
            && (AtMostOneActive(s'.rows, product) <==> NextVersion(latest) == LastIssued(s.issued, product) + 1)
  {
    hide SerialInv, AtMostOneActive, Believes, CreateCommit;
    if NextVersion(latest) == LastIssued(s.issued, product) + 1 {
      BelievedNewest(s, product, id, latest);
      SerialCreateKeeps(s, product, id, latest);
      LawfulActive(CreateCommit(s, product, id, latest).store, product);
    } else {
      OvertakenCommit(s, product, id, latest);
    }
  }

  // Runs of both

  /** What a call relies on, however the others interleave. */
  ghost predicate Relies(s: Store, c: Call) {
    match c
    case CreateWrite(product, _, latest) =>
      Believes(s, product, latest) && (latest.Some? ==> latest.value.id in s.created)
    case DeleteWrite(id) => id in s.created && (id in s.rows ==> !s.rows[id].active)
    case _ => true
  }

  ghost predicate MixedInv(w: World) {
    SerialInv(w.store) && forall t :: t in w.calls ==> Relies(w.store, w.calls[t])
  }

  /** A create commits although a newer version than the one it read has been handed out. */
  ghost predicate Overtaken(w: World, a: Action) {
    && a.Resume? && a.t in w.calls && w.calls[a.t].CreateWrite?
    && var c := w.calls[a.t];
    && CreateCommit(w.store, c.product, c.id, c.latest).Wrote?
    && NextVersion(c.latest) != LastIssued(w.store.issued, c.product) + 1
  }

  /** The rows a commit leaves alone. */
  lemma CommitRows(s: Store, product: Id, id: Id, latest: Option<Latest>)
    requires CreateCommit(s, product, id, latest).Wrote?
    ensures var s' := CreateCommit(s, product, id, latest).store;
            && id !in s.created && s'.created == s.created + {id}
            && s'.issued == s.issued + [Issue(product, NextVersion(latest))]
            && (forall j :: j in s'.rows && j != id ==> j in s.rows)
            && forall j :: j in s.rows && j != id ==>
                 && j in s'.rows && s'.rows[j].(active := true) == s.rows[j].(active := true)
                 && (s'.rows[j].active ==> s.rows[j].active)
  {
  }

  lemma CommitStable(s: Store, product: Id, id: Id, latest: Option<Latest>, c: Call)
    requires CreateCommit(s, product, id, latest).Wrote? && Relies(s, c)
    ensures Relies(CreateCommit(s, product, id, latest).store, c)
  {
    hide CreateCommit;
    CommitRows(s, product, id, latest);
  }

  lemma DeleteStable(s: Store, id: Id, c: Call)
    requires Relies(s, c)
    ensures Relies(s.(rows := Unlinked(s.rows, id)), c)
  {
  }

  lemma MixedCreateCommit(w: World, t: nat, product: Id, id: Id, latest: Option<Latest>)
    requires MixedInv(w) && t in w.calls && w.calls[t] == CreateWrite(product, id, latest)
    requires CreateCommit(w.store, product, id, latest).Wrote?
    ensures var w' := World(CreateCommit(w.store, product, id, latest).store, w.calls - {t});
            && (SerialInv(w'.store) ==> MixedInv(w'))
            && (SerialInv(w'.store) <==> NextVersion(latest) == LastIssued(w.store.issued, product) + 1)
            && (AtMostOneActive(w'.store.rows, product)
                <==> NextVersion(latest) == LastIssued(w.store.issued, product) + 1)
  {
    assert Relies(w.store, CreateWrite(product, id, latest));
    assert Believes(w.store, product, latest);
    hide SerialInv, Relies, CreateCommit, Believes, AtMostOneActive;
    CommitLawfulIff(w.store, product, id, latest);
    forall u | u in w.calls
      ensures Relies(CreateCommit(w.store, product, id, latest).store, w.calls[u])
    {
      CommitStable(w.store, product, id, latest, w.calls[u]);
    }
  }

  lemma MixedDeleteCommit(w: World, t: nat, id: Id)
    requires MixedInv(w) && t in w.calls && w.calls[t] == DeleteWrite(id) && id in w.store.rows
    ensures MixedInv(World(w.store.(rows := Unlinked(w.store.rows, id)), w.calls - {t}))
  {
    assert Relies(w.store, DeleteWrite(id));
    assert !w.store.rows[id].active;
    hide SerialInv, Relies, Unlinked;
    DeleteKeeps(w.store, id);
    forall u | u in w.calls
      ensures Relies(w.store.(rows := Unlinked(w.store.rows, id)), w.calls[u])
    {
      DeleteStable(w.store, id, w.calls[u]);
    }
  }

  lemma ReadRelies(s: Store, product: Id, id: Id, found: Option<Id>)
    requires SerialInv(s) && IsLatest(s.rows, product, found)
    ensures Relies(s, CreateRead(s, product, id, found).next)
  {
    SerialLatest(s, product, found);
    RowsWereMade(s);
    hide SerialInv;
  }

  lemma RowsWereMade(s: Store)
    requires SerialInv(s)
    ensures forall i :: i in s.rows ==> i in s.created
  {
  }

  lemma NeverReads(s: Store, product: Id, id: Id, latest: Option<Latest>)
    ensures !CreateCommit(s, product, id, latest).Read?
  {
  }

  /** One step: lawful before, it is lawful after, and no product has two active versions, exactly when it is no
      overtaken commit. */
  lemma MixedStep(w: World, a: Action)
    requires MixedInv(w)
    ensures MixedInv(Step(w, a)) <==> !Overtaken(w, a)
    ensures SerialInv(Step(w, a).store) <==> !Overtaken(w, a)
    ensures (forall p :: AtMostOneActive(Step(w, a).store.rows, p)) <==> !Overtaken(w, a)
  {
    hide SerialInv, IsLatest, CreateCommit, Unlinked, AtMostOneActive, Relies;
    if a.Begin? { RequestRelies(w.store, a.call); }
    if a.Resume? && a.t in w.calls {
      match w.calls[a.t]
      case Create(product, id) =>
        if IsLatest(w.store.rows, product, a.found) { ReadRelies(w.store, product, id, a.found); }
      case CreateWrite(product, id, latest) =>
        NeverReads(w.store, product, id, latest);
        if CreateCommit(w.store, product, id, latest).Wrote? {
          MixedCreateCommit(w, a.t, product, id, latest);
          assert Overtaken(w, a) ==> !AtMostOneActive(Step(w, a).store.rows, product);
        }
      case Delete(_, id) => RowsWereMade(w.store); DeleteReadRelies(w.store, id);
      case DeleteWrite(id) =>
        if id in w.store.rows && !a.referenced { MixedDeleteCommit(w, a.t, id); }
    }
    if MixedInv(Step(w, a)) {
      forall p ensures AtMostOneActive(Step(w, a).store.rows, p) { LawfulActive(Step(w, a).store, p); }
    }
  }

  lemma RequestRelies(s: Store, c: Call)
    ensures c.Create? || c.Delete? ==> Relies(s, c)
  {
  }

  lemma DeleteReadRelies(s: Store, id: Id)
    requires id in s.rows ==> id in s.created
    ensures id in s.rows && !s.rows[id].active ==> Relies(s, DeleteWrite(id))
  {
  }

  /** The world before the `i`th action of a run from an empty table. */
  function Before(actions: seq<Action>, i: nat): World
    requires i <= |actions|
  {
    Run(EMPTY_WORLD, actions[..i])
  }

  lemma BeforeNext(actions: seq<Action>, i: nat)
    requires i < |actions|
    ensures Before(actions, i + 1) == Step(Before(actions, i), actions[i])
  {
    hide Step;
    assert actions[..i + 1][..i] == actions[..i];
  }

  lemma EmptyMixed()
    ensures MixedInv(EMPTY_WORLD)
  {
  }

  lemma {:induction false} NotOvertakenSoFar(actions: seq<Action>, n: nat)
    requires n <= |actions| && forall i :: 0 <= i < n ==> !Overtaken(Before(actions, i), actions[i])
    ensures forall i :: 0 <= i <= n ==> MixedInv(Before(actions, i))
  {
    hide Step, Overtaken, MixedInv, Before;
    if n == 0 {
      EmptyMixed();
      StartsEmpty(actions);
    } else {
      NotOvertakenSoFar(actions, n - 1);
      BeforeNext(actions, n - 1);
      MixedStep(Before(actions, n - 1), actions[n - 1]);
    }
  }

  lemma StartsEmpty(actions: seq<Action>)
    ensures Before(actions, 0) == EMPTY_WORLD
  {
  }

  lemma {:induction false} OneActiveSoFar(actions: seq<Action>, n: nat)
    requires n <= |actions|
    requires forall i, p :: 0 <= i <= n ==> AtMostOneActive(Before(actions, i).store.rows, p)
    ensures forall i :: 0 <= i < n ==> !Overtaken(Before(actions, i), actions[i])
  {
    hide Step, Overtaken, MixedInv, Before, AtMostOneActive;
    if n > 0 {
      OneActiveSoFar(actions, n - 1);
      NotOvertakenSoFar(actions, n - 1);
      BeforeNext(actions, n - 1);
      MixedStep(Before(actions, n - 1), actions[n - 1]);
    }
  }

  /** However creates and deletes interleave: no product ever has two active versions, and every state is lawful, if
      and only if every create that commits does so while the version it read is the newest handed out. */
  lemma OneActiveIffNotOvertaken(actions: seq<Action>)
    ensures (forall i :: 0 <= i <= |actions| ==> SerialInv(Before(actions, i).store))
       <==> (forall i :: 0 <= i < |actions| ==> !Overtaken(Before(actions, i), actions[i]))
    ensures (forall i, p :: 0 <= i <= |actions| ==> AtMostOneActive(Before(actions, i).store.rows, p))
       <==> (forall i :: 0 <= i < |actions| ==> !Overtaken(Before(actions, i), actions[i]))
  {
    hide Step, Overtaken, MixedInv, Before, AtMostOneActive, SerialInv;
    if forall i :: 0 <= i <= |actions| ==> SerialInv(Before(actions, i).store) {
      forall i, p | 0 <= i <= |actions|
        ensures AtMostOneActive(Before(actions, i).store.rows, p)
      {
        LawfulActive(Before(actions, i).store, p);
      }
    }
    if forall i, p :: 0 <= i <= |actions| ==> AtMostOneActive(Before(actions, i).store.rows, p) {
      OneActiveSoFar(actions, |actions|);
    }
    if forall i :: 0 <= i < |actions| ==> !Overtaken(Before(actions, i), actions[i]) {
      NotOvertakenSoFar(actions, |actions|);
      forall i | 0 <= i <= |actions|
        ensures SerialInv(Before(actions, i).store)
      {
        MixedIsLawful(Before(actions, i));
      }
      forall i, p | 0 <= i <= |actions|
        ensures AtMostOneActive(Before(actions, i).store.rows, p)
      {
        LawfulActive(Before(actions, i).store, p);
      }
    }
  }

  lemma MixedIsLawful(w: World)
    requires MixedInv(w)
    ensures SerialInv(w.store)
  {
  }

  /** And then the active version of a product is its highest, and no number is handed out twice. */
  lemma HighestIfNotOvertaken(actions: seq<Action>, i: Id, j: Id, k: nat, l: nat)
    requires forall n :: 0 <= n < |actions| ==> !Overtaken(Before(actions, n), actions[n])
    ensures var s := Before(actions, |actions|).store;
            && (i in s.rows && s.rows[i].active && j in s.rows && s.rows[j].product == s.rows[i].product && j != i ==>
                  s.rows[j].version < s.rows[i].version && !s.rows[j].active)
            && (k < l < |s.issued| && s.issued[k].product == s.issued[l].product ==>
                 s.issued[k].version < s.issued[l].version)
  {
    hide Overtaken, Relies, Before;
    NotOvertakenSoFar(actions, |actions|);
    MixedIsLawful(Before(actions, |actions|));
  }

  // Which deletes are harmless

  /** No version newer than the one a waiting create has read is missing. */
  ghost predicate NewerKept(w: World) {
    forall t :: t in w.calls && w.calls[t].CreateWrite? ==> NewerExist(w.store, w.calls[t].product, w.calls[t].latest)
  }

  ghost predicate NewerExist(s: Store, product: Id, latest: Option<Latest>) {
    forall v :: NextVersion(latest) <= v <= LastIssued(s.issued, product) ==> HasVersion(s.rows, product, v)
  }

  /** A delete commits on a version newer than one a create of its product has read and not yet followed up. */
  predicate DeletesNewer(w: World, a: Action) {
    && a.Resume? && a.t in w.calls && w.calls[a.t].DeleteWrite? && w.calls[a.t].id in w.store.rows
    && var row := w.store.rows[w.calls[a.t].id];
    exists u :: u in w.calls && w.calls[u].CreateWrite? && w.calls[u].product == row.product
                && NextVersion(w.calls[u].latest) <= row.version
  }

  lemma VersionStays(rows: map<Id, Config>, rows': map<Id, Config>, product: Id, v: int)
    requires HasVersion(rows, product, v)
    requires forall j :: j in rows && rows[j].product == product && rows[j].version == v ==>
               j in rows' && rows'[j].product == product && rows'[j].version == v
    ensures HasVersion(rows', product, v)
  {
    var i :| i in rows && rows[i].product == product && rows[i].version == v;
    assert i in rows' && rows'[i].version == v;
  }

  lemma CommittedNumberWasFree(s: Store, product: Id, id: Id, latest: Option<Latest>)
    requires CreateCommit(s, product, id, latest).Wrote? && NewerExist(s, product, latest)
    ensures NextVersion(latest) > LastIssued(s.issued, product)
  {
    NumberWasFree(s, product, id, latest);
    hide HasVersion, CreateCommit;
  }

  lemma NumberWasFree(s: Store, product: Id, id: Id, latest: Option<Latest>)
    requires CreateCommit(s, product, id, latest).Wrote?
    ensures !HasVersion(s.rows, product, NextVersion(latest))
  {
  }

  lemma NewerAfterCommit(s: Store, product: Id, id: Id, latest: Option<Latest>, other: Id, read: Option<Latest>)
    requires CreateCommit(s, product, id, latest).Wrote? && NextVersion(latest) == LastIssued(s.issued, product) + 1
    requires NewerExist(s, other, read) && RowsMade(s.rows, s.created)
    ensures NewerExist(CreateCommit(s, product, id, latest).store, other, read)
  {
    hide HasVersion;
    CommitRows(s, product, id, latest);
    var s' := CreateCommit(s, product, id, latest).store;
    LastAfter(s.issued, Issue(product, NextVersion(latest)), other);
    forall v | NextVersion(read) <= v <= LastIssued(s'.issued, other)
      ensures HasVersion(s'.rows, other, v)
    {
      if other == product && v == NextVersion(latest) { NewVersion(s'.rows, id);
      } else { VersionStays(s.rows, s'.rows, other, v); }
    }
  }

  lemma NewVersion(rows: map<Id, Config>, id: Id)
    requires id in rows
    ensures HasVersion(rows, rows[id].product, rows[id].version)
  {
  }

  lemma NewerAfterDelete(s: Store, id: Id, product: Id, read: Option<Latest>)
    requires id in s.rows && NewerExist(s, product, read)
    requires s.rows[id].product == product ==> s.rows[id].version < NextVersion(read)
    ensures NewerExist(s.(rows := Unlinked(s.rows, id)), product, read)
  {
    hide HasVersion;
    forall v | NextVersion(read) <= v <= LastIssued(s.issued, product)
      ensures HasVersion(Unlinked(s.rows, id), product, v)
    {
      VersionStays(s.rows, Unlinked(s.rows, id), product, v);
    }
  }

  lemma NothingNewer(s: Store, product: Id, id: Id, found: Option<Id>)
    requires SerialInv(s) && IsLatest(s.rows, product, found)
    ensures NewerExist(s, product, CreateRead(s, product, id, found).next.latest)
  {
    hide SerialInv;
    SerialLatest(s, product, found);
  }

  lemma KeepingNewer(w: World, a: Action)
    requires MixedInv(w) && NewerKept(w) && !DeletesNewer(w, a)
    ensures !Overtaken(w, a) && NewerKept(Step(w, a))
  {
    assert RowsMade(w.store.rows, w.store.created);
    hide SerialInv, Relies, IsLatest, CreateCommit, Unlinked, NewerExist, RowsMade;
    if a.Resume? && a.t in w.calls {
      match w.calls[a.t]
      case Create(product, id) =>
        if IsLatest(w.store.rows, product, a.found) { NothingNewer(w.store, product, id, a.found); }
      case CreateWrite(product, id, latest) =>
        NeverReads(w.store, product, id, latest);
        if CreateCommit(w.store, product, id, latest).Wrote? {
          CommittedNumberWasFree(w.store, product, id, latest);
          NextAtMostLast(w.store, product, id, latest);
          forall u | u in w.calls && w.calls[u].CreateWrite?
            ensures NewerExist(CreateCommit(w.store, product, id, latest).store, w.calls[u].product, w.calls[u].latest)
          {
            NewerAfterCommit(w.store, product, id, latest, w.calls[u].product, w.calls[u].latest);
          }
        }
      case Delete(_, _) =>
      case DeleteWrite(id) =>
        if id in w.store.rows && !a.referenced {
          forall u | u in w.calls && w.calls[u].CreateWrite?
            ensures NewerExist(w.store.(rows := Unlinked(w.store.rows, id)), w.calls[u].product, w.calls[u].latest)
          {
            NewerAfterDelete(w.store, id, w.calls[u].product, w.calls[u].latest);
          }
        }
    }
  }

  lemma NextAtMostLast(s: Store, product: Id, id: Id, latest: Option<Latest>)
    requires SerialInv(s) && Relies(s, CreateWrite(product, id, latest)) && CreateCommit(s, product, id, latest).Wrote?
    ensures NextVersion(latest) <= LastIssued(s.issued, product) + 1
  {
    LastPositive(s.issued, product);
  }

  lemma {:induction false} KeepingNewerSoFar(actions: seq<Action>, n: nat)
    requires n <= |actions| && forall i :: 0 <= i < n ==> !DeletesNewer(Before(actions, i), actions[i])
    ensures forall i :: 0 <= i < n ==> !Overtaken(Before(actions, i), actions[i])
    ensures MixedInv(Before(actions, n)) && NewerKept(Before(actions, n))
  {
    hide Step, Overtaken, MixedInv, Before, DeletesNewer, NewerKept;
    StartsEmpty(actions);
    if n == 0 {
      EmptyMixed();
      EmptyKept();
    } else {
      KeepingNewerSoFar(actions, n - 1);
      BeforeNext(actions, n - 1);
      KeepingNewer(Before(actions, n - 1), actions[n - 1]);
      MixedStep(Before(actions, n - 1), actions[n - 1]);
    }
  }

  lemma EmptyKept()
    ensures NewerKept(EMPTY_WORLD)
  {
  }

  /** Deletes of the version a waiting create has read, or of older ones, are harmless: when no newer one is deleted
      under it, no create commits overtaken, and at most one version of a product is ever active. */
  lemma OneActiveHighestWithDeletes(actions: seq<Action>)
    requires forall i :: 0 <= i < |actions| ==> !DeletesNewer(Before(actions, i), actions[i])
    ensures forall i :: 0 <= i < |actions| ==> !Overtaken(Before(actions, i), actions[i])
    ensures forall i, p :: 0 <= i <= |actions| ==> AtMostOneActive(Before(actions, i).store.rows, p)
    ensures forall i :: 0 <= i <= |actions| ==> SerialInv(Before(actions, i).store)
  {
    hide Step, Overtaken, Before, DeletesNewer, AtMostOneActive, SerialInv;
    KeepingNewerSoFar(actions, |actions|);
    OneActiveIffNotOvertaken(actions);
  }

  // A schedule that goes wrong

  function ReadOf(s: Store, found: Option<Id>): Option<Latest>
    requires found.Some? ==> found.value in s.rows
  {
    if found.None? then None else Some(Latest(found.value, s.rows[found.value]))
  }

  function CreateNow(t: nat, product: Id, id: Id, found: Option<Id>): seq<Action> {
    [Begin(t, Create(product, id)), Resume(t, found, false), Resume(t, None, false)]
  }

  function DeleteNow(t: nat, product: Id, id: Id): seq<Action> {
    [Begin(t, Delete(product, id)), Resume(t, None, false), Resume(t, None, false)]
  }

  lemma Run3(w: World, s: seq<Action>)
    requires |s| == 3
    ensures Run(w, s) == Step(Step(Step(w, s[0]), s[1]), s[2])
  {
    hide Step;
    assert s[..2][..1] == s[..1] && s[..1][..0] == [];
    assert Run(w, s[..1]) == Step(w, s[0]);
  }

  lemma CreateRunsNow(w: World, t: nat, product: Id, id: Id, found: Option<Id>)
    requires t !in w.calls && IsLatest(w.store.rows, product, found)
    requires CreateCommit(w.store, product, id, ReadOf(w.store, found)).Wrote?
    ensures Run(w, CreateNow(t, product, id, found))
         == World(CreateCommit(w.store, product, id, ReadOf(w.store, found)).store, w.calls)
  {
    hide CreateCommit;
    Run3(w, CreateNow(t, product, id, found));
    var write := CreateWrite(product, id, ReadOf(w.store, found));
    assert w.calls[t := Create(product, id)][t := write] == w.calls[t := write];
    assert w.calls[t := write] - {t} == w.calls;
  }

  lemma DeleteRunsNow(w: World, t: nat, product: Id, id: Id)
    requires t !in w.calls && id in w.store.rows && w.store.rows[id].product == product && !w.store.rows[id].active
    ensures Run(w, DeleteNow(t, product, id)) == World(w.store.(rows := Unlinked(w.store.rows, id)), w.calls)
  {
    hide Unlinked;
    Run3(w, DeleteNow(t, product, id));
    assert w.calls[t := Delete(product, id)][t := DeleteWrite(id)] == w.calls[t := DeleteWrite(id)];
    assert w.calls[t := DeleteWrite(id)] - {t} == w.calls;
  }

  lemma {:induction false} RunConcat(w: World, actions: seq<Action>, more: seq<Action>)
    ensures Run(w, actions + more) == Run(Run(w, actions), more)
    decreases |more|
  {
    hide Step;
    if more == [] {
      assert actions + more == actions;
    } else {
      assert (actions + more)[..|actions + more| - 1] == actions + more[..|more| - 1];
      RunConcat(w, actions, more[..|more| - 1]);
    }
  }

  function ReadFirst(product: Id, found: Option<Id>, x: Id): seq<Action> {
    [Begin(0, Create(product, x)), Resume(0, found, false)]
  }

  /** A create that has read the highest version, or that there is none, waits while versions `y` and `z` are
      published and `y` is deleted. */
  function DeleteUnderCreate(product: Id, found: Option<Id>, x: Id, y: Id, z: Id): seq<Action> {
    ReadFirst(product, found, x)
    + (CreateNow(1, product, y, found)
       + (CreateNow(1, product, z, Some(y)) + (DeleteNow(1, product, y) + [Resume(0, None, false)])))
  }

  /** What publishing on top of the highest version does. */
  lemma Publishes(s: Store, product: Id, id: Id, found: Option<Id>)
    requires SerialInv(s) && IsLatest(s.rows, product, found) && id !in s.created
    ensures var o := CreateCommit(s, product, id, ReadOf(s, found));
            && o.Wrote? && SerialInv(o.store) && id in o.store.rows && IsLatest(o.store.rows, product, Some(id))
            && o.store.created == s.created + {id}
  {
    hide SerialInv;
    SerialLatest(s, product, found);
    SerialCreateCommits(s, product, id, ReadOf(s, found));
    SerialCreateKeeps(s, product, id, ReadOf(s, found));
    PublishedIsLatest(s, product, id, found);
  }

  lemma PublishedIsLatest(s: Store, product: Id, id: Id, found: Option<Id>)
    requires IsLatest(s.rows, product, found) && CreateCommit(s, product, id, ReadOf(s, found)).Wrote?
    ensures IsLatest(CreateCommit(s, product, id, ReadOf(s, found)).store.rows, product, Some(id))
  {
  }

  /** The state after `y` and `z` are published and `y` is deleted, described by its rows. */
  ghost predicate PublishedTwice(s: Store, s': Store, product: Id, read: Option<Latest>, y: Id, z: Id) {
    && s'.created == s.created + {y, z}
    && (forall j :: j in s'.rows ==> j in s.rows || j == z)
    && (forall j :: j in s.rows ==>
          j in s'.rows && s'.rows[j].product == s.rows[j].product && s'.rows[j].version == s.rows[j].version
          && (s'.rows[j].previous.Some? ==> s'.rows[j].previous == s.rows[j].previous))
    && z in s'.rows && s'.rows[z] == Config(product, NextVersion(read) + 1, true, None)
  }

  /** The rows after publishing: the new one, and the others with their versions and links. */
  ghost predicate PublishedOn(s: Store, s': Store, product: Id, read: Option<Latest>, id: Id) {
    && s'.created == s.created + {id} && id in s'.rows && id !in s.created
    && s'.rows[id] == Config(product, NextVersion(read), true, PreviousOf(read))
    && (forall j :: j in s'.rows ==> j in s.rows || j == id)
    && (forall j :: j in s.rows && j != id ==>
          j in s'.rows && s'.rows[j].(active := true) == s.rows[j].(active := true)
          && (read.Some? && j == read.value.id && read.value.row.active ==> !s'.rows[j].active))
  }

  lemma PublishRows(s: Store, product: Id, id: Id, found: Option<Id>)
    requires IsLatest(s.rows, product, found) && CreateCommit(s, product, id, ReadOf(s, found)).Wrote?
    ensures PublishedOn(s, CreateCommit(s, product, id, ReadOf(s, found)).store, product, ReadOf(s, found), id)
  {
  }

  lemma TwicePublished(s: Store, product: Id, found: Option<Id>, y: Id, z: Id)
    requires SerialInv(s) && IsLatest(s.rows, product, found) && y !in s.created && z !in s.created && y != z
    ensures var o1 := CreateCommit(s, product, y, ReadOf(s, found));
            && o1.Wrote? && y in o1.store.rows && IsLatest(o1.store.rows, product, Some(y))
            && var o2 := CreateCommit(o1.store, product, z, ReadOf(o1.store, Some(y)));
            && o2.Wrote? && y in o2.store.rows && o2.store.rows[y].product == product && !o2.store.rows[y].active
            && var s3 := o2.store.(rows := Unlinked(o2.store.rows, y));
            && PublishedTwice(s, s3, product, ReadOf(s, found), y, z)
  {
    RowsWereMade(s);
    LinksOf(s);
    hide SerialInv, IsLatest, LinksDown, CreateCommit, Unlinked, PublishedOn, PublishedTwice;
    Publishes(s, product, y, found);
    PublishRows(s, product, y, found);
    var s1 := CreateCommit(s, product, y, ReadOf(s, found)).store;
    ReadsPublished(s, s1, product, ReadOf(s, found), y);
    Publishes(s1, product, z, Some(y));
    PublishRows(s1, product, z, Some(y));
    TwoRows(s, s1, CreateCommit(s1, product, z, ReadOf(s1, Some(y))).store, product, ReadOf(s, found), y, z);
  }

  lemma ReadsPublished(s: Store, s1: Store, product: Id, read: Option<Latest>, y: Id)
    requires PublishedOn(s, s1, product, read, y)
    ensures y in s1.rows && s1.created == s.created + {y}
  {
  }

  lemma TwoRows(s: Store, s1: Store, s2: Store, product: Id, read: Option<Latest>, y: Id, z: Id)
    requires PublishedOn(s, s1, product, read, y) && PublishedOn(s1, s2, product, Some(Latest(y, s1.rows[y])), z)
    requires y != z
    requires (forall j :: j in s.rows ==> j in s.created)
             && forall j :: j in s.rows && s.rows[j].previous.Some? ==> s.rows[j].previous.value in s.created
    ensures y in s2.rows && s2.rows[y].product == product && !s2.rows[y].active
    ensures PublishedTwice(s, s2.(rows := Unlinked(s2.rows, y)), product, read, y, z)
  {
    assert s2.created == s.created + {y, z};
  }

  lemma LinksOf(s: Store)
    requires SerialInv(s)
    ensures LinksDown(s.rows)
    ensures forall j :: j in s.rows && s.rows[j].previous.Some? ==> s.rows[j].previous.value in s.created
  {
  }

  lemma NothingInTheWay(s: Store, s': Store, product: Id, found: Option<Id>, x: Id, y: Id, z: Id)
    requires SerialInv(s) && IsLatest(s.rows, product, found) && x !in s.created && z !in s.created && x != y && x != z
    requires PublishedTwice(s, s', product, ReadOf(s, found), y, z)
    ensures x !in s'.created && z != x && (found.Some? ==> found.value in s'.rows && found.value != z)
    ensures forall j :: j in s'.rows && s'.rows[j].product == product ==>
              s'.rows[j].version != NextVersion(ReadOf(s, found))
    ensures found.Some? ==> forall j :: j in s'.rows ==> s'.rows[j].previous != found
  {
    RowsWereMade(s);
    LinksOf(s);
    hide SerialInv;
  }

  lemma CommitsWhenFree(s: Store, product: Id, x: Id, read: Option<Latest>, z: Id)
    requires x !in s.created && z != x && z in s.rows && (read.Some? ==> read.value.id in s.rows && read.value.id != z)
    requires forall j :: j in s.rows && s.rows[j].product == product ==> s.rows[j].version != NextVersion(read)
    requires read.Some? ==> forall j :: j in s.rows ==> s.rows[j].previous != Some(read.value.id)
    ensures var o := CreateCommit(s, product, x, read);
            && o.Wrote? && z in o.store.rows && x in o.store.rows && o.store.rows[z] == s.rows[z]
            && o.store.rows[x].active && o.store.rows[x].product == product
            && o.store.rows[x].version == NextVersion(read)
  {
  }

  /** The waiting create's number is free again. */
  lemma NumberIsFree(s: Store, s': Store, product: Id, found: Option<Id>, x: Id, y: Id, z: Id)
    requires SerialInv(s) && IsLatest(s.rows, product, found) && x !in s.created && z !in s.created && x != y && x != z
    requires PublishedTwice(s, s', product, ReadOf(s, found), y, z)
    ensures var o := CreateCommit(s', product, x, ReadOf(s, found));
            && o.Wrote? && z in o.store.rows && x in o.store.rows && o.store.rows[z] == s'.rows[z]
            && o.store.rows[x].active && o.store.rows[x].product == product
            && o.store.rows[x].version == NextVersion(ReadOf(s, found))
  {
    NothingInTheWay(s, s', product, found, x, y, z);
    hide SerialInv, IsLatest, CreateCommit;
    CommitsWhenFree(s', product, x, ReadOf(s, found), z);
  }

  /** The waiting create commits as well, so from every lawful state, with a version or without, two versions of the
      product end up active. */
  lemma DeleteUnderCreateMakesTwoActive(s: Store, product: Id, found: Option<Id>, x: Id, y: Id, z: Id)
    requires SerialInv(s) && IsLatest(s.rows, product, found)
    requires x !in s.created && y !in s.created && z !in s.created && x != y && x != z && y != z
    ensures var rows := Run(World(s, map[]), DeleteUnderCreate(product, found, x, y, z)).store.rows;
            && x in rows && z in rows && rows[x].active && rows[z].active
            && rows[x].product == rows[z].product == product
            && rows[x].version < rows[z].version
  {
    hide SerialInv, CreateCommit, Unlinked, Step, IsLatest;
    TwicePublished(s, product, found, y, z);
    ListedLatest(s, product, found);
    var read := ReadOf(s, found);
    var calls := map[0 := CreateWrite(product, x, read)];
    var w := World(s, map[]);
    var s1 := CreateCommit(s, product, y, read).store;
    var s2 := CreateCommit(s1, product, z, ReadOf(s1, Some(y))).store;
    var s3 := s2.(rows := Unlinked(s2.rows, y));
    NumberIsFree(s, s3, product, found, x, y, z);
    StartsReading(w, product, x, found);
    var a, b, c, d :=
      CreateNow(1, product, y, found), CreateNow(1, product, z, Some(y)),
      DeleteNow(1, product, y), [Resume(0, None, false)];
    RunConcat(w, ReadFirst(product, found, x), a + (b + (c + d)));
    RunConcat(World(s, calls), a, b + (c + d));
    CreateRunsNow(World(s, calls), 1, product, y, found);
    RunConcat(World(s1, calls), b, c + d);
    CreateRunsNow(World(s1, calls), 1, product, z, Some(y));
    RunConcat(World(s2, calls), c, d);
    DeleteRunsNow(World(s2, calls), 1, product, y);
    LastCommit(World(s3, calls), product, x, read);
  }

  lemma ListedLatest(s: Store, product: Id, found: Option<Id>)
    requires IsLatest(s.rows, product, found)
    ensures found.Some? ==> found.value in s.rows
  {
  }

  lemma StartsReading(w: World, product: Id, x: Id, found: Option<Id>)
    requires w.calls == map[] && IsLatest(w.store.rows, product, found)
    ensures Run(w, ReadFirst(product, found, x))
         == World(w.store, map[0 := CreateWrite(product, x, ReadOf(w.store, found))])
  {
    hide IsLatest;
    var s := ReadFirst(product, found, x);
    ListedLatest(w.store, product, found);
    assert s[..1] == [s[0]] && s[..1][..0] == [];
    assert Run(w, s[..1]) == World(w.store, map[0 := Create(product, x)]);
  }

  lemma LastCommit(w: World, product: Id, x: Id, read: Option<Latest>)
    requires w.calls == map[0 := CreateWrite(product, x, read)] && CreateCommit(w.store, product, x, read).Wrote?
    ensures Run(w, [Resume(0, None, false)]).store == CreateCommit(w.store, product, x, read).store
  {
    hide CreateCommit;
    var s := [Resume(0, None, false)];
    assert s[..0] == [];
    assert Run(w, s) == Step(w, s[0]);
  }
}
