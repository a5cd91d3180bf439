/** What publishing and deleting a config version do with nothing beside them, written out row by row. */
module ConfigVersionEffects {
  import opened Wrappers
  import opened Tables
  import opened ConfigVersions

  /** `found` is a row of the product with the highest version, or the product has no row. */
  ghost predicate IsHighest(rows: map<Id, Config>, product: Id, found: Option<Id>) {
    && (found.None? ==> forall j: Id :: j in rows ==> rows[j].product != product)
    && (found.Some? ==>
          found.value in rows && rows[found.value].product == product
          && forall j: Id :: j in rows && rows[j].product == product ==>
               rows[j].version <= rows[found.value].version)
  }

  /** A create publishes the version after the highest one as the active one, linked to it, and takes the flag from it;
      the first version is 1. It changes nothing at all when the id was used before or the highest version already has
      a successor. */
  lemma CreateEffect(s: Store, product: Id, id: Id, found: Option<Id>, referenced: bool)
    requires IsHighest(s.rows, product, found)
    ensures var s' := Alone(s, Create(product, id), found, referenced);
            var succeeded := found.Some? && exists j: Id :: j in s.rows && s.rows[j].previous == found;
            if id in s.created || succeeded then s' == s
            else if found.None? then
              s' == Store(s.rows[id := Config(product, 1, true, None)], s.created + {id},
                          s.issued + [Issue(product, 1)])
            else
              var last := s.rows[found.value];
              var next := Config(product, last.version + 1, true, found);
              s' == Store(s.rows[found.value := last.(active := false)][id := next], s.created + {id},
                          s.issued + [Issue(product, last.version + 1)])
  {
    if found.Some? {
      var last := s.rows[found.value];
      assert !last.active ==> s.rows[found.value := last.(active := false)] == s.rows;
    }
  }

  /** A delete removes an inactive version of the product that no application was priced with, and nothing but the link
      of its successor changes; any other delete changes nothing. */
  lemma DeleteEffect(s: Store, product: Id, id: Id, found: Option<Id>, referenced: bool)
    ensures var s' := Alone(s, Delete(product, id), found, referenced);
            var allowed := id in s.rows && s.rows[id].product == product && !s.rows[id].active && !referenced;
            && s'.created == s.created && s'.issued == s.issued
            && (!allowed ==> s' == s)
            && (allowed ==>
                  && s'.rows.Keys == s.rows.Keys - {id}
                  && forall j: Id :: j in s'.rows ==>
                       s'.rows[j] == if s.rows[j].previous == Some(id) then s.rows[j].(previous := None) else s.rows[j])
  {
  }
}
