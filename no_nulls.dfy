/** Null-valued stored fields never reach the assembled output: every item
    and the organisation record itself hold no None anywhere, however deep. */
module NoNulls {
  import opened Builtins
  import opened Records
  import opened Assembler

  /** Every value of the row is a real value. */
  ghost predicate Cleaned(c: Row) {
    forall k | k in c :: c[k] != Null
  }

  lemma CleanRowCleaned(row: Row)
    ensures Cleaned(CleanRow(row))
  {
  }

  lemma LinkListNullFree(rel: string, href: string)
    ensures NullFree(LinkList(rel, href))
  {
    var link := map["rel" := Scalar(Text(rel)), "href" := Scalar(Text(href))];
    assert NullFree(Object(link));
    assert LinkList(rel, href) == Array([Object(link)]);
  }

  /** No key of `keys` holds a None. */
  ghost predicate KeysNullFree(m: Obj, keys: set<string>) {
    forall k | k in keys && k in m :: NullFree(m[k])
  }

  lemma KeyNullFree(m: Obj, k: string)
    requires k in m ==> NullFree(m[k])
    ensures KeysNullFree(m, {k})
  {
  }

  lemma AddKeyNullFree(m: Obj, keys: set<string>, k: string)
    requires KeysNullFree(m, keys) && (k in m ==> NullFree(m[k]))
    ensures KeysNullFree(m, keys + {k})
  {
  }

  lemma UnionNullFree(m: Obj, a: set<string>, b: set<string>)
    requires KeysNullFree(m, a) && KeysNullFree(m, b)
    ensures KeysNullFree(m, a + b)
  {
  }

  lemma FourKeysNullFree(m: Obj, k1: string, k2: string, k3: string, k4: string)
    requires k1 in m ==> NullFree(m[k1])
    requires k2 in m ==> NullFree(m[k2])
    requires k3 in m ==> NullFree(m[k3])
    requires k4 in m ==> NullFree(m[k4])
    ensures KeysNullFree(m, {k1, k2, k3, k4})
  {
  }

  lemma FiveKeysNullFree(m: Obj, k1: string, k2: string, k3: string, k4: string, k5: string)
    requires k1 in m ==> NullFree(m[k1])
    requires k2 in m ==> NullFree(m[k2])
    requires k3 in m ==> NullFree(m[k3])
    requires k4 in m ==> NullFree(m[k4])
    requires k5 in m ==> NullFree(m[k5])
    ensures KeysNullFree(m, {k1, k2, k3, k4, k5})
  {
  }

  /** A record whose written keys hold no None, and whose other keys pass the
      cleaned row's values through, holds no None. */
  lemma ObjectNullFree(c: Row, m: Obj, sources: set<string>, targets: set<string>)
    requires Cleaned(c) && Rest(c, m, sources, targets) && KeysNullFree(m, targets)
    ensures NullFree(Object(m))
  {
    forall k | k in m
      ensures NullFree(m[k])
    {
      if k !in targets {
        assert m[k] == Scalar(c[k]);
      }
    }
  }

  lemma MovedNullFree(c: Row, m: Obj, from: string, to: string)
    requires Cleaned(c) && Moved(c, m, from, to)
    ensures NullFree(m[to])
  {
  }

  lemma KeptNullFree(c: Row, m: Obj, k: string)
    requires Cleaned(c) && Kept(c, m, k)
    ensures k in m ==> NullFree(m[k])
  {
  }

  lemma DateNullFree(c: Row, m: Obj, from: string, to: string)
    requires Cleaned(c) && DateMoved(c, m, from, to)
    ensures to in m ==> NullFree(m[to])
  {
    if !(from in c && c[from].Day?) {
      KeptNullFree(c, m, to);
    }
  }

  /** The four date targets hold no None. */
  lemma DatesNullFree(c: Row, m: Obj, keys: set<string>)
    requires Cleaned(c) && DatesMoved(c, m) && KeysNullFree(m, keys)
    ensures KeysNullFree(m, WithDateTargets(keys))
  {
    DateNullFree(c, m, "operational_start_date", "operationalStartDate");
    AddKeyNullFree(m, keys, "operationalStartDate");
    DateNullFree(c, m, "legal_end_date", "legalEndDate");
    AddKeyNullFree(m, keys + {"operationalStartDate"}, "legalEndDate");
    DateNullFree(c, m, "legal_start_date", "legalStartDate");
    AddKeyNullFree(m, keys + {"operationalStartDate"} + {"legalEndDate"}, "legalStartDate");
    DateNullFree(c, m, "operational_end_date", "operationalEndDate");
    AddKeyNullFree(m, keys + {"operationalStartDate"} + {"legalEndDate"} + {"legalStartDate"}, "operationalEndDate");
  }

  /** An assembled relationship holds no None. */
  lemma RelationshipNullFree(host: string, row: Row, m: Obj)
    requires IsRelationship(host, row, m)
    ensures NullFree(Object(m))
  {
    var c := CleanRow(row);
    CleanRowCleaned(row);
    MovedNullFree(c, m, "target_odscode", "relatedOdsCode");
    MovedNullFree(c, m, "name", "relatedOrganisationName");
    MovedNullFree(c, m, "displayname", "description");
    MovedNullFree(c, m, "status", "status");
    FiveKeysNullFree(m, "uniqueId", "relatedOdsCode", "relatedOrganisationName", "description", "status");
    DatesNullFree(c, m, RelationshipRenamedTargets);
    LinkListNullFree("related-organisation", OrganisationHref(host, c["target_odscode"]));
    AddKeyNullFree(m, WithDateTargets(RelationshipRenamedTargets), "links");
    ObjectNullFree(c, m, RelationshipSources, RelationshipTargets);
  }

  /** An assembled role holds no None. */
  lemma RoleNullFree(host: string, row: Row, m: Obj)
    requires IsRole(host, row, m)
    ensures NullFree(Object(m))
  {
    var c := CleanRow(row);
    CleanRowCleaned(row);
    MovedNullFree(c, m, "code", "code");
    MovedNullFree(c, m, "displayname", "description");
    MovedNullFree(c, m, "primary_role", "primaryRole");
    KeptNullFree(c, m, "status");
    if !("unique_id" in c && CellToInt(c["unique_id"]).Some?) {
      KeptNullFree(c, m, "uniqueId");
    }
    FiveKeysNullFree(m, "code", "description", "primaryRole", "status", "uniqueId");
    DatesNullFree(c, m, RoleRenamedTargets);
    LinkListNullFree("role-type", RoleTypeHref(host, c["code"]));
    AddKeyNullFree(m, WithDateTargets(RoleRenamedTargets), "links");
    ObjectNullFree(c, m, RoleSources, RoleTargets);
  }

  /** An assembled address holds no None; its lines are the row's values. */
  lemma AddressNullFree(row: Row, m: Obj)
    requires IsAddress(row, m)
    ensures NullFree(Object(m))
  {
    var c := CleanRow(row);
    CleanRowCleaned(row);
    var lines := AddressLines(c);
    assert forall x | x in lines :: NullFree(x);
    if |lines| > 0 {
      assert NullFree(Array(lines));
    } else {
      KeptNullFree(c, m, "addressLines");
    }
    if "post_code" in c {
      MovedNullFree(c, m, "post_code", "postCode");
    } else {
      KeptNullFree(c, m, "postCode");
    }
    KeyNullFree(m, "addressLines");
    AddKeyNullFree(m, {"addressLines"}, "postCode");
    assert AddressTargets == {"addressLines"} + {"postCode"};
    ObjectNullFree(c, m, AddressSources, AddressTargets);
  }

  /** An assembled successor or predecessor holds no None. */
  lemma SuccessorNullFree(host: string, row: Row, m: Obj)
    requires IsSuccessor(host, row, m)
    ensures NullFree(Object(m))
  {
    var c := CleanRow(row);
    CleanRowCleaned(row);
    LinkListNullFree(AsciiLower(c["type"].s), OrganisationHref(host, c["targetodscode"]));
    MovedNullFree(c, m, "targetodscode", "targetOdsCode");
    MovedNullFree(c, m, "targetprimaryrolecode", "targetPrimaryRoleCode");
    MovedNullFree(c, m, "targetname", "targetName");
    MovedNullFree(c, m, "uniqueid", "uniqueId");
    FiveKeysNullFree(m, "targetOdsCode", "targetPrimaryRoleCode", "targetName", "uniqueId", "links");
    ObjectNullFree(c, m, SuccessorSources, SuccessorTargets);
  }

  lemma {:induction false} RelationshipsNullFree(host: string, rows: seq<Row>, items: seq<Json>)
    requires RelationshipsOf(host, rows, items)
    ensures NullFree(Array(items))
  {
    forall i | 0 <= i < |items|
      ensures NullFree(items[i])
    {
      assert RelationshipItem(host, rows[i], items[i]);
      RelationshipNullFree(host, rows[i], items[i].fields);
    }
  }

  lemma {:induction false} RolesNullFree(host: string, rows: seq<Row>, items: seq<Json>)
    requires RolesOf(host, rows, items)
    ensures NullFree(Array(items))
  {
    forall i | 0 <= i < |items|
      ensures NullFree(items[i])
    {
      assert RoleItem(host, rows[i], items[i]);
      RoleNullFree(host, rows[i], items[i].fields);
    }
  }

  lemma {:induction false} AddressesNullFree(rows: seq<Row>, items: seq<Json>)
    requires AddressesOf(rows, items)
    ensures NullFree(Array(items))
  {
    forall i | 0 <= i < |items|
      ensures NullFree(items[i])
    {
      assert AddressItem(rows[i], items[i]);
      AddressNullFree(rows[i], items[i].fields);
    }
  }

  lemma {:induction false} SuccessorsNullFree(host: string, rows: seq<Row>, items: seq<Json>)
    requires SuccessorsOf(host, rows, items)
    ensures NullFree(Array(items))
  {
    forall i | 0 <= i < |items|
      ensures NullFree(items[i])
    {
      assert SuccessorItem(host, rows[i], items[i]);
      SuccessorNullFree(host, rows[i], items[i].fields);
    }
  }

  /** The record `get_organisation_by_odscode` returns holds no None. */
  lemma OrganisationNullFree(host: string, row: Row, relationshipRows: seq<Row>, roleRows: seq<Row>,
                             addressRows: seq<Row>, successorRows: seq<Row>, m: Obj)
    requires IsOrganisation(host, row, relationshipRows, roleRows, addressRows, successorRows, m)
    ensures NullFree(Object(m))
  {
    var c := CleanRow(row);
    CleanRowCleaned(row);
    RelationshipsNullFree(host, relationshipRows, m["relationships"].items);
    RolesNullFree(host, roleRows, m["roles"].items);
    AddressesNullFree(addressRows, m["addresses"].items);
    SuccessorsNullFree(host, successorRows, m["successors"].items);
    FourKeysNullFree(m, "relationships", "roles", "addresses", "successors");
    MovedNullFree(c, m, "odscode", "odsCode");
    MovedNullFree(c, m, "last_changed", "lastChangeDate");
    MovedNullFree(c, m, "record_class", "recordClass");
    LinkListNullFree("self", OrganisationHref(host, c["odscode"]));
    FourKeysNullFree(m, "odsCode", "lastChangeDate", "refOnly", "recordClass");
    UnionNullFree(m, ListKeys, {"odsCode", "lastChangeDate", "refOnly", "recordClass"});
    AddKeyNullFree(m, OrganisationMovedTargets, "links");
    DatesNullFree(c, m, OrganisationRenamedTargets);
    ObjectNullFree(c, m, OrganisationSources, OrganisationTargets);
  }
}
