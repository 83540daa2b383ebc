/** The record assembler of `get_organisation_by_odscode` (db.py:296-610): the
    organisation row and the rows of its relationships, roles, addresses and
    successors, each cleaned of None values, renamed from the stored column
    names to the external camel-case names by pop-and-insert, given its links,
    and merged into one dictionary. A pop of a key that is not there raises
    KeyError, which the outer handler turns into a None result; here every
    such failure is `None`.

    Each assembly is specified key by key in terms of the cleaned row `c`:
    which keys it moves (`Moved`), which it keeps (`Kept`), how the four
    date columns fare (`DatesMoved`), and that every other column passes
    through untouched (`Rest`). */
module Assembler {
  import opened Builtins
  import opened Records

  // ---------------------------------------------------------------------
  // What an assembled dictionary holds, key by key, in terms of the
  // cleaned row `c` it came from

  /** `to` holds what `from` held. */
  ghost predicate Moved(c: Row, m: Obj, from: string, to: string) {
    from in c && to in m && m[to] == Scalar(c[from])
  }

  /** Key `k` is present and valued exactly as in the row. */
  ghost predicate Kept(c: Row, m: Obj, k: string) {
    (k in m <==> k in c) && (k in m ==> m[k] == Scalar(c[k]))
  }

  /** A date column moved under try/except: `to` holds the ISO text when the
      column held a date, and is otherwise as in the row. */
  ghost predicate DateMoved(c: Row, m: Obj, from: string, to: string) {
    if from in c && c[from].Day? then to in m && m[to] == Scalar(Text(IsoFormat(c[from].d)))
    else Kept(c, m, to)
  }

  /** The four date columns moved in the order the source moves them. */
  ghost predicate DatesMoved(c: Row, m: Obj) {
    && DateMoved(c, m, "operational_start_date", "operationalStartDate")
    && DateMoved(c, m, "legal_end_date", "legalEndDate")
    && DateMoved(c, m, "legal_start_date", "legalStartDate")
    && DateMoved(c, m, "operational_end_date", "operationalEndDate")
  }

  /** `keys` and the four date columns, added in the order they are popped. */
  function WithDateSources(keys: set<string>): set<string> {
    keys + {"operational_start_date"} + {"legal_end_date"} + {"legal_start_date"} + {"operational_end_date"}
  }

  /** `keys` and the four date targets, added in the order they are written. */
  function WithDateTargets(keys: set<string>): set<string> {
    keys + {"operationalStartDate"} + {"legalEndDate"} + {"legalStartDate"} + {"operationalEndDate"}
  }

  /** None of the date columns or date targets is among `keys`. */
  predicate ApartFromDates(keys: set<string>) {
    && "operational_start_date" !in keys && "legal_end_date" !in keys
    && "legal_start_date" !in keys && "operational_end_date" !in keys
    && "operationalStartDate" !in keys && "legalEndDate" !in keys
    && "legalStartDate" !in keys && "operationalEndDate" !in keys
  }

  /** Outside the keys an assembly writes (`targets`), a key is present exactly
      when the row has it and the assembly did not pop it (`sources`), with
      the row's value. */
  ghost predicate Rest(c: Row, m: Obj, sources: set<string>, targets: set<string>) {
    forall k | k !in targets :: (k in m <==> k in c && k !in sources) && (k in m ==> m[k] == Scalar(c[k]))
  }

  /** Every key of `keys` is untouched from `d` to `r`. */
  ghost predicate Agree(d: Obj, r: Obj, keys: set<string>) {
    forall k | k in keys :: (k in r <==> k in d) && (k in r ==> r[k] == d[k])
  }

  /** A write extends the written keys. */
  lemma RestSet(c: Row, m: Obj, sources: set<string>, targets: set<string>, k: string, v: Json)
    requires Rest(c, m, sources, targets)
    ensures Rest(c, m[k := v], sources, targets + {k})
  {
  }

  /** The cleaned row's value under `k`, as a one-element list, or nothing. */
  function Present(c: Row, k: string): seq<Json> {
    if k in c then [Scalar(c[k])] else []
  }

  // ---------------------------------------------------------------------
  // The tolerant date moves every record and item shares

  /** Every key other than `from` and `to` is untouched. */
  ghost predicate Unchanged(d: Obj, r: Obj, from: string, to: string) {
    forall k | k != from && k != to :: (k in r <==> k in d) && (k in r ==> r[k] == d[k])
  }

  /** What `try: d[to] = d.pop(from).isoformat() except: pass` does to `d`:
      the pop happens even when the value turns out not to be a date, so
      `from` is gone either way; `to` is written only for a date; every
      other key is untouched. */
  ghost predicate DateStepped(d: Obj, r: Obj, from: string, to: string) {
    && from !in r
    && (if from in d && JsonIso(d[from]).Some?
        then to in r && r[to] == Scalar(Text(JsonIso(d[from]).value))
        else (to in r <==> to in d) && (to in r ==> r[to] == d[to]))
    && Unchanged(d, r, from, to)
  }

  method MoveDate(d: Obj, from: string, to: string) returns (r: Obj)
    requires from != to
    ensures DateStepped(d, r, from, to)
  {
    r := d;
    if from in r {
      var value := r[from];
      r := r - {from};
      var iso := JsonIso(value);
      if iso.Some? {
        r := r[to := Scalar(Text(iso.value))];
      }
    }
  }

  /** A tolerant date move of a column nothing has popped or written yet
      leaves the target as `DateMoved` says. */
  lemma DateStep(c: Row, m: Obj, r: Obj, sources: set<string>, targets: set<string>, from: string, to: string)
    requires Rest(c, m, sources, targets)
    requires from !in sources && from !in targets && to !in sources && to !in targets && from != to
    requires DateStepped(m, r, from, to)
    ensures DateMoved(c, r, from, to)
    ensures Rest(c, r, sources + {from}, targets + {to})
  {
  }

  /** Two consecutive tolerant date moves. */
  method MoveTwoDates(ghost c: Row, d: Obj, ghost sources: set<string>, ghost targets: set<string>,
                      from1: string, to1: string, from2: string, to2: string) returns (r: Obj)
    requires Rest(c, d, sources, targets)
    requires from1 !in sources && from1 !in targets && to1 !in sources && to1 !in targets && from1 != to1
    requires from2 !in sources && from2 !in targets && to2 !in sources && to2 !in targets && from2 != to2
    requires from2 != from1 && from2 != to1 && to2 != from1 && to2 != to1
    ensures DateMoved(c, r, from1, to1) && DateMoved(c, r, from2, to2)
    ensures Rest(c, r, sources + {from1} + {from2}, targets + {to1} + {to2})
    ensures Agree(d, r, targets)
  {
    var d1 := MoveDate(d, from1, to1);
    DateStep(c, d, d1, sources, targets, from1, to1);
    r := MoveDate(d1, from2, to2);
    DateStep(c, d1, r, sources + {from1}, targets + {to1}, from2, to2);
  }

  /** The four tolerant date moves, in source order, on a dictionary in which
      no date column has been popped or written. */
  method MoveDates(ghost c: Row, d: Obj, ghost sources: set<string>, ghost targets: set<string>) returns (r: Obj)
    requires Rest(c, d, sources, targets)
    requires ApartFromDates(sources) && ApartFromDates(targets)
    ensures DatesMoved(c, r)
    ensures Rest(c, r, WithDateSources(sources), WithDateTargets(targets))
    ensures Agree(d, r, targets)
  {
    var half := MoveTwoDates(c, d, sources, targets,
      "operational_start_date", "operationalStartDate", "legal_end_date", "legalEndDate");
    ghost var s2 := sources + {"operational_start_date"} + {"legal_end_date"};
    ghost var t2 := targets + {"operationalStartDate"} + {"legalEndDate"};
    r := MoveTwoDates(c, half, s2, t2,
      "legal_start_date", "legalStartDate", "operational_end_date", "operationalEndDate");
    assert Agree(half, r, t2);
  }

  // ---------------------------------------------------------------------
  // Relationships (db.py:408-452)

  const RelationshipRenamedSources: set<string> := {"unique_id", "target_odscode", "name", "displayname", "status"}
  const RelationshipRenamedTargets: set<string> := {"uniqueId", "relatedOdsCode", "relatedOrganisationName", "description", "status"}
  const RelationshipSources: set<string> := WithDateSources(RelationshipRenamedSources)
  const RelationshipTargets: set<string> := WithDateTargets(RelationshipRenamedTargets) + {"links"}

  /** Every column a relationship pops outside a try block is there, and the
      unique id converts. */
  ghost predicate RelationshipComplete(c: Row) {
    && "target_odscode" in c && "unique_id" in c && CellToInt(c["unique_id"]).Some?
    && "name" in c && "displayname" in c && "status" in c
  }

  /** A relationship row fails when a column popped outside a try block is
      None, or `int()` rejects its unique id. */
  ghost predicate RelationshipFails(row: Row) {
    !RelationshipComplete(CleanRow(row))
  }

  /** The columns a relationship renames, renamed. */
  ghost predicate RelationshipRenamed(c: Row, m: Obj) {
    && "unique_id" in c && CellToInt(c["unique_id"]).Some?
    && "uniqueId" in m && m["uniqueId"] == Scalar(Int(CellToInt(c["unique_id"]).value))
    && Moved(c, m, "target_odscode", "relatedOdsCode")
    && Moved(c, m, "name", "relatedOrganisationName")
    && Moved(c, m, "displayname", "description")
    && Moved(c, m, "status", "status")
  }

  /** The dictionary the relationship loop (db.py:413-450) appends for `row`. */
  ghost predicate IsRelationship(host: string, row: Row, m: Obj) {
    var c := CleanRow(row);
    && RelationshipRenamed(c, m)
    && DatesMoved(c, m)
    && "links" in m && m["links"] == LinkList("related-organisation", OrganisationHref(host, c["target_odscode"]))
    && Rest(c, m, RelationshipSources, RelationshipTargets)
  }

  lemma RelationshipKeysApart()
    ensures ApartFromDates(RelationshipRenamedSources) && ApartFromDates(RelationshipRenamedTargets)
  {
  }

  /** The pops of a relationship outside any try block (db.py:419-423), on
      the cleaned row `c`: the unique id through `int()`, then four renames. */
  method RenameRelationship(c: Row) returns (r: Option<Obj>)
    ensures r.None? <==> !RelationshipComplete(c)
    ensures r.Some? ==> RelationshipRenamed(c, r.value) && Rest(c, r.value, RelationshipRenamedSources, RelationshipRenamedTargets)
  {
    var m0 := Lift(c);
    if "unique_id" !in m0 {
      return None;
    }
    var uniqueId := JsonToInt(m0["unique_id"]);
    assert uniqueId == CellToInt(c["unique_id"]);
    var m1 := m0 - {"unique_id"};
    if uniqueId.None? {
      return None;
    }
    var m2 := m1["uniqueId" := Scalar(Int(uniqueId.value))];
    if "target_odscode" !in m2 {
      return None;
    }
    var m3 := (m2 - {"target_odscode"})["relatedOdsCode" := m2["target_odscode"]];
    if "name" !in m3 {
      return None;
    }
    var m4 := (m3 - {"name"})["relatedOrganisationName" := m3["name"]];
    if "displayname" !in m4 {
      return None;
    }
    var m5 := (m4 - {"displayname"})["description" := m4["displayname"]];
    if "status" !in m5 {
      return None;
    }
    var m6 := (m5 - {"status"})["status" := m5["status"]];
    return Some(m6);
  }

  /** The facts the steps of `AssembleRelationship` leave behind add up to
      `IsRelationship`. */
  lemma RelationshipAssembled(host: string, row: Row, renamed: Obj, dated: Obj, m: Obj)
    requires RelationshipComplete(CleanRow(row))
    requires RelationshipRenamed(CleanRow(row), renamed)
    requires DatesMoved(CleanRow(row), dated)
    requires Rest(CleanRow(row), dated, WithDateSources(RelationshipRenamedSources), WithDateTargets(RelationshipRenamedTargets))
    requires Agree(renamed, dated, RelationshipRenamedTargets)
    requires m == dated["links" := LinkList("related-organisation", OrganisationHref(host, CleanRow(row)["target_odscode"]))]
    ensures IsRelationship(host, row, m)
  {
    var c := CleanRow(row);
    assert RelationshipRenamed(c, dated);
    RestSet(c, dated, WithDateSources(RelationshipRenamedSources), WithDateTargets(RelationshipRenamedTargets), "links", m["links"]);
  }

  /** One pass of the relationship loop (db.py:413-450). */
  method AssembleRelationship(host: string, row: Row) returns (r: Option<Obj>)
    ensures r.None? <==> RelationshipFails(row)
    ensures r.Some? ==> IsRelationship(host, row, r.value)
  {
    var c := CleanRow(row);
    if "target_odscode" !in c {
      return None;
    }
    var href := host + "/organisations/" + CellText(c["target_odscode"]);
    var renamed := RenameRelationship(c);
    if renamed.None? {
      return None;
    }
    RelationshipKeysApart();
    var dated := MoveDates(c, renamed.value, RelationshipRenamedSources, RelationshipRenamedTargets);
    var m := dated["links" := LinkList("related-organisation", href)];
    RelationshipAssembled(host, row, renamed.value, dated, m);
    return Some(m);
  }

  // ---------------------------------------------------------------------
  // Roles (db.py:454-506)

  const RoleMovedSources: set<string> := {"code", "displayname", "primary_role", "status"}
  const RoleMovedTargets: set<string> := {"code", "description", "primaryRole", "status"}
  const RoleRenamedSources: set<string> := RoleMovedSources + {"unique_id"}
  const RoleRenamedTargets: set<string> := RoleMovedTargets + {"uniqueId"}
  const RoleSources: set<string> := WithDateSources(RoleRenamedSources)
  const RoleTargets: set<string> := WithDateTargets(RoleRenamedTargets) + {"links"}

  /** Every column a role pops outside a try block is there. */
  ghost predicate RoleComplete(c: Row) {
    "code" in c && "displayname" in c && "primary_role" in c
  }

  /** A role row fails when its code, display name or primary-role flag is None. */
  ghost predicate RoleFails(row: Row) {
    !RoleComplete(CleanRow(row))
  }

  /** The unique id under try/except: popped when there, and written as an
      integer only when `int()` accepts it. */
  ghost predicate RoleUniqueId(c: Row, m: Obj) {
    if "unique_id" in c && CellToInt(c["unique_id"]).Some?
    then "uniqueId" in m && m["uniqueId"] == Scalar(Int(CellToInt(c["unique_id"]).value))
    else Kept(c, m, "uniqueId")
  }

  /** The three required renames done; `status` is popped and put back. */
  ghost predicate RoleMoved(c: Row, m: Obj) {
    && Moved(c, m, "code", "code")
    && Moved(c, m, "displayname", "description")
    && Moved(c, m, "primary_role", "primaryRole")
    && Kept(c, m, "status")
  }

  /** The columns a role renames, renamed. */
  ghost predicate RoleRenamed(c: Row, m: Obj) {
    RoleMoved(c, m) && RoleUniqueId(c, m)
  }

  /** The dictionary the role loop (db.py:459-504) appends for `row`. */
  ghost predicate IsRole(host: string, row: Row, m: Obj) {
    var c := CleanRow(row);
    && RoleComplete(c)
    && RoleRenamed(c, m)
    && DatesMoved(c, m)
    && "links" in m && m["links"] == LinkList("role-type", RoleTypeHref(host, c["code"]))
    && Rest(c, m, RoleSources, RoleTargets)
  }

  lemma RoleKeysApart()
    ensures ApartFromDates(RoleRenamedSources) && ApartFromDates(RoleRenamedTargets)
  {
  }

  /** The three renames of db.py:465-467 on the cleaned row `c`, then
      `status` under try/except (db.py:469-472). */
  method MoveRoleColumns(c: Row) returns (r: Option<Obj>)
    ensures r.None? <==> !RoleComplete(c)
    ensures r.Some? ==> RoleMoved(c, r.value) && Rest(c, r.value, RoleMovedSources, RoleMovedTargets)
  {
    var m0 := Lift(c);
    if "code" !in m0 {
      return None;
    }
    var m1 := (m0 - {"code"})["code" := m0["code"]];
    if "displayname" !in m1 {
      return None;
    }
    var m2 := (m1 - {"displayname"})["description" := m1["displayname"]];
    if "primary_role" !in m2 {
      return None;
    }
    var m3 := (m2 - {"primary_role"})["primaryRole" := m2["primary_role"]];
    var m4 := m3;
    if "status" in m3 {
      m4 := (m3 - {"status"})["status" := m3["status"]];
    }
    return Some(m4);
  }

  /** The unique id under try/except (db.py:474-477): popped, and written
      back as an integer when `int()` accepts it. */
  method MoveUniqueId(c: Row, d: Obj) returns (m: Obj)
    requires Rest(c, d, RoleMovedSources, RoleMovedTargets)
    ensures RoleUniqueId(c, m) && Rest(c, m, RoleRenamedSources, RoleRenamedTargets)
    ensures Agree(d, m, RoleMovedTargets)
  {
    m := d;
    if "unique_id" in d {
      var value := d["unique_id"];
      assert value == Scalar(c["unique_id"]);
      m := d - {"unique_id"};
      var uniqueId := JsonToInt(value);
      if uniqueId.Some? {
        m := m["uniqueId" := Scalar(Int(uniqueId.value))];
      }
    }
  }

  /** The renames of a role before its dates (db.py:465-477) on the cleaned
      row `c`: three that must succeed, then status and unique id under
      try/except. */
  method RenameRole(c: Row) returns (r: Option<Obj>)
    ensures r.None? <==> !RoleComplete(c)
    ensures r.Some? ==> RoleRenamed(c, r.value) && Rest(c, r.value, RoleRenamedSources, RoleRenamedTargets)
  {
    var moved := MoveRoleColumns(c);
    if moved.None? {
      return None;
    }
    var m := MoveUniqueId(c, moved.value);
    return Some(m);
  }

  lemma RoleAssembled(host: string, row: Row, renamed: Obj, dated: Obj, m: Obj)
    requires RoleComplete(CleanRow(row))
    requires RoleRenamed(CleanRow(row), renamed)
    requires DatesMoved(CleanRow(row), dated)
    requires Rest(CleanRow(row), dated, WithDateSources(RoleRenamedSources), WithDateTargets(RoleRenamedTargets))
    requires Agree(renamed, dated, RoleRenamedTargets)
    requires m == dated["links" := LinkList("role-type", RoleTypeHref(host, CleanRow(row)["code"]))]
    ensures IsRole(host, row, m)
  {
    var c := CleanRow(row);
    assert RoleRenamed(c, dated);
    RestSet(c, dated, WithDateSources(RoleRenamedSources), WithDateTargets(RoleRenamedTargets), "links", m["links"]);
  }

  /** One pass of the role loop (db.py:459-504). */
  method AssembleRole(host: string, row: Row) returns (r: Option<Obj>)
    ensures r.None? <==> RoleFails(row)
    ensures r.Some? ==> IsRole(host, row, r.value)
  {
    var c := CleanRow(row);
    if "code" !in c {
      return None;
    }
    var href := host + "/role-types/" + CellText(c["code"]);
    var renamed := RenameRole(c);
    if renamed.None? {
      return None;
    }
    RoleKeysApart();
    var dated := MoveDates(c, renamed.value, RoleRenamedSources, RoleRenamedTargets);
    var m := dated["links" := LinkList("role-type", href)];
    RoleAssembled(host, row, renamed.value, dated, m);
    return Some(m);
  }

  // ---------------------------------------------------------------------
  // Addresses (db.py:508-541)

  const AddressSources: set<string> := {"address_line1", "address_line2", "address_line3", "post_code"}
  const AddressTargets: set<string> := {"addressLines", "postCode"}

  /** The address lines that are there, in order. */
  function AddressLines(c: Row): seq<Json> {
    Present(c, "address_line1") + Present(c, "address_line2") + Present(c, "address_line3")
  }

  /** The dictionary the address loop (db.py:512-539) appends for `row`. */
  ghost predicate IsAddress(row: Row, m: Obj) {
    var c := CleanRow(row);
    && (if |AddressLines(c)| > 0 then "addressLines" in m && m["addressLines"] == Array(AddressLines(c))
        else Kept(c, m, "addressLines"))
    && (if "post_code" in c then Moved(c, m, "post_code", "postCode") else Kept(c, m, "postCode"))
    && Rest(c, m, AddressSources, AddressTargets)
  }

  /** The three line pops of db.py:513-529: the lines that are there, in
      order, and the record without them. */
  method PopAddressLines(c: Row) returns (lines: seq<Json>, m: Obj)
    ensures lines == AddressLines(c)
    ensures m == Lift(c) - {"address_line1", "address_line2", "address_line3"}
  {
    var m0 := Lift(c);
    lines := [];
    var m1 := m0;
    if "address_line1" in m1 {
      lines := lines + [m1["address_line1"]];
      m1 := m1 - {"address_line1"};
    }
    var m2 := m1;
    if "address_line2" in m2 {
      lines := lines + [m2["address_line2"]];
      m2 := m2 - {"address_line2"};
    }
    m := m2;
    if "address_line3" in m {
      lines := lines + [m["address_line3"]];
      m := m - {"address_line3"};
    }
  }

  /** One pass of the address loop (db.py:512-539); every pop is under
      try/except, so an address never fails. */
  method AssembleAddress(row: Row) returns (m: Obj)
    ensures IsAddress(row, m)
  {
    var c := CleanRow(row);
    var lines, m3 := PopAddressLines(c);
    var m4 := m3;
    if |lines| > 0 {
      m4 := m3["addressLines" := Array(lines)];
    }
    m := m4;
    if "post_code" in m4 {
      m := (m4 - {"post_code"})["postCode" := m4["post_code"]];
    }
  }

  // ---------------------------------------------------------------------
  // Successors and predecessors (db.py:543-565)

  const SuccessorSources: set<string> := {"targetodscode", "targetprimaryrolecode", "targetname", "uniqueid"}
  const SuccessorRenamedTargets: set<string> := {"targetOdsCode", "targetPrimaryRoleCode", "targetName", "uniqueId"}
  const SuccessorTargets: set<string> := SuccessorRenamedTargets + {"links"}

  /** Every renamed column is there after cleaning and the type is text. The
      link address is read from the row before cleaning, but a target that is
      None there is gone after it, so this covers that lookup too. */
  ghost predicate SuccessorComplete(c: Row) {
    && "targetodscode" in c && "targetprimaryrolecode" in c && "targetname" in c && "uniqueid" in c
    && "type" in c && c["type"].Text?
  }

  ghost predicate SuccessorFails(row: Row) {
    !SuccessorComplete(CleanRow(row))
  }

  /** The four renames of db.py:553-556 done. */
  ghost predicate SuccessorRenamed(c: Row, m: Obj) {
    && Moved(c, m, "targetodscode", "targetOdsCode")
    && Moved(c, m, "targetprimaryrolecode", "targetPrimaryRoleCode")
    && Moved(c, m, "targetname", "targetName")
    && Moved(c, m, "uniqueid", "uniqueId")
  }

  /** The dictionary the successor loop (db.py:547-563) appends for `row`;
      the link's relation is the lower-cased type. */
  ghost predicate IsSuccessor(host: string, row: Row, m: Obj) {
    var c := CleanRow(row);
    && SuccessorComplete(c)
    && SuccessorRenamed(c, m)
    && "links" in m && m["links"] == LinkList(AsciiLower(c["type"].s), OrganisationHref(host, c["targetodscode"]))
    && Rest(c, m, SuccessorSources, SuccessorTargets)
  }

  /** The four renames of db.py:553-556 on the cleaned row `c`. */
  method RenameSuccessor(c: Row) returns (r: Option<Obj>)
    ensures r.None? <==> !("targetodscode" in c && "targetprimaryrolecode" in c && "targetname" in c && "uniqueid" in c)
    ensures r.Some? ==> SuccessorRenamed(c, r.value) && Rest(c, r.value, SuccessorSources, SuccessorRenamedTargets)
  {
    var m0 := Lift(c);
    if "targetodscode" !in m0 {
      return None;
    }
    var m1 := (m0 - {"targetodscode"})["targetOdsCode" := m0["targetodscode"]];
    if "targetprimaryrolecode" !in m1 {
      return None;
    }
    var m2 := (m1 - {"targetprimaryrolecode"})["targetPrimaryRoleCode" := m1["targetprimaryrolecode"]];
    if "targetname" !in m2 {
      return None;
    }
    var m3 := (m2 - {"targetname"})["targetName" := m2["targetname"]];
    if "uniqueid" !in m3 {
      return None;
    }
    var m4 := (m3 - {"uniqueid"})["uniqueId" := m3["uniqueid"]];
    return Some(m4);
  }

  /** One pass of the successor loop (db.py:547-563). */
  method AssembleSuccessor(host: string, row: Row) returns (r: Option<Obj>)
    ensures r.None? <==> SuccessorFails(row)
    ensures r.Some? ==> IsSuccessor(host, row, r.value)
  {
    if "targetodscode" !in row {
      return None;
    }
    var href := host + "/organisations/" + CellText(row["targetodscode"]);
    var c := CleanRow(row);
    var renamed := RenameSuccessor(c);
    if renamed.None? {
      return None;
    }
    var d := renamed.value;
    assert href == OrganisationHref(host, c["targetodscode"]);
    if "type" !in d || !d["type"].Scalar? || !d["type"].c.Text? {
      return None;
    }
    assert d["type"] == Scalar(c["type"]);
    var rel := AsciiLower(d["type"].c.s);
    var m := d["links" := LinkList(rel, href)];
    RestSet(c, d, SuccessorSources, SuccessorRenamedTargets, "links", m["links"]);
    return Some(m);
  }

  // ---------------------------------------------------------------------
  // The four loops (db.py:409-565)

  ghost predicate RelationshipItem(host: string, row: Row, item: Json) {
    item.Object? && IsRelationship(host, row, item.fields)
  }

  ghost predicate RoleItem(host: string, row: Row, item: Json) {
    item.Object? && IsRole(host, row, item.fields)
  }

  ghost predicate AddressItem(row: Row, item: Json) {
    item.Object? && IsAddress(row, item.fields)
  }

  ghost predicate SuccessorItem(host: string, row: Row, item: Json) {
    item.Object? && IsSuccessor(host, row, item.fields)
  }

  ghost predicate RelationshipsOf(host: string, rows: seq<Row>, items: seq<Json>) {
    |items| == |rows| && forall i | 0 <= i < |rows| :: RelationshipItem(host, rows[i], items[i])
  }

  ghost predicate RolesOf(host: string, rows: seq<Row>, items: seq<Json>) {
    |items| == |rows| && forall i | 0 <= i < |rows| :: RoleItem(host, rows[i], items[i])
  }

  ghost predicate AddressesOf(rows: seq<Row>, items: seq<Json>) {
    |items| == |rows| && forall i | 0 <= i < |rows| :: AddressItem(rows[i], items[i])
  }

  ghost predicate SuccessorsOf(host: string, rows: seq<Row>, items: seq<Json>) {
    |items| == |rows| && forall i | 0 <= i < |rows| :: SuccessorItem(host, rows[i], items[i])
  }

  /** One pass of the relationship loop (db.py:413-450): the next row's dictionary
      appended to the items so far, or `None` if that row fails. */
  method AppendRelationship(host: string, rows: seq<Row>, items: seq<Json>) returns (r: Option<seq<Json>>)
    requires |items| < |rows|
    requires forall j | 0 <= j < |items| :: RelationshipItem(host, rows[j], items[j])
    ensures r.None? <==> RelationshipFails(rows[|items|])
    ensures r.Some? ==> && |r.value| == |items| + 1
                        && forall j | 0 <= j < |r.value| :: RelationshipItem(host, rows[j], r.value[j])
  {
    var item := RelationshipEntry(host, rows[|items|]);
    if item.None? {
      return None;
    }
    return Some(items + [item.value]);
  }

  /** One relationship dictionary as an element of the list. */
  method RelationshipEntry(host: string, row: Row) returns (r: Option<Json>)
    ensures r.None? <==> RelationshipFails(row)
    ensures r.Some? ==> RelationshipItem(host, row, r.value)
  {
    var item := AssembleRelationship(host, row);
    if item.None? {
      return None;
    }
    return Some(Object(item.value));
  }

  /** The relationship loop (db.py:409-450): one item per row, in order, or
      `None` as soon as one row fails. */
  method AssembleRelationships(host: string, rows: seq<Row>) returns (r: Option<seq<Json>>)
    ensures r.None? <==> exists i | 0 <= i < |rows| :: RelationshipFails(rows[i])
    ensures r.Some? ==> RelationshipsOf(host, rows, r.value)
  {
    var items: seq<Json> := [];
    for i := 0 to |rows|
      invariant |items| == i
      invariant forall j | 0 <= j < i :: RelationshipItem(host, rows[j], items[j])
      invariant forall j | 0 <= j < i :: !RelationshipFails(rows[j])
    {
      var next := AppendRelationship(host, rows, items);
      if next.None? {
        return None;
      }
      items := next.value;
    }
    return Some(items);
  }

  /** One pass of the role loop (db.py:459-504): the next row's dictionary
      appended to the items so far, or `None` if that row fails. */
  method AppendRole(host: string, rows: seq<Row>, items: seq<Json>) returns (r: Option<seq<Json>>)
    requires |items| < |rows|
    requires forall j | 0 <= j < |items| :: RoleItem(host, rows[j], items[j])
    ensures r.None? <==> RoleFails(rows[|items|])
    ensures r.Some? ==> && |r.value| == |items| + 1
                        && forall j | 0 <= j < |r.value| :: RoleItem(host, rows[j], r.value[j])
  {
    var item := RoleEntry(host, rows[|items|]);
    if item.None? {
      return None;
    }
    return Some(items + [item.value]);
  }

  /** One role dictionary as an element of the list. */
  method RoleEntry(host: string, row: Row) returns (r: Option<Json>)
    ensures r.None? <==> RoleFails(row)
    ensures r.Some? ==> RoleItem(host, row, r.value)
  {
    var item := AssembleRole(host, row);
    if item.None? {
      return None;
    }
    return Some(Object(item.value));
  }

  /** The role loop (db.py:455-504). */
  method AssembleRoles(host: string, rows: seq<Row>) returns (r: Option<seq<Json>>)
    ensures r.None? <==> exists i | 0 <= i < |rows| :: RoleFails(rows[i])
    ensures r.Some? ==> RolesOf(host, rows, r.value)
  {
    var items: seq<Json> := [];
    for i := 0 to |rows|
      invariant |items| == i
      invariant forall j | 0 <= j < i :: RoleItem(host, rows[j], items[j])
      invariant forall j | 0 <= j < i :: !RoleFails(rows[j])
    {
      var next := AppendRole(host, rows, items);
      if next.None? {
        return None;
      }
      items := next.value;
    }
    return Some(items);
  }

  /** One pass of the address loop (db.py:512-539): the next row's
      dictionary appended to the items so far. */
  method AppendAddress(rows: seq<Row>, items: seq<Json>) returns (r: seq<Json>)
    requires |items| < |rows|
    requires forall j | 0 <= j < |items| :: AddressItem(rows[j], items[j])
    ensures |r| == |items| + 1 && forall j | 0 <= j < |r| :: AddressItem(rows[j], r[j])
  {
    var item := AssembleAddress(rows[|items|]);
    return items + [Object(item)];
  }

  /** The address loop (db.py:509-539), which cannot fail. */
  method AssembleAddresses(rows: seq<Row>) returns (items: seq<Json>)
    ensures AddressesOf(rows, items)
  {
    items := [];
    for i := 0 to |rows|
      invariant |items| == i
      invariant forall j | 0 <= j < i :: AddressItem(rows[j], items[j])
    {
      items := AppendAddress(rows, items);
    }
  }

  /** One pass of the successor loop (db.py:547-563): the next row's dictionary
      appended to the items so far, or `None` if that row fails. */
  method AppendSuccessor(host: string, rows: seq<Row>, items: seq<Json>) returns (r: Option<seq<Json>>)
    requires |items| < |rows|
    requires forall j | 0 <= j < |items| :: SuccessorItem(host, rows[j], items[j])
    ensures r.None? <==> SuccessorFails(rows[|items|])
    ensures r.Some? ==> && |r.value| == |items| + 1
                        && forall j | 0 <= j < |r.value| :: SuccessorItem(host, rows[j], r.value[j])
  {
    var item := SuccessorEntry(host, rows[|items|]);
    if item.None? {
      return None;
    }
    return Some(items + [item.value]);
  }

  /** One successor dictionary as an element of the list. */
  method SuccessorEntry(host: string, row: Row) returns (r: Option<Json>)
    ensures r.None? <==> SuccessorFails(row)
    ensures r.Some? ==> SuccessorItem(host, row, r.value)
  {
    var item := AssembleSuccessor(host, row);
    if item.None? {
      return None;
    }
    return Some(Object(item.value));
  }

  /** The successor loop (db.py:544-563). */
  method AssembleSuccessors(host: string, rows: seq<Row>) returns (r: Option<seq<Json>>)
    ensures r.None? <==> exists i | 0 <= i < |rows| :: SuccessorFails(rows[i])
    ensures r.Some? ==> SuccessorsOf(host, rows, r.value)
  {
    var items: seq<Json> := [];
    for i := 0 to |rows|
      invariant |items| == i
      invariant forall j | 0 <= j < i :: SuccessorItem(host, rows[j], items[j])
      invariant forall j | 0 <= j < i :: !SuccessorFails(rows[j])
    {
      var next := AppendSuccessor(host, rows, items);
      if next.None? {
        return None;
      }
      items := next.value;
    }
    return Some(items);
  }

  // ---------------------------------------------------------------------
  // The organisation record (db.py:296-610)

  const ListKeys: set<string> := {"relationships", "roles", "addresses", "successors"}
  const OrganisationMovedSources: set<string> := {"odscode", "last_changed", "ref_only", "record_class"}
  const OrganisationMovedTargets: set<string> := ListKeys + {"odsCode", "lastChangeDate", "refOnly", "recordClass"}
  const OrganisationRenamedSources: set<string> := OrganisationMovedSources + {"post_code"} + {"ref"}
  const OrganisationRenamedTargets: set<string> := OrganisationMovedTargets + {"links"}
  const OrganisationSources: set<string> := WithDateSources(OrganisationRenamedSources)
  const OrganisationTargets: set<string> := WithDateTargets(OrganisationRenamedTargets)

  /** Every column the four renames of the tidy-up pop is there. */
  ghost predicate OrganisationMovable(c: Row) {
    "odscode" in c && "last_changed" in c && "ref_only" in c && "record_class" in c
  }

  /** Every column the tidy-up pops outside a try block is there. */
  ghost predicate OrganisationComplete(c: Row) {
    OrganisationMovable(c) && "post_code" in c && "ref" in c
  }

  /** The four renames of db.py:568-571 done; `ref_only` becomes a boolean. */
  ghost predicate OrganisationMoved(c: Row, m: Obj) {
    && Moved(c, m, "odscode", "odsCode")
    && Moved(c, m, "last_changed", "lastChangeDate")
    && "ref_only" in c && "refOnly" in m && m["refOnly"] == Scalar(Bool(CellTruthy(c["ref_only"])))
    && Moved(c, m, "record_class", "recordClass")
  }

  /** The tidy-up of db.py:568-582 done. */
  ghost predicate OrganisationRenamed(host: string, c: Row, m: Obj) {
    && OrganisationMoved(c, m)
    && "links" in m && m["links"] == LinkList("self", OrganisationHref(host, c["odscode"]))
  }

  /** Some relationship, role or successor row fails to assemble. */
  ghost predicate ItemFails(relationshipRows: seq<Row>, roleRows: seq<Row>, successorRows: seq<Row>) {
    || (exists i | 0 <= i < |relationshipRows| :: RelationshipFails(relationshipRows[i]))
    || (exists i | 0 <= i < |roleRows| :: RoleFails(roleRows[i]))
    || (exists i | 0 <= i < |successorRows| :: SuccessorFails(successorRows[i]))
  }

  /** The four lists of the record, one item per fetched row, in order. */
  ghost predicate ListsAttached(host: string, relationshipRows: seq<Row>, roleRows: seq<Row>,
                                addressRows: seq<Row>, successorRows: seq<Row>, m: Obj) {
    && "relationships" in m && m["relationships"].Array? && RelationshipsOf(host, relationshipRows, m["relationships"].items)
    && "roles" in m && m["roles"].Array? && RolesOf(host, roleRows, m["roles"].items)
    && "addresses" in m && m["addresses"].Array? && AddressesOf(addressRows, m["addresses"].items)
    && "successors" in m && m["successors"].Array? && SuccessorsOf(host, successorRows, m["successors"].items)
  }

  /** What makes `get_organisation_by_odscode` return None: no stored record,
      a column the record's tidy-up pops is None, or one of the items fails. */
  ghost predicate OrganisationFails(base: Option<Row>, relationshipRows: seq<Row>, roleRows: seq<Row>, successorRows: seq<Row>) {
    || base.None?
    || !OrganisationComplete(CleanRow(base.value))
    || ItemFails(relationshipRows, roleRows, successorRows)
  }

  /** The record `get_organisation_by_odscode` returns. */
  ghost predicate IsOrganisation(host: string, row: Row, relationshipRows: seq<Row>, roleRows: seq<Row>,
                                 addressRows: seq<Row>, successorRows: seq<Row>, m: Obj) {
    var c := CleanRow(row);
    && ListsAttached(host, relationshipRows, roleRows, addressRows, successorRows, m)
    && OrganisationRenamed(host, c, m)
    && DatesMoved(c, m)
    && Rest(c, m, OrganisationSources, OrganisationTargets)
  }

  lemma OrganisationKeysApart()
    ensures ApartFromDates(OrganisationRenamedSources) && ApartFromDates(OrganisationRenamedTargets)
  {
  }

  /** The four renames of db.py:568-571, on the record `d` that already
      holds the four lists. */
  method RenameOrganisation(c: Row, d: Obj) returns (r: Option<Obj>)
    requires Rest(c, d, {}, ListKeys)
    ensures r.None? <==> !OrganisationMovable(c)
    ensures r.Some? ==> && OrganisationMoved(c, r.value)
                        && Rest(c, r.value, OrganisationMovedSources, OrganisationMovedTargets)
                        && Agree(d, r.value, ListKeys)
  {
    if "odscode" !in d {
      return None;
    }
    var m1 := (d - {"odscode"})["odsCode" := d["odscode"]];
    if "last_changed" !in m1 {
      return None;
    }
    var m2 := (m1 - {"last_changed"})["lastChangeDate" := m1["last_changed"]];
    if "ref_only" !in m2 {
      return None;
    }
    var m3 := (m2 - {"ref_only"})["refOnly" := Scalar(Bool(JsonTruthy(m2["ref_only"])))];
    if "record_class" !in m3 {
      return None;
    }
    var m4 := (m3 - {"record_class"})["recordClass" := m3["record_class"]];
    return Some(m4);
  }

  /** The two bare pops and the self link of db.py:572-582. */
  method DropOrganisationColumns(host: string, c: Row, d: Obj) returns (r: Option<Obj>)
    requires OrganisationMoved(c, d) && Rest(c, d, OrganisationMovedSources, OrganisationMovedTargets)
    ensures r.None? <==> !("post_code" in c && "ref" in c)
    ensures r.Some? ==> && OrganisationRenamed(host, c, r.value)
                        && Rest(c, r.value, OrganisationRenamedSources, OrganisationRenamedTargets)
                        && Agree(d, r.value, OrganisationMovedTargets)
  {
    if "post_code" !in d {
      return None;
    }
    var m1 := d - {"post_code"};
    if "ref" !in m1 {
      return None;
    }
    var m2 := m1 - {"ref"};
    assert m2["odsCode"] == Scalar(c["odscode"]);
    var href := host + "/organisations/" + CellText(m2["odsCode"].c);
    var m3 := m2["links" := LinkList("self", href)];
    return Some(m3);
  }

  lemma OrganisationAssembled(host: string, row: Row, relationshipRows: seq<Row>, roleRows: seq<Row>,
                              addressRows: seq<Row>, successorRows: seq<Row>, d: Obj, moved: Obj, renamed: Obj, m: Obj)
    requires ListsAttached(host, relationshipRows, roleRows, addressRows, successorRows, d)
    requires Agree(d, moved, ListKeys) && Agree(moved, renamed, OrganisationMovedTargets)
    requires OrganisationRenamed(host, CleanRow(row), renamed)
    requires DatesMoved(CleanRow(row), m)
    requires Rest(CleanRow(row), m, OrganisationSources, OrganisationTargets)
    requires Agree(renamed, m, OrganisationRenamedTargets)
    ensures IsOrganisation(host, row, relationshipRows, roleRows, addressRows, successorRows, m)
  {
    assert OrganisationRenamed(host, CleanRow(row), m);
  }

  /** The record row with the four lists added (db.py:406-565); `None` as
      soon as one item fails. */
  method AttachLists(host: string, c: Row, relationshipRows: seq<Row>, roleRows: seq<Row>,
                     addressRows: seq<Row>, successorRows: seq<Row>) returns (r: Option<Obj>)
    ensures r.None? <==> ItemFails(relationshipRows, roleRows, successorRows)
    ensures r.Some? ==> && ListsAttached(host, relationshipRows, roleRows, addressRows, successorRows, r.value)
                        && Rest(c, r.value, {}, ListKeys)
  {
    var m := Lift(c);
    var relationships := AssembleRelationships(host, relationshipRows);
    if relationships.None? {
      return None;
    }
    m := m["relationships" := Array(relationships.value)];
    var roles := AssembleRoles(host, roleRows);
    if roles.None? {
      return None;
    }
    m := m["roles" := Array(roles.value)];
    var addresses := AssembleAddresses(addressRows);
    m := m["addresses" := Array(addresses)];
    var successors := AssembleSuccessors(host, successorRows);
    if successors.None? {
      return None;
    }
    m := m["successors" := Array(successors.value)];
    return Some(m);
  }

  /** `get_organisation_by_odscode` once its statements have run: `base` is
      the organisation row (`None` when no record has the code) and the four
      sequences are the rows of its relationships, roles, addresses and
      successors. */
  method AssembleOrganisation(host: string, base: Option<Row>, relationshipRows: seq<Row>, roleRows: seq<Row>,
                              addressRows: seq<Row>, successorRows: seq<Row>) returns (r: Option<Obj>)
    ensures r.None? <==> OrganisationFails(base, relationshipRows, roleRows, successorRows)
    ensures r.Some? ==> IsOrganisation(host, base.value, relationshipRows, roleRows, addressRows, successorRows, r.value)
  {
    if base.None? {
      return None;
    }
    var c := CleanRow(base.value);
    if "odscode" !in c {
      return None;
    }
    var m := AttachLists(host, c, relationshipRows, roleRows, addressRows, successorRows);
    if m.None? {
      return None;
    }
    var moved := RenameOrganisation(c, m.value);
    if moved.None? {
      return None;
    }
    var renamed := DropOrganisationColumns(host, c, moved.value);
    if renamed.None? {
      return None;
    }
    OrganisationKeysApart();
    var dated := MoveDates(c, renamed.value, OrganisationRenamedSources, OrganisationRenamedTargets);
    OrganisationAssembled(host, base.value, relationshipRows, roleRows, addressRows, successorRows, m.value, moved.value, renamed.value, dated);
    return Some(dated);
  }
}
