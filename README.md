# OpenODS core in Dafny

OpenODS is a read-only REST API over healthcare-organisation reference data:
organisations, their roles, relationships, addresses and successors. This
project models three deterministic pieces of it and proves their properties.
Every database fetch is an input of the model.

- **`get_org_list`** (`openods/db.py`). It turns optional filter arguments
  into an ordered list of WHERE clauses and a parameter tuple that grows with
  them. The same filters go into a COUNT query and into a paged main query,
  which also gets `ORDER BY name OFFSET %s LIMIT %s`. Each fetched row becomes
  a list item with a self link. Module `OrgList`, file `org_list.dfy`.
  - Clauses are a datatype, not SQL text.
  - `BuildFilters` is the reference definition of the filters. The imperative
    `WhereClauses` builds them step by step, as the source does, and is proved
    to produce exactly `BuildFilters`.
  - Python truthiness and the true-list and false-list spellings are modelled
    on an `Arg` datatype of Python values.
- **`get_organisation_by_odscode`** and `remove_none_values_from_dictionary`
  (`openods/db.py`). These assemble one organisation record from its row and
  the rows of its relationships, roles, addresses and successors. Modules
  `Records` (`records.dfy`), `Assembler` (`assembler.dfy`) and `NoNulls`
  (`no_nulls.dfy`).
  - Rows are maps from column name to `Cell`. The assembled record is a map
    from key to `Json`.
  - Every pop-and-insert rename is a step on a map variable, and the four
    lists are built by loops.
  - What each dictionary ends up holding is stated key by key, in terms of the
    cleaned row, by ghost predicates (`IsRelationship`, `IsRole`, `IsAddress`,
    `IsSuccessor`, `IsOrganisation`).
  - Every failure is `None`; the outer handler of the source (db.py:606-610)
    catches all of them. The failures are:
    - a record that is not found (db.py:320-321);
    - a lookup or a pop outside any `try` block of a key that is missing
      after cleaning: `row_org['odscode']` (db.py:326), the link lookups of
      db.py:415-417, 461-463 and 559, and the renames of db.py:419-423,
      465-467, 553-556 and 568-573;
    - a successor row without a `targetodscode` column, which the link of
      db.py:546-548 reads before the row is cleaned;
    - the relationship's `int()` of its unique id raising (db.py:419);
    - `str.lower()` of a successor's `type` that is not a string (db.py:559).

    The role's `int()` of its unique id (db.py:474-477) and the date and
    address pops sit inside `try` blocks, so they never fail the record.
- **`generate_cache_key`** (`openods/cache.py`). The response-cache key is the
  request path, `?`, and the URL encoding of the (key, value) pairs, with keys
  sorted and each key's values sorted. Module `CacheKey`, file
  `cache_key.dfy`. `urlencode` is a function parameter about which nothing is
  assumed.

Module `Builtins` (`builtins.dfy`) holds the Python built-ins the core relies
on: `str()` of an int, `int()` of a string and `str.lower()`.

Two consequences of the code are easy to miss, and the model keeps both:

- **Non-date values in date columns.** Each date column is popped inside a
  `try` block before `.isoformat()` is called (db.py:425-443, 479-497,
  584-602). A date column that holds something other than a date is
  therefore popped and not written back, so it disappears from the output
  (`Assembler.DateStepped`).
- **NULL columns that the code pops unguarded.** Cleaning removes every NULL
  column first (db.py:323, 413, 459, 551), and the later pops outside any
  `try` block then raise KeyError (db.py:419-423, 465-467, 553-556,
  568-573). So a NULL `post_code` or `ref` on the organisation row makes the
  whole lookup return None (`Assembler.OrganisationFails`). So does a NULL
  unique id, target, name, display name or status on any relationship row,
  a NULL code, display name or primary-role flag on any role row, and a NULL
  renamed column or type on any successor row.

## Model

| member | source | states |
|---|---|---|
| Records.CleanRow | openods/db.py:12-14 | The result has only keys of the input; the values it keeps are those of the input and are never None; every input entry that is not None is kept. |
| Records.CleanRowIdempotent | openods/db.py:12-14 | Cleaning a cleaned row changes nothing. |
| Records.OrganisationHrefInjective | openods/db.py:275-277 | Two organisation links are equal only if `str()` renders the two codes to the same text. Two text codes, or two integer codes, give the same link only if they are the same code. |
| Builtins.ParseInt | openods/db.py:76 | `int(s)` succeeds only on an optional sign followed by one or more decimal digits. |
| Builtins.ParseDecimalText | openods/db.py:76 | `int(str(i)) == i` for every integer: parsing inverts rendering. |
| Builtins.DigitsCorrect | openods/db.py:275-277 | `str()` of a natural number is all digits and denotes that number. |
| Builtins.AsciiLower | openods/db.py:559 | `str.lower()` keeps the length and leaves no upper-case letter. Each upper-case letter becomes its lower-case partner, and every other character is unchanged. |
| Builtins.AsciiLowerIdempotent | openods/db.py:559 | Lower-casing a lower-cased string changes nothing. |
| OrgList.ClampLimit | openods/db.py:76-77 | None exactly when `int(limit)` raises. Otherwise the limit's integer value is min(value, 1000), and a limit of at most 1000 is kept exactly as given. |
| OrgList.WhereClauses | openods/db.py:94-249 | The clauses and the parameter tuple, built branch by branch, are exactly `BuildFilters` of the arguments. |
| OrgList.SearchClauses | openods/db.py:94-141 | The record-class, name and postcode steps produce exactly the first three contributions, in that order. |
| OrgList.BuildFiltersWellFormed | openods/db.py:97-249 | Clauses come in the fixed order record class, name, postcode, status, last changed, legal end date, role, so each appears at most once. Parameters match placeholders one to one, each bearing the value meant for its clause; the legal-end-date clauses bind none. |
| OrgList.LockstepThen | openods/db.py:97-249 | Appending one well-paired filter list to another keeps every placeholder bound to its own parameter. |
| OrgList.BuildFiltersSelects | openods/db.py:97-249 | A clause appears if and only if the guard under which the source appends it holds. |
| OrgList.FalsyLegallyActiveIgnored | openods/db.py:177-204 | `legally_active` of False or 0 adds no legal-end-date clause, while the string '0' adds the past-legal-end-date clause. |
| OrgList.RoleCodesOverridePrimary | openods/db.py:207-249 | With a truthy `role_code_list`, the filters do not depend on `primary_role_code_list`. |
| OrgList.RecordClassBoundRaw | openods/db.py:86-107 | A truthy `recordclass` is bound as the first parameter exactly as given. For 'both' that is not the '%' substitute. |
| OrgList.ActiveStatusValue | openods/db.py:144-160 | The status clause binds 'Active' if and only if `active` is in the true-list, and 'Inactive' for every other truthy value. |
| OrgList.ProjectRows | openods/db.py:272-290 | One item per fetched row, in order. Each item carries the row's five columns under their external names and one self link to `host/organisations/<odscode>`. |
| OrgList.GetOrgList | openods/db.py:50-293 | None exactly when `int(limit)` raises. Otherwise the COUNT query carries the filters and their parameters, and the main query carries the same filters with the parameters plus offset and the clamped limit. The result also holds the database's count and the projected rows. |
| OrgList.QueriesWellFormed | openods/db.py:251-267 | Both statements get exactly as many parameters as they have placeholders. The main query's tuple is the COUNT query's with two more. |
| OrgList.DefaultFilters | openods/db.py:50-53 | With every argument at its default, the filters are `record_class LIKE 'both'` and `status = 'Active'`. |
| Assembler.MoveDate | openods/db.py:425-428 | A tolerant date move. The source key is always gone. The target holds the ISO text when the value was a date and is otherwise untouched. No other key changes. |
| Assembler.MoveDates | openods/db.py:425-443 | The four date moves in source order. Each date target is as `DateMoved` says, everything else passes through, and already-written keys are untouched. |
| Assembler.RenameRelationship | openods/db.py:419-423 | None exactly when a popped column is missing or the unique id does not convert. Otherwise the five renames are done and the other columns pass through. |
| Assembler.AssembleRelationship | openods/db.py:413-450 | None exactly when the row fails. Otherwise the assembled dictionary is `IsRelationship`: renames, dates, the `related-organisation` link, and everything else as in the cleaned row. |
| Assembler.MoveRoleColumns | openods/db.py:465-472 | None exactly when code, display name or primary role is missing. Otherwise these are renamed, status is kept, and the rest passes through. |
| Assembler.MoveUniqueId | openods/db.py:474-477 | The unique id is popped when present and written back as an integer only when `int()` accepts it. Keys already written are untouched. |
| Assembler.RenameRole | openods/db.py:465-477 | None exactly when a required role column is missing. Otherwise the role's renames are done and the other columns pass through. |
| Assembler.AssembleRole | openods/db.py:459-504 | None exactly when the row fails. Otherwise the dictionary is `IsRole`, with one `role-type` link to `host/role-types/<code>`. |
| Assembler.PopAddressLines | openods/db.py:513-529 | The lines are exactly the present address lines in the order line1, line2, line3, and the record is the row without them. |
| Assembler.AssembleAddress | openods/db.py:512-539 | `addressLines` holds exactly the present lines in order, and is left as it was when there are none. `post_code` becomes `postCode`. Every other column passes through. |
| Assembler.RenameSuccessor | openods/db.py:553-556 | None exactly when a renamed column is missing. Otherwise the four renames are done and the other columns pass through. |
| Assembler.AssembleSuccessor | openods/db.py:547-561 | None exactly when the row fails. Otherwise the dictionary is `IsSuccessor`, with one link whose rel is the lower-cased type and whose href is `host/organisations/<targetodscode>`. |
| Assembler.AssembleRelationships | openods/db.py:409-452 | None if and only if some row fails. Otherwise there is one item per row, in row order, each the row's assembled relationship. |
| Assembler.AssembleRoles | openods/db.py:455-506 | As for relationships, for roles. |
| Assembler.AssembleAddresses | openods/db.py:509-541 | One address per row, in row order, each as `IsAddress` says. |
| Assembler.AssembleSuccessors | openods/db.py:544-565 | As for relationships, for successors and predecessors. |
| Assembler.AttachLists | openods/db.py:406-565 | None if and only if a relationship, role or successor row fails. Otherwise the four lists are attached to the organisation row and every other column is unchanged. |
| Assembler.RenameOrganisation | openods/db.py:568-571 | None exactly when one of the four renamed columns is missing. Otherwise they are renamed, with `refOnly` the truthiness of `ref_only`, and the four lists are untouched. |
| Assembler.DropOrganisationColumns | openods/db.py:572-582 | None exactly when `post_code` or `ref` is missing. Otherwise both are dropped and the single `self` link to `host/organisations/<odsCode>` is added. |
| Assembler.AssembleOrganisation | openods/db.py:296-610 | None if and only if the record is not found, `odscode` or another unguarded column is missing after cleaning, or some list row fails. Otherwise the record is `IsOrganisation`: lists attached, renames, self link, dates, and the rest of the row unchanged. |
| NoNulls.RelationshipNullFree | openods/db.py:413-450 | An assembled relationship holds no None anywhere. |
| NoNulls.RoleNullFree | openods/db.py:459-504 | An assembled role holds no None anywhere. |
| NoNulls.AddressNullFree | openods/db.py:512-539 | An assembled address holds no None anywhere. |
| NoNulls.SuccessorNullFree | openods/db.py:547-563 | An assembled successor holds no None anywhere. |
| NoNulls.OrganisationNullFree | openods/db.py:323-610 | The record that is returned holds no None at any depth, its lists included. |
| CacheKey.GenerateCacheKey | openods/cache.py:16-18 | The key always begins with the request path followed by '?'. |
| CacheKey.Keys | openods/cache.py:17 | Iterating the arguments' keys yields exactly the keys that some argument carries. |
| CacheKey.Sort | openods/cache.py:17 | `sorted()` returns a permutation of its input. |
| CacheKey.SortSorted | openods/cache.py:17 | `sorted()` returns a list in ascending order. |
| CacheKey.SortPermutationInvariant | openods/cache.py:17 | Two lists with the same elements sort to the same list. |
| CacheKey.KeysNoDup | openods/cache.py:17 | Each argument key is listed once. |
| CacheKey.PairsOrdered | openods/cache.py:17 | The pair list is ordered by key and, within a key, by value, both ascending. |
| CacheKey.PairsPermutation | openods/cache.py:16-18 | Every (key, value) occurrence of the arguments is in the pair list as often as in the arguments, and nothing else is. |
| CacheKey.CacheKeyPermutationInvariant | openods/cache.py:16-18 | Reordering the request's arguments gives the same key. |

## Left out

- SQL execution and fetching are left out. The rows fetched and the COUNT result are inputs, and the SQL text is a clause datatype. What `LIKE`, `ANY` and `now()` mean in the database is not modelled.
- Database errors are left out. In `get_organisation_by_odscode` they are logged and also give None.
- The sub-query parameters of `get_organisation_by_odscode` are left out: the ODS code bound to each fetch, and the UPPER(...) applied to it.
- The `code = ANY` versus `UPPER(code) = ANY` difference between the main and COUNT role sub-queries (db.py:216 and db.py:224) is left out. Both are `RoleAny`, because it is SQL-text detail.
- Logging is left out, and so is `g.request_id`. They do not affect any result, and logging the cache key does not change it.
- `app.config['APP_HOSTNAME']` is the `host` parameter.
- Dictionary key order is left out. The model's maps are unordered.
- OrgList.GetOrgList: the exception that `int(limit)` raises propagates to the caller in the source. Here it is None.
- The `query` and `postcode` arguments are strings or None. `str.format` of other types is not modelled.
- Builtins.ParseInt: surrounding whitespace, underscores and non-ASCII digits, which Python's `int()` accepts, are not modelled. Such strings give None.
- Builtins.AsciiLower: only ASCII letters are lowered. Unicode case mapping is not modelled.
- Records.IsoFormat: the ISO text of a date only. A datetime value's time part is not modelled.
- CacheKey.Keys: lists keys in the order they last arrived, while a MultiDict lists them in the order they first arrived. Sorting makes the order irrelevant to the key.
- CacheKey.GenerateCacheKey: `urlencode` and `sorted()`'s order on code points are the only external facts. Percent-encoding itself is not modelled.
- The other functions of `openods/db.py` are not part of this model, because they fetch and return with trivial renaming or are never called: `ping_database`, `get_primary_role_scope`, `get_dataset_info`, `get_role_types`, `get_role_type_by_id` and `search_organisation`.
- `connection.py` and the package `__init__` files are not part of this model. They are connection and application set-up.
