/** Values as the database driver hands them over (one `Cell` per column of a
    row fetched as a dictionary) and as the assembled JSON-ready structures hold
    them, with the Python conversions the core applies to them. */
module Records {
  import opened Builtins

  /** A calendar date as the driver returns it for a date column. */
  datatype Date = Date(year: nat, month: nat, day: nat)

  function ZeroPad(s: string, width: nat): (r: string)
    ensures |r| == if |s| < width then width else |s|
  {
    if |s| < width then seq(width - |s|, _ => '0') + s else s
  }

  /** `date.isoformat()`: YYYY-MM-DD, each part zero-padded. */
  function IsoFormat(d: Date): string {
    ZeroPad(Digits(d.year), 4) + "-" + ZeroPad(Digits(d.month), 2) + "-" + ZeroPad(Digits(d.day), 2)
  }

  /** One column value of a fetched row; `Null` is SQL NULL, Python's None. */
  datatype Cell = Null | Text(s: string) | Int(i: int) | Bool(b: bool) | Day(d: Date)

  /** A row fetched through a dictionary cursor: column name to value. */
  type Row = map<string, Cell>

  /** Python `str(v)`, which `str.format` applies to each argument. */
  function CellText(c: Cell): string {
    match c
    case Null => "None"
    case Text(s) => s
    case Int(i) => DecimalText(i)
    case Bool(b) => if b then "True" else "False"
    case Day(d) => IsoFormat(d)
  }

  /** Python truthiness of a column value. */
  predicate CellTruthy(c: Cell) {
    match c
    case Null => false
    case Text(s) => s != ""
    case Int(i) => i != 0
    case Bool(b) => b
    case Day(_) => true
  }

  /** Python `int(v)`; `None` where it raises (TypeError or ValueError). */
  function CellToInt(c: Cell): Option<int> {
    match c
    case Int(i) => Some(i)
    case Bool(b) => Some(if b then 1 else 0)
    case Text(s) => ParseInt(s)
    case _ => None
  }

  /** `remove_none_values_from_dictionary` (db.py:12-14): keep exactly the
      entries whose value is not None, with their values unchanged. */
  function CleanRow(d: Row): (r: Row)
    ensures r.Keys <= d.Keys
    ensures forall k | k in r :: r[k] != Null && r[k] == d[k]
    ensures forall k | k in d && d[k] != Null :: k in r
  {
    map k | k in d && d[k] != Null :: d[k]
  }

  /** Cleaning an already clean row changes nothing. */
  lemma CleanRowIdempotent(d: Row)
    ensures CleanRow(CleanRow(d)) == CleanRow(d)
  {
  }

  /** A value of the assembled, JSON-ready result: a column value, a list or a
      dictionary. */
  datatype Json = Scalar(c: Cell) | Array(items: seq<Json>) | Object(fields: map<string, Json>)

  type Obj = map<string, Json>

  /** A row dictionary seen as a dictionary of the result. */
  function Lift(r: Row): (o: Obj)
    ensures o.Keys == r.Keys
    ensures forall k | k in r :: o[k] == Scalar(r[k])
  {
    map k | k in r :: Scalar(r[k])
  }

  /** Python truthiness of a result value (`bool(v)`). */
  predicate JsonTruthy(j: Json) {
    match j
    case Scalar(c) => CellTruthy(c)
    case Array(xs) => |xs| != 0
    case Object(f) => |f| != 0
  }

  /** Python `int(v)` of a result value. */
  function JsonToInt(j: Json): Option<int> {
    if j.Scalar? then CellToInt(j.c) else None
  }

  /** `v.isoformat()`, which only a date has; anything else raises AttributeError. */
  function JsonIso(j: Json): Option<string> {
    if j.Scalar? && j.c.Day? then Some(IsoFormat(j.c.d)) else None
  }

  /** A one-element `links` list `[{'rel': rel, 'href': href}]`. */
  function LinkList(rel: string, href: string): Json {
    Array([Object(map["rel" := Scalar(Text(rel)), "href" := Scalar(Text(href))])])
  }

  /** The address of an organisation's record, `{host}/organisations/{code}`. */
  function OrganisationHref(host: string, code: Cell): string {
    host + "/organisations/" + CellText(code)
  }

  /** The address of a role type, `{host}/role-types/{code}`. */
  function RoleTypeHref(host: string, code: Cell): string {
    host + "/role-types/" + CellText(code)
  }

  /** Two records whose codes render differently never share an address; two
      text codes, or two integer codes, share one only when they are equal. */
  lemma OrganisationHrefInjective(host: string, x: Cell, y: Cell)
    requires OrganisationHref(host, x) == OrganisationHref(host, y)
    ensures CellText(x) == CellText(y)
    ensures x.Text? && y.Text? ==> x == y
    ensures x.Int? && y.Int? ==> x == y
  {
    var p := host + "/organisations/";
    assert OrganisationHref(host, x) == p + CellText(x);
    assert (p + CellText(x))[|p|..] == CellText(x);
    assert (p + CellText(y))[|p|..] == CellText(y);
    if x.Int? && y.Int? {
      ParseDecimalText(x.i);
      ParseDecimalText(y.i);
    }
  }

  /** No None anywhere inside a result value. */
  predicate NullFree(j: Json)
    decreases j
  {
    match j
    case Scalar(c) => c != Null
    case Array(xs) => forall x | x in xs :: NullFree(x)
    case Object(f) => forall k | k in f :: NullFree(f[k])
  }
}
