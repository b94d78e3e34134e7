/**
 * The worker table of the dashboard (`#tentacles-tbody` in
 * tentacle_preview_static/js/main.js): rows built from worker records and
 * the in-place patch of one row's two status cells.
 */
module StatusTable {
  import opened Wrappers
  import opened JsValue
  import opened Html

  /**
   * One `<tr>`: the record's `name`, `url` and `last_commit` values the
   * template reads, and the build and start badges (cells 2 and 3), the
   * only cells patched after rendering. The text of every other cell is a
   * function of those values.
   */
  datatype Row = Row(name: Json, url: Json, lastCommit: Json, build: Badge, start: Badge) {
    /** `tr.dataset.tentacle`: `String(t.name)`. */
    function Key(): string {
      ToString(name)
    }

    /** The name cell; the two buttons' `data-tentacle` attributes hold the same text. */
    function NameHtml(): string {
      EscapeHtml(name)
    }

    function UrlHtml(): string {
      EscapeHtml(url)
    }

    /** `escapeHtml(t.last_commit || "")` */
    function CommitHtml(): string {
      EscapeHtml(Or(lastCommit, Str("")))
    }
  }

  /** The row template of `renderTentacleTable` for one record. */
  function RowOf(t: Json): Row
    requires !t.IsNullish()
  {
    Row(Field(t, "name"), Field(t, "url"), Field(t, "last_commit"),
        StatusBadge(Field(t, "is_build_success")), StatusBadge(Field(t, "is_start_success")))
  }

  /**
   * The name cell decodes to the row key, except for a record without a
   * name, whose key is "undefined" (or "null") and whose name cell is empty.
   */
  lemma NameCellDecodesToKey(r: Row)
    ensures !r.name.IsNullish() ==> UnescapeText(r.NameHtml()) == r.Key()
    ensures r.name.IsNullish() ==> r.NameHtml() == "" && (r.Key() == "undefined" || r.Key() == "null")
  {
  }

  /**
   * The rows `renderTentacleTable` leaves in the emptied table: one per
   * record, in input order, up to the first null or undefined record (where
   * reading `t.name` throws).
   */
  function RenderRows(ts: seq<Json>): (rows: seq<Row>)
    ensures |rows| == LeadingValues(ts)
    ensures forall i :: 0 <= i < |rows| ==> rows[i] == RowOf(ts[i])
  {
    if ts == [] || ts[0].IsNullish() then []
    else [RowOf(ts[0])] + RenderRows(ts[1..])
  }

  /**
   * When every record is an object, the table has exactly one row per
   * record, keyed by its name in input order; distinct names give distinct
   * keys, so no worker is shown twice.
   */
  lemma RenderedKeys(ts: seq<Json>)
    requires forall i :: 0 <= i < |ts| ==> ts[i].Obj?
    ensures |RenderRows(ts)| == |ts|
    ensures forall i :: 0 <= i < |ts| ==> RenderRows(ts)[i].Key() == ToString(Field(ts[i], "name"))
    ensures (forall i, j :: 0 <= i < j < |ts| ==> ToString(Field(ts[i], "name")) != ToString(Field(ts[j], "name")))
            ==> (forall i, j :: 0 <= i < j < |ts| ==> RenderRows(ts)[i].Key() != RenderRows(ts)[j].Key())
  {
  }

  /** `document.querySelector('tr[data-tentacle="…"]')`: the first row with that key. */
  function FindRow(rows: seq<Row>, key: string): (r: Option<nat>)
    ensures r.None? <==> forall i :: 0 <= i < |rows| ==> rows[i].Key() != key
    ensures r.Some? ==> r.value < |rows| && rows[r.value].Key() == key
    ensures r.Some? ==> forall j :: 0 <= j < r.value ==> rows[j].Key() != key
  {
    if rows == [] then None
    else if rows[0].Key() == key then Some(0)
    else match FindRow(rows[1..], key)
      case None => None
      case Some(i) => Some(i + 1)
  }

  /**
   * `updateTentacleStatus`: no row with the key leaves the table as it is;
   * otherwise the first such row gets new build and start badges and
   * nothing else anywhere changes.
   */
  function PatchStatus(rows: seq<Row>, key: string, build: Json, start: Json): (r: seq<Row>)
    ensures |r| == |rows|
    ensures forall j :: 0 <= j < |r| ==> r[j].name == rows[j].name && r[j].url == rows[j].url && r[j].lastCommit == rows[j].lastCommit
    ensures FindRow(rows, key).None? ==> r == rows
    ensures FindRow(rows, key).Some? ==>
      var i := FindRow(rows, key).value;
      r[i].build == StatusBadge(build) && r[i].start == StatusBadge(start) &&
      forall j :: 0 <= j < |r| && j != i ==> r[j] == rows[j]
  {
    match FindRow(rows, key)
    case None => rows
    case Some(i) => rows[i := rows[i].(build := StatusBadge(build), start := StatusBadge(start))]
  }

  /** The lookup sees only the keys. */
  lemma {:induction false} FindRowSameKeys(a: seq<Row>, b: seq<Row>, key: string)
    requires |a| == |b|
    requires forall j :: 0 <= j < |a| ==> a[j].name == b[j].name
    ensures FindRow(a, key) == FindRow(b, key)
  {
    if a != [] && a[0].Key() != key {
      FindRowSameKeys(a[1..], b[1..], key);
    }
  }

  /**
   * Two deltas for the same worker: the later one wins, whatever the
   * earlier one said (last-write-wins on the rendered cells).
   */
  lemma LastPatchWins(rows: seq<Row>, key: string, b1: Json, s1: Json, b2: Json, s2: Json)
    ensures PatchStatus(PatchStatus(rows, key, b1, s1), key, b2, s2) == PatchStatus(rows, key, b2, s2)
  {
    FindRowSameKeys(PatchStatus(rows, key, b1, s1), rows, key);
  }
}
