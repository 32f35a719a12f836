/** The delete buttons that `/list-alerts` and `/list-schedules` attach to
    their listing: at most 25 buttons in rows of at most 5, labelled
    "Delete #1", "Delete #2", ... and carrying the item id behind a prefix
    that the click handler strips again. Both commands build them with the
    same code over the ids of their items. */
module DeleteButtons {
  import opened Text

  /** A button of a listing (`customId`, label, disabled flag). */
  datatype Button = Button(customId: string, text: string, disabled: bool)

  const MaxButtons: nat := 25
  const RowSize: nat := 5

  function Min(a: int, b: int): int {
    if a < b then a else b
  }

  /** How many items get a button. */
  function Slots(n: nat): nat {
    Min(n, MaxButtons)
  }

  /** How many rows the buttons take. */
  function RowCount(n: nat): nat {
    (Slots(n) + RowSize - 1) / RowSize
  }

  function Label(index: nat): string {
    "Delete #" + NatToString(index)
  }

  /** The button of item `k`: its id behind the prefix, its 1-based
      position as label. */
  function ButtonAt(prefix: string, ids: seq<string>, k: nat): Button
    requires k < |ids|
  {
    Button(prefix + ids[k], Label(k + 1), false)
  }

  /** The rows the commands build: row `i` holds the buttons of items
      `5i .. 5i+4`, cut at the 25th item. */
  function Rows(prefix: string, ids: seq<string>): (rows: seq<seq<Button>>)
    ensures |rows| == RowCount(|ids|)
    ensures forall i :: 0 <= i < |rows| ==> 1 <= |rows[i]| <= RowSize
    ensures forall i, j :: 0 <= i < |rows| && 0 <= j < |rows[i]| ==>
      RowSize * i + j < Slots(|ids|) && rows[i][j] == ButtonAt(prefix, ids, RowSize * i + j)
  {
    seq(RowCount(|ids|), i requires 0 <= i < RowCount(|ids|) =>
      seq(Min(RowSize, Slots(|ids|) - RowSize * i), j requires 0 <= j < Min(RowSize, Slots(|ids|) - RowSize * i) =>
        ButtonAt(prefix, ids, RowSize * i + j)))
  }

  /** Every item among the first 25 has its button, in row `k / 5` at
      slot `k % 5`, so the rows cover exactly those items, in order. */
  lemma RowsCover(prefix: string, ids: seq<string>, k: nat)
    requires k < Slots(|ids|)
    ensures var rows := Rows(prefix, ids);
      k / RowSize < |rows| && k % RowSize < |rows[k / RowSize]|
      && rows[k / RowSize][k % RowSize] == ButtonAt(prefix, ids, k)
  {
    var i, j := k / RowSize, k % RowSize;
    assert k == RowSize * i + j;
    assert RowSize * i <= k < Slots(|ids|);
    assert i < RowCount(|ids|);
  }

  /** The labels run 1, 2, ... without repeats: two buttons with the same
      label sit at the same place. */
  lemma LabelsDistinct(prefix: string, ids: seq<string>, i: nat, j: nat, i': nat, j': nat)
    requires var rows := Rows(prefix, ids);
      i < |rows| && j < |rows[i]| && i' < |rows| && j' < |rows[i']|
    requires Rows(prefix, ids)[i][j].text == Rows(prefix, ids)[i'][j'].text
    ensures i == i' && j == j'
  {
    var rows: seq<seq<Button>> := Rows(prefix, ids);
    assert rows[i][j].text == Label(RowSize * i + j + 1);
    assert rows[i'][j'].text == Label(RowSize * i' + j' + 1);
    assert NatToString(RowSize * i + j + 1) == NatToString(RowSize * i' + j' + 1) by {
      var a, b := NatToString(RowSize * i + j + 1), NatToString(RowSize * i' + j' + 1);
      assert Label(RowSize * i + j + 1)[8..] == a;
      assert Label(RowSize * i' + j' + 1)[8..] == b;
    }
    NatToStringInjective(RowSize * i + j + 1, RowSize * i' + j' + 1);
    SameSlot(i, j, i', j');
  }

  lemma SameSlot(i: nat, j: nat, i': nat, j': nat)
    requires j < RowSize && j' < RowSize
    requires RowSize * i + j == RowSize * i' + j'
    ensures i == i' && j == j'
  {
    assert RowSize * (i - i') == j' - j;
  }

  /** `String.prototype.replace` with a string pattern: the first
      occurrence of `pat` is replaced, and nothing happens without one. */
  function ReplaceFirst(s: string, pat: string, with: string): string
    decreases |s|
  {
    if |pat| <= |s| && s[..|pat|] == pat then with + s[|pat|..]
    else if s == [] then s
    else [s[0]] + ReplaceFirst(s[1..], pat, with)
  }

  predicate OccursAt(s: string, pat: string, k: nat) {
    k + |pat| <= |s| && s[k..k + |pat|] == pat
  }

  /** A string without the pattern is left alone. */
  lemma {:induction false} ReplaceAbsent(s: string, pat: string, with: string)
    requires pat != []
    requires forall k :: 0 <= k ==> !OccursAt(s, pat, k)
    ensures ReplaceFirst(s, pat, with) == s
    decreases |s|
  {
    assert !OccursAt(s, pat, 0);
    if s != [] {
      forall k | 0 <= k ensures !OccursAt(s[1..], pat, k) {
        assert !OccursAt(s, pat, k + 1);
        if k + |pat| <= |s[1..]| {
          assert s[1..][k..k + |pat|] == s[k + 1..k + 1 + |pat|];
        }
      }
      ReplaceAbsent(s[1..], pat, with);
      assert [s[0]] + s[1..] == s;
    }
  }

  /** The id the click handler reads from a button. */
  function IdFromCustomId(prefix: string, customId: string): string {
    ReplaceFirst(customId, prefix, "")
  }

  /** Stripping the prefix gives back the id exactly, whatever the id
      contains (the prefix itself included). */
  lemma CustomIdRoundTrip(prefix: string, id: string)
    ensures IdFromCustomId(prefix, prefix + id) == id
  {
    assert (prefix + id)[..|prefix|] == prefix;
    assert (prefix + id)[|prefix|..] == id;
  }

  /** Each button of the rows leads back to its item's id. */
  lemma ButtonLeadsToItem(prefix: string, ids: seq<string>, i: nat, j: nat)
    requires i < |Rows(prefix, ids)| && j < |Rows(prefix, ids)[i]|
    ensures IdFromCustomId(prefix, Rows(prefix, ids)[i][j].customId) == ids[RowSize * i + j]
  {
    CustomIdRoundTrip(prefix, ids[RowSize * i + j]);
  }

  /** The first loop of the commands: the first 25 ids cut into slices of
      five (`slice` stops at the end of the list). */
  method ChunkIds(ids: seq<string>) returns (chunks: seq<seq<string>>)
    ensures |chunks| == RowCount(|ids|)
    ensures forall c :: 0 <= c < |chunks| ==>
      RowSize * c < |ids| && chunks[c] == ids[RowSize * c .. Min(RowSize * c + RowSize, |ids|)]
  {
    chunks := [];
    var i := 0;
    while i < |ids| && i < MaxButtons
      invariant i == RowSize * |chunks|
      invariant i <= Slots(|ids|) + RowSize - 1
      invariant forall c :: 0 <= c < |chunks| ==>
        RowSize * c < |ids| && chunks[c] == ids[RowSize * c .. Min(RowSize * c + RowSize, |ids|)]
    {
      chunks := chunks + [ids[i .. Min(i + RowSize, |ids|)]];
      i := i + RowSize;
    }
    assert Slots(|ids|) <= RowSize * |chunks| <= Slots(|ids|) + RowSize - 1;
  }

  /** The nested loops: one row per slice, one button per id. */
  method BuildRows(prefix: string, ids: seq<string>) returns (rows: seq<seq<Button>>)
    ensures rows == Rows(prefix, ids)
  {
    var chunks := ChunkIds(ids);
    var spec := Rows(prefix, ids);
    rows := [];
    for i := 0 to |chunks|
      invariant rows == spec[..i]
    {
      var row := BuildRow(prefix, chunks[i], i * RowSize);
      SliceRow(prefix, ids, i, chunks[i], row);
      assert spec[..i + 1] == spec[..i] + [spec[i]];
      rows := rows + [row];
    }
    assert rows == spec;
  }

  /** The buttons built over slice `i` are row `i` of the rows. */
  lemma SliceRow(prefix: string, ids: seq<string>, i: nat, chunk: seq<string>, row: seq<Button>)
    requires i < RowCount(|ids|) && RowSize * i < |ids|
    requires chunk == ids[RowSize * i .. Min(RowSize * i + RowSize, |ids|)]
    requires |row| == |chunk|
    requires forall j :: 0 <= j < |row| ==> row[j] == Button(prefix + chunk[j], Label(i * RowSize + j + 1), false)
    ensures row == Rows(prefix, ids)[i]
  {
    var spec := Rows(prefix, ids)[i];
    assert |row| == |spec|;
    forall j | 0 <= j < |row| ensures row[j] == spec[j] {
      assert chunk[j] == ids[RowSize * i + j];
    }
  }

  /** The inner loop: one button per id of a slice, numbered on from
      `base`. */
  method BuildRow(prefix: string, chunk: seq<string>, base: nat) returns (row: seq<Button>)
    ensures |row| == |chunk|
    ensures forall j :: 0 <= j < |row| ==> row[j] == Button(prefix + chunk[j], Label(base + j + 1), false)
  {
    row := [];
    for j := 0 to |chunk|
      invariant |row| == j
      invariant forall k :: 0 <= k < j ==> row[k] == Button(prefix + chunk[k], Label(base + k + 1), false)
    {
      row := row + [Button(prefix + chunk[j], Label(base + j + 1), false)];
    }
  }

  /** The rows with every button disabled (the collector's `end`). */
  function Disabled(rows: seq<seq<Button>>): (r: seq<seq<Button>>)
    ensures |r| == |rows|
    ensures forall i :: 0 <= i < |r| ==> |r[i]| == |rows[i]|
    ensures forall i, j :: 0 <= i < |r| && 0 <= j < |r[i]| ==> r[i][j] == rows[i][j].(disabled := true)
  {
    seq(|rows|, i requires 0 <= i < |rows| =>
      seq(|rows[i]|, j requires 0 <= j < |rows[i]| => rows[i][j].(disabled := true)))
  }
}
