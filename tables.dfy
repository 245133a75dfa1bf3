/** The data frame that `pd.read_csv` produces, taken abstractly: an ordered header, one column
    of cells per name (pandas stores a frame column by column), and the number of rows. A cell is
    missing (pandas' NaN), a number, or text that pandas left as a string. */
module Tables {
  import opened Seqs

  datatype Cell = Missing | Num(value: real) | Text(text: string)

  datatype Table = Table(header: seq<string>, columns: seq<seq<Cell>>, height: nat)

  /** What `read_csv` guarantees: one column per name and every column `height` cells long.
      (Column names are also distinct; see DistinctNames.) */
  predicate WellFormed(t: Table) {
    |t.columns| == |t.header| && forall j :: 0 <= j < |t.columns| ==> |t.columns[j]| == t.height
  }

  /** pandas renames duplicate names in a CSV header, so a loaded frame has distinct names. */
  predicate DistinctNames(t: Table) {
    Distinct(t.header)
  }

  /** The first position at or after `from` that holds the name; |h| when there is none. */
  function IndexFrom(h: seq<string>, name: string, from: nat): (k: nat)
    requires from <= |h|
    ensures from <= k <= |h|
    ensures k < |h| ==> h[k] == name
    ensures forall m :: from <= m < k ==> h[m] != name
    decreases |h| - from
  {
    if from == |h| then from
    else if h[from] == name then from
    else IndexFrom(h, name, from + 1)
  }

  /** Position of the first occurrence of a column name in the header; |h| when it is absent. */
  function IndexOf(h: seq<string>, name: string): (k: nat)
    ensures k <= |h|
    ensures k < |h| <==> name in h
    ensures k < |h| ==> h[k] == name
    ensures forall m :: 0 <= m < k ==> h[m] != name
  {
    IndexFrom(h, name, 0)
  }

  /** Appending a name does not move the names already there. */
  lemma IndexOfAppend(h: seq<string>, name: string, c: string)
    requires c in h
    ensures IndexOf(h + [name], c) == IndexOf(h, c)
  {
    var k := IndexOf(h, c);
    var k' := IndexOf(h + [name], c);
    assert (h + [name])[k] == c;
    assert k' <= k;
    assert forall m :: 0 <= m < k' ==> (h + [name])[m] == h[m];
  }

  /** `df[name]`: the cells of one column, top to bottom. */
  function Column(t: Table, name: string): (col: seq<Cell>)
    requires WellFormed(t) && name in t.header
    ensures |col| == t.height
  {
    t.columns[IndexOf(t.header, name)]
  }

  /** `df[name] = vals`: an existing column is overwritten where it stands, a new one is
      appended at the right; every other column keeps its cells. */
  function AssignColumn(t: Table, name: string, vals: seq<Cell>): (r: Table)
    requires WellFormed(t) && |vals| == t.height
    ensures WellFormed(r) && r.height == t.height
    ensures r.header == if name in t.header then t.header else t.header + [name]
    ensures Column(r, name) == vals
    ensures forall c :: c in t.header && c != name ==> Column(r, c) == Column(t, c)
    ensures DistinctNames(t) ==> DistinctNames(r)
  {
    if name in t.header then
      var j := IndexOf(t.header, name);
      var r := Table(t.header, t.columns[j := vals], t.height);
      assert forall c :: c in t.header && c != name ==> IndexOf(t.header, c) != j;
      r
    else
      var r := Table(t.header + [name], t.columns + [vals], t.height);
      assert r.header[|t.header|] == name;
      assert IndexOf(r.header, name) == |t.header|;
      assert forall c :: c in t.header ==> IndexOf(r.header, c) == IndexOf(t.header, c) by {
        forall c | c in t.header ensures IndexOf(r.header, c) == IndexOf(t.header, c) {
          IndexOfAppend(t.header, name, c);
        }
      }
      r
  }

  /** Assigning a column its own cells changes nothing. */
  lemma AssignOwnColumn(t: Table, name: string)
    requires WellFormed(t) && name in t.header
    ensures AssignColumn(t, name, Column(t, name)) == t
  {
  }

  /** `df.head(n).to_dict('records')`: the first n rows (all of them when there are fewer), each
      mapping every column name to that row's cell in the column. */
  function HeadRecords(t: Table, n: nat): (r: seq<map<string, Cell>>)
    requires WellFormed(t)
    ensures |r| == if t.height < n then t.height else n
    ensures forall i :: 0 <= i < |r| ==> r[i].Keys == (set c | c in t.header)
    ensures forall i, c :: 0 <= i < |r| && c in t.header ==> r[i][c] == Column(t, c)[i]
  {
    var k := if t.height < n then t.height else n;
    seq(k, i requires 0 <= i < k => map c | c in t.header :: Column(t, c)[i])
  }
}
