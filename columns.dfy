/** The column-discovery effect of src/components/DataUpload.tsx: when the
    loaded data has a first record, the columns become that record's keys
    and the selection their first two. */
module Columns {
  import opened Seqs
  import opened Text
  import opened Records

  /** The `columns` and `selectedColumns` state. */
  datatype ColumnState = ColumnState(columns: seq<string>, selected: seq<string>)

  function Min(a: int, b: int): int {
    if a <= b then a else b
  }

  /** The effect run after `data` changes: with at least one record the
      columns are `Object.keys(data[0])` and the selection is their first
      `min(2, |columns|)`; otherwise both stay as they were. */
  function Discover(data: Option<seq<Record>>, prior: ColumnState): (s: ColumnState)
    ensures data.None? || |data.value| == 0 ==> s == prior
    ensures data.Some? && |data.value| > 0 ==>
      && s.columns == Keys(data.value[0])
      && multiset(s.columns) == multiset(data.value[0].created)
      && |s.selected| == Min(2, |s.columns|)
      && s.selected == s.columns[..|s.selected|]
  {
    if data.Some? && |data.value| > 0 then
      var cs := Keys(data.value[0]);
      OwnKeysOrder(data.value[0].created);
      ColumnState(cs, cs[..Min(2, |cs|)])
    else prior
  }

  /** Discovered columns name the first record's properties, once each. */
  lemma DiscoveredColumnsDistinct(data: seq<Record>, prior: ColumnState)
    requires |data| > 0 && WellFormed(data[0])
    ensures var s := Discover(Some(data), prior);
      && Distinct(s.columns)
      && forall k :: k in s.columns <==> k in data[0].props
  {
    var s := Discover(Some(data), prior);
    forall k ensures k in s.columns <==> k in data[0].props {
      assert k in s.columns <==> k in multiset(data[0].created);
    }
  }

  /** When no key of the first record is an array index, the columns are
      its keys in creation order and the selection is the first two. For a
      record parsed from CSV with distinct trimmed headers, that order is
      header order (Csv.RowShape). */
  lemma ColumnsInCreationOrder(data: seq<Record>, prior: ColumnState)
    requires |data| > 0
    requires forall j :: 0 <= j < |data[0].created| ==> !IsArrayIndex(data[0].created[j])
    ensures var s := Discover(Some(data), prior);
      && s.columns == data[0].created
      && s.selected == data[0].created[..Min(2, |data[0].created|)]
  {
    OwnKeysInCreationOrder(data[0].created);
  }
}
