/** The Overview tab of main.py: the aggregated rows whose source and type are both among
    the selected ones, in table order, and the first twenty of them as the top table. */
module Overview {
  import Seqs
  import opened Aggregate

  const TableRows: nat := 20

  predicate Shown(sources: set<string>, types: set<string>, r: Row)
  {
    r.source.Label() in sources && r.kind.Label() in types
  }

  /** `data[data['source'].isin(sources) & data['type'].isin(types)]` */
  function Selected(rows: seq<Row>, sources: set<string>, types: set<string>): seq<Row>
  {
    Seqs.Filter(rows, r => Shown(sources, types, r))
  }

  /** `filtered_data.head(20)` */
  function TopTable(rows: seq<Row>, sources: set<string>, types: set<string>): seq<Row>
  {
    var f := Selected(rows, sources, types);
    f[..Seqs.Min(TableRows, |f|)]
  }

  /** `data['source'].unique()`, the default selection of sources. */
  function SourceLabels(rows: seq<Row>): set<string>
  {
    set r | r in rows :: r.source.Label()
  }

  /** `data['type'].unique()`, the default selection of types. */
  function TypeLabels(rows: seq<Row>): set<string>
  {
    set r | r in rows :: r.kind.Label()
  }

  /** The filter keeps exactly the rows whose source and type are both selected, each as
      many times as it occurs, and keeps their order. */
  lemma SelectedSpec(rows: seq<Row>, sources: set<string>, types: set<string>)
    ensures forall r :: r in Selected(rows, sources, types) <==>
      r in rows && r.source.Label() in sources && r.kind.Label() in types
    ensures forall r ::
      multiset(Selected(rows, sources, types))[r] == if Shown(sources, types, r) then multiset(rows)[r] else 0
    ensures Seqs.IsSubsequence(Selected(rows, sources, types), rows)
  {
    Seqs.FilterMultiplicity(rows, r => Shown(sources, types, r));
    Seqs.FilterIsSubsequence(rows, r => Shown(sources, types, r));
  }

  /** The top table: the first min(20, selected) selected rows, all of them selected rows. */
  lemma TopTableSpec(rows: seq<Row>, sources: set<string>, types: set<string>)
    ensures var top, f := TopTable(rows, sources, types), Selected(rows, sources, types);
      |top| == Seqs.Min(TableRows, |f|) && |top| <= TableRows && Seqs.IsPrefix(top, f) &&
      forall i :: 0 <= i < |top| ==> top[i] in rows && Shown(sources, types, top[i])
  {
    var top, f := TopTable(rows, sources, types), Selected(rows, sources, types);
    SelectedSpec(rows, sources, types);
    assert forall i :: 0 <= i < |top| ==> top[i] == f[i];
  }

  /** With the default selection (every source and every type present) nothing is
      filtered out. */
  lemma DefaultSelectionKeepsAll(rows: seq<Row>)
    ensures Selected(rows, SourceLabels(rows), TypeLabels(rows)) == rows
  {
    var sources, types := SourceLabels(rows), TypeLabels(rows);
    forall i | 0 <= i < |rows|
      ensures Shown(sources, types, rows[i])
    {
      assert rows[i] in rows;
    }
    Seqs.FilterAll(rows, r => Shown(sources, types, r));
  }
}
