// The single-selection toggle every list screen uses for its expanded row:
// `setSelected(selected === id ? null : id)`.

module Selection {
  import opened Types
  import opened Seqs

  function Toggle(selected: Option<string>, id: string): (r: Option<string>)
    ensures r.None? <==> selected == Some(id)
    ensures r.Some? ==> r.value == id
  {
    if selected == Some(id) then None else Some(id)
  }

  /** The rows drawn expanded: those whose id is the selection. */
  function ExpandedRows(ids: seq<string>, selected: Option<string>): seq<string> {
    Filter(ids, (id: string) => selected == Some(id))
  }

  /** With distinct row ids at most one row is expanded, whatever the selection. */
  lemma {:induction false} AtMostOneExpanded(ids: seq<string>, selected: Option<string>)
    requires Distinct(ids)
    ensures |ExpandedRows(ids, selected)| <= 1
  {
    if ids != [] {
      var t := ids[1..];
      if selected == Some(ids[0]) {
        forall k | 0 <= k < |t| ensures selected != Some(t[k]) {
          assert t[k] == ids[k + 1];
        }
        FilterNone(t, (id: string) => selected == Some(id));
      } else {
        AtMostOneExpanded(t, selected);
      }
    }
  }

  /** Clicking a row twice returns to no selection when it was not selected, and re-selects it otherwise. */
  lemma ToggleTwice(selected: Option<string>, id: string)
    ensures Toggle(Toggle(selected, id), id) == (if selected == Some(id) then Some(id) else None)
  {
  }
}
