/** The section manager (components/admin/AdminSectionManager.tsx): it
    shows the sections sorted by `order`, and its buttons hand the row
    index and the section id to the admin panel's `moveSection` and
    `toggleSection`. */
module AdminSectionManager {
  import opened Types
  import Sections
  import AdminPanel

  /** `[...sections].sort((a, b) => a.order - b.order)`: the rows shown. */
  function Rows(sections: seq<SectionConfig>): seq<SectionConfig>
  {
    Sections.SortByOrder(sections)
  }

  /** The rows are the sections, sorted, each order value's sections in
      their input order; the list itself is a value and so is never
      reordered. */
  lemma RowsSpec(sections: seq<SectionConfig>)
    ensures Sections.SortedByOrder(Rows(sections))
    ensures multiset(Rows(sections)) == multiset(sections)
    ensures forall v :: Sections.WithOrder(Rows(sections), v) == Sections.WithOrder(sections, v)
  {
    forall v ensures Sections.WithOrder(Rows(sections), v) == Sections.WithOrder(sections, v) {
      Sections.SortIsStable(sections, v);
    }
  }

  /** `disabled={idx === 0}` on "up". */
  predicate UpDisabled(idx: nat) {
    idx == 0
  }

  /** `disabled={idx === arr.length - 1}` on "down". */
  predicate DownDisabled(rows: seq<SectionConfig>, idx: nat) {
    idx == |rows| - 1
  }

  /** Two sections share an order value only if filtering for it finds
      at least two. */
  lemma {:induction false} SharedOrderFoundTwice(s: seq<SectionConfig>, i: nat, j: nat)
    requires i < j < |s| && s[i].order == s[j].order
    ensures |Sections.WithOrder(s, s[i].order)| >= 2
  {
    var v := s[i].order;
    if i == 0 {
      FoundOnce(s[1..], v, j - 1);
    } else {
      SharedOrderFoundTwice(s[1..], i - 1, j - 1);
    }
  }

  lemma {:induction false} FoundOnce(s: seq<SectionConfig>, v: int, k: nat)
    requires k < |s| && s[k].order == v
    ensures |Sections.WithOrder(s, v)| >= 1
  {
    if k > 0 && s[0].order != v {
      FoundOnce(s[1..], v, k - 1);
    }
  }

  /** Sorting keeps the order values pairwise distinct. */
  lemma RowsKeepDistinctOrders(sections: seq<SectionConfig>)
    requires Sections.DistinctOrders(sections)
    ensures Sections.DistinctOrders(Rows(sections))
  {
    var rows := Rows(sections);
    RowsSpec(sections);
    forall i, j | 0 <= i < j < |rows| ensures rows[i].order != rows[j].order {
      if rows[i].order == rows[j].order {
        SharedOrderFoundTwice(rows, i, j);
        assert rows[i] in multiset(sections);
        var k :| 0 <= k < |sections| && sections[k] == rows[i];
        AdminPanel.WithOrderOfDistinct(sections, rows[i].order, k);
        assert false;
      }
    }
  }

  /** With distinct orders, a button is disabled exactly where pressing it
      would change nothing. */
  lemma DisabledIffNoMove(sections: seq<SectionConfig>, idx: nat, dir: AdminPanel.Direction)
    requires Sections.DistinctOrders(sections)
    requires idx < |sections|
    ensures (if dir == AdminPanel.Up then UpDisabled(idx) else DownDisabled(Rows(sections), idx))
            <==> AdminPanel.Moved(Rows(sections), idx, dir) == Rows(sections)
  {
    var rows := Rows(sections);
    RowsKeepDistinctOrders(sections);
    AdminPanel.MovedSpec(rows, idx, dir);
    var r := AdminPanel.Moved(rows, idx, dir);
    if dir == AdminPanel.Up && idx > 0 {
      assert r[idx].order == rows[idx - 1].order != rows[idx].order;
    } else if dir == AdminPanel.Down && idx < |rows| - 1 {
      assert r[idx].order == rows[idx + 1].order != rows[idx].order;
    }
  }

  /** The index "up" hands over is the row's index in the same sort the
      panel applies, so after the move the panel shows the clicked section
      one row higher, changed places with the one above it. */
  lemma UpMovesClickedRow(sections: seq<SectionConfig>, idx: nat)
    requires Sections.DistinctOrders(sections)
    requires 0 < idx < |sections|
    ensures var after := Rows(AdminPanel.Moved(Rows(sections), idx, AdminPanel.Up));
            |after| == |sections|
            && after[idx - 1].id == Rows(sections)[idx].id
            && after[idx].id == Rows(sections)[idx - 1].id
            && forall k :: 0 <= k < |after| && k != idx - 1 && k != idx ==> after[k] == Rows(sections)[k]
  {
    var rows := Rows(sections);
    RowsSpec(sections);
    RowsKeepDistinctOrders(sections);
    AdminPanel.MoveUpResorted(rows, idx);
  }

  /** "Down" moves the clicked section one row lower. */
  lemma DownMovesClickedRow(sections: seq<SectionConfig>, idx: nat)
    requires Sections.DistinctOrders(sections)
    requires idx + 1 < |sections|
    ensures var after := Rows(AdminPanel.Moved(Rows(sections), idx, AdminPanel.Down));
            |after| == |sections|
            && after[idx + 1].id == Rows(sections)[idx].id
            && after[idx].id == Rows(sections)[idx + 1].id
            && forall k :: 0 <= k < |after| && k != idx && k != idx + 1 ==> after[k] == Rows(sections)[k]
  {
    AdminPanel.DownIsUpBelow(Rows(sections), idx);
    UpMovesClickedRow(sections, idx + 1);
  }

  /** The checkbox hands over the row's id; after the toggle the same row
      shows the section with its visibility flipped, and no row moves. */
  lemma ToggleFlipsClickedRow(sections: seq<SectionConfig>, idx: nat)
    requires idx < |sections|
    ensures var after := Rows(AdminPanel.Toggled(sections, Rows(sections)[idx].id));
            |after| == |sections|
            && after[idx] == Rows(sections)[idx].(visible := !Rows(sections)[idx].visible)
            && forall k :: 0 <= k < |after| ==> after[k].id == Rows(sections)[k].id && after[k].order == Rows(sections)[k].order
  {
    var rows := Rows(sections);
    var id := rows[idx].id;
    AdminPanel.ToggleKeepsPositions(sections, id);
    var after := Rows(AdminPanel.Toggled(sections, id));
    assert after == AdminPanel.Toggled(rows, id);
    AdminPanel.ToggledSpec(rows, id);
  }
}
