/** Stored market data: merging pages into a file, and deriving longer bars from one-minute bars. */
module BarStore {
  import opened Common
  import opened Timeline
  import opened Market

  /** A page of rows; `timed` is false when it lacks the timestamp column. */
  datatype Page = Page(timed: bool, rows: seq<Bar>)

  function MergeRows(existing: seq<Bar>, page: seq<Bar>): seq<Bar> {
    SortBy(KeepLast(existing + page, BarTime), BarTime)
  }

  /** What a save leaves in the file: a merge, or the page itself when either side has no timestamps. */
  function Merged(existing: Option<Page>, page: Page): Page {
    if existing.Some? && existing.value.timed && page.timed then Page(true, MergeRows(existing.value.rows, page.rows))
    else page
  }

  /** The file after a series of saves. */
  function Saved(pages: seq<Page>): Option<Page> {
    if pages == [] then None else Some(Merged(Saved(pages[..|pages| - 1]), pages[|pages| - 1]))
  }

  class BarFile {
    var stored: Option<Page>

    constructor ()
      ensures stored == None
    {
      stored := None;
    }

    method Save(page: Page)
      modifies this
      ensures stored == Some(Merged(old(stored), page))
    {
      var frame := page;
      if stored.Some? {
        var existing := stored.value;
        if page.timed && existing.timed {
          var combined := KeepLast(existing.rows + page.rows, BarTime);
          frame := Page(true, SortBy(combined, BarTime));
        }
      }
      stored := Some(frame);
    }
  }

  // ---- the row a key resolves to ----

  /** The last row stamped `t`, if any. */
  function LastAt(rows: seq<Bar>, t: int): Option<Bar> {
    if rows == [] then None
    else if rows[|rows| - 1].time == t then Some(rows[|rows| - 1])
    else LastAt(rows[..|rows| - 1], t)
  }

  /** The row of the last page that has one at `t`: the pages as overriding maps. */
  function Override(pages: seq<Page>, t: int): Option<Bar> {
    if pages == [] then None
    else
      var last := LastAt(pages[|pages| - 1].rows, t);
      if last.Some? then last else Override(pages[..|pages| - 1], t)
  }

  lemma {:induction false} LastAtConcat(a: seq<Bar>, b: seq<Bar>, t: int)
    ensures LastAt(a + b, t) == if LastAt(b, t).Some? then LastAt(b, t) else LastAt(a, t)
  {
    if b == [] {
      assert a + b == a;
    } else {
      assert (a + b)[..|a + b| - 1] == a + b[..|b| - 1];
      LastAtConcat(a, b[..|b| - 1], t);
    }
  }

  lemma {:induction false} LastAtNone(rows: seq<Bar>, t: int)
    ensures LastAt(rows, t).None? <==> !HasKey(rows, BarTime, t)
    ensures LastAt(rows, t).Some? ==> LastAt(rows, t).value in rows && LastAt(rows, t).value.time == t
  {
    if rows != [] {
      var init := rows[..|rows| - 1];
      LastAtNone(init, t);
      assert rows == init + [rows[|rows| - 1]];
      if HasKey(init, BarTime, t) {
        var i :| 0 <= i < |init| && BarTime(init[i]) == t;
        assert BarTime(rows[i]) == t;
      }
      if rows[|rows| - 1].time == t {
        assert BarTime(rows[|rows| - 1]) == t;
      } else if HasKey(rows, BarTime, t) {
        var i :| 0 <= i < |rows| && BarTime(rows[i]) == t;
        assert BarTime(init[i]) == t;
      }
    }
  }

  lemma LastAtFront(head: Bar, rest: seq<Bar>, t: int)
    ensures LastAt([head] + rest, t) == if LastAt(rest, t).Some? then LastAt(rest, t) else if head.time == t then Some(head) else None
  {
    LastAtConcat([head], rest, t);
    assert [head][..0] == [];
  }

  lemma {:induction false} KeepLastLastAt(rows: seq<Bar>, t: int)
    ensures LastAt(KeepLast(rows, BarTime), t) == LastAt(rows, t)
  {
    if rows != [] {
      KeepLastLastAt(rows[1..], t);
      assert rows == [rows[0]] + rows[1..];
      LastAtFront(rows[0], rows[1..], t);
      LastAtNone(rows[1..], rows[0].time);
      if !HasKey(rows[1..], BarTime, rows[0].time) {
        LastAtFront(rows[0], KeepLast(rows[1..], BarTime), t);
      }
    }
  }

  lemma {:induction false} KeepLastUnique(rows: seq<Bar>)
    ensures UniqueKeys(KeepLast(rows, BarTime), BarTime)
    ensures forall x :: x in KeepLast(rows, BarTime) ==> x in rows
  {
    if rows != [] {
      KeepLastUnique(rows[1..]);
      assert rows == [rows[0]] + rows[1..];
      var r := KeepLast(rows[1..], BarTime);
      if !HasKey(rows[1..], BarTime, BarTime(rows[0])) {
        forall i | 0 <= i < |r| ensures BarTime(r[i]) != BarTime(rows[0]) {
          assert r[i] in r;
          var j :| 0 <= j < |rows[1..]| && rows[1..][j] == r[i];
          assert BarTime(rows[1..][j]) == BarTime(r[i]);
        }
      }
    }
  }

  /** With distinct stamps the row at `t` does not depend on the order of the rows. */
  lemma LastAtMember(rows: seq<Bar>, x: Bar)
    requires UniqueKeys(rows, BarTime) && x in rows
    ensures LastAt(rows, x.time) == Some(x)
  {
    LastAtNone(rows, x.time);
    var i :| 0 <= i < |rows| && rows[i] == x;
    assert BarTime(rows[i]) == x.time;
    var y := LastAt(rows, x.time).value;
    var j :| 0 <= j < |rows| && rows[j] == y;
    assert BarTime(rows[i]) == BarTime(rows[j]);
  }

  lemma SortLastAt(rows: seq<Bar>, t: int)
    requires UniqueKeys(rows, BarTime)
    ensures LastAt(SortBy(rows, BarTime), t) == LastAt(rows, t)
  {
    var sorted := SortBy(rows, BarTime);
    SortIsSorted(rows, BarTime);
    SortKeepsUnique(rows, BarTime);
    LastAtNone(rows, t);
    LastAtNone(sorted, t);
    if LastAt(rows, t).Some? {
      LastAtMember(sorted, LastAt(rows, t).value);
    } else if LastAt(sorted, t).Some? {
      LastAtMember(rows, LastAt(sorted, t).value);
    }
  }

  lemma MergedRowAt(existing: seq<Bar>, page: seq<Bar>, t: int)
    ensures LastAt(MergeRows(existing, page), t) == if LastAt(page, t).Some? then LastAt(page, t) else LastAt(existing, t)
    ensures Increasing(MergeRows(existing, page), BarTime)
  {
    KeepLastUnique(existing + page);
    SortUnique(KeepLast(existing + page, BarTime), BarTime);
    SortLastAt(KeepLast(existing + page, BarTime), t);
    KeepLastLastAt(existing + page, t);
    LastAtConcat(existing, page, t);
  }

  /**
   Merging is map override: after any saves of timed pages the row at every stamp is the one of the
   last page that has it, and the file is strictly increasing exactly when a merge has happened or
   the only page was.
   */
  lemma {:induction false} SavesOverride(pages: seq<Page>, t: int)
    requires pages != [] && forall i :: 0 <= i < |pages| ==> pages[i].timed
    ensures Saved(pages).value.timed && LastAt(Saved(pages).value.rows, t) == Override(pages, t)
    ensures Increasing(Saved(pages).value.rows, BarTime) <==> |pages| > 1 || Increasing(pages[0].rows, BarTime)
  {
    var rest, last := pages[..|pages| - 1], pages[|pages| - 1];
    if rest == [] {
      assert Saved(rest) == None && Override(rest, t) == None;
      LastAtNone(last.rows, t);
    } else {
      SavesOverride(rest, t);
      MergedRowAt(Saved(rest).value.rows, last.rows, t);
    }
  }

  lemma EndRow(rows: seq<Bar>)
    requires rows != []
    ensures LastAt(rows, rows[|rows| - 1].time) == Some(rows[|rows| - 1])
  {
  }

  /** Strictly increasing files with the same row at every stamp are the same file. */
  lemma {:induction false} SameRows(a: seq<Bar>, b: seq<Bar>)
    requires Increasing(a, BarTime) && Increasing(b, BarTime) && forall t :: LastAt(a, t) == LastAt(b, t)
    ensures a == b
  {
    if a != [] {
      EndRow(a);
    }
    if b != [] {
      EndRow(b);
    }
    if a != [] && b != [] {
      var x, y := a[|a| - 1], b[|b| - 1];
      NotAfterLast(a, y.time);
      NotAfterLast(b, x.time);
      assert LastAt(a, x.time) == LastAt(b, x.time) && LastAt(a, y.time) == LastAt(b, y.time);
      var ra, rb := a[..|a| - 1], b[..|b| - 1];
      forall t ensures LastAt(ra, t) == LastAt(rb, t) {
        if t == x.time {
          AtMostBefore(a);
          AtMostBefore(b);
        } else {
          assert LastAt(a, t) == LastAt(b, t);
        }
      }
      SameRows(ra, rb);
    }
  }

  lemma NotAfterLast(rows: seq<Bar>, t: int)
    requires rows != [] && Increasing(rows, BarTime)
    ensures LastAt(rows, t).Some? ==> t <= rows[|rows| - 1].time
  {
    LastAtNone(rows, t);
    if LastAt(rows, t).Some? {
      var i :| 0 <= i < |rows| && rows[i] == LastAt(rows, t).value;
      if i < |rows| - 1 {
        assert BarTime(rows[i]) < BarTime(rows[|rows| - 1]);
      }
    }
  }

  lemma AtMostBefore(rows: seq<Bar>)
    requires rows != [] && Increasing(rows, BarTime)
    ensures LastAt(rows[..|rows| - 1], rows[|rows| - 1].time).None?
  {
    var init, t := rows[..|rows| - 1], rows[|rows| - 1].time;
    LastAtNone(init, t);
    forall i | 0 <= i < |init| ensures BarTime(init[i]) != t {
      assert BarTime(rows[i]) < BarTime(rows[|rows| - 1]);
    }
  }

  /** Saving the latest page once more changes nothing, once the file is strictly increasing. */
  lemma {:induction false} ResaveChangesNothing(pages: seq<Page>)
    requires pages != [] && forall i :: 0 <= i < |pages| ==> pages[i].timed
    requires |pages| > 1 || Increasing(pages[0].rows, BarTime)
    ensures Saved(pages + [pages[|pages| - 1]]) == Saved(pages)
  {
    var last := pages[|pages| - 1];
    assert (pages + [last])[..|pages|] == pages;
    SavesOverride(pages, 0);
    var file := Saved(pages).value.rows;
    MergedRowAt(file, last.rows, 0);
    forall t ensures LastAt(MergeRows(file, last.rows), t) == LastAt(file, t) {
      MergedRowAt(file, last.rows, t);
      SavesOverride(pages, t);
    }
    SameRows(MergeRows(file, last.rows), file);
  }

  /** Saves after a page without timestamps cannot see what was before it. */
  lemma {:induction false} UntimedCuts(before: seq<Page>, page: Page, after: seq<Page>)
    requires !page.timed
    ensures Saved(before + [page] + after) == Saved([page] + after)
  {
    var all := before + [page] + after;
    if after == [] {
      assert all[..|all| - 1] == before && [page][..0] == [];
      assert before + [page] + [] == before + [page] && [page] + [] == [page];
    } else {
      var rest, last := after[..|after| - 1], after[|after| - 1];
      assert all[..|all| - 1] == before + [page] + rest;
      assert ([page] + after)[..|after|] == [page] + rest;
      UntimedCuts(before, page, rest);
    }
  }

  /**
   A page without timestamps cuts the file's history: it replaces what was there and is itself replaced
   by the next page, so the file holds what the pages after it alone would leave.
   */
  lemma {:induction false} UntimedPageIsLost(before: seq<Page>, page: Page, after: seq<Page>)
    requires !page.timed
    ensures Saved(before + [page] + after) == Some(if after == [] then page else Saved(after).value)
  {
    UntimedCuts(before, page, after);
    if after == [] {
      assert [page] + after == [page] && [page][..0] == [];
    } else {
      NextPageReplaces(page, after);
    }
  }

  lemma {:induction false} NextPageReplaces(page: Page, after: seq<Page>)
    requires !page.timed && after != []
    ensures Saved([page] + after) == Saved(after)
  {
    var rest := after[..|after| - 1];
    assert ([page] + after)[..|after|] == [page] + rest;
    if rest == [] {
      assert [page] + rest == [page] && [page][..0] == [];
    } else {
      NextPageReplaces(page, rest);
    }
  }
}
