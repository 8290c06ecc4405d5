/** A sync of the catalog while administrators edit it: the sync reads a row and later writes the whole
    row back, and an edit may come in between. */
module CatalogRace {
  import opened Text
  import opened Domain
  import opened Tables
  import opened CatalogSync

  /** The sync stands before the given video, or holds the row it is about to write for it. */
  datatype Progress = Progress(rows: Catalog, next: nat, held: Option<Content>)

  datatype Move = Proceed | Edit(id: string, row: Option<Content>)

  function Begin(rows: Catalog): Progress {
    Progress(rows, 0, None)
  }

  /** One call of the sync, a read or an upsert; or one edit. */
  function Moved(s: Progress, vs: seq<Video>, price: int, m: Move): Progress {
    match m
    case Edit(id, row) => s.(rows := EditRows(s.rows, id, row))
    case Proceed =>
      if s.held.Some? then Progress(s.rows[s.held.value.id := s.held.value], s.next + 1, None)
      else if s.next >= |vs| then s
      else if VideoId(vs[s.next]) == "" then s.(next := s.next + 1)
      else s.(held := Some(Merged(Lookup(s.rows, VideoId(vs[s.next])), vs[s.next], price)))
  }

  /** A sync that stops with an error just makes no further moves. */
  function Moves(s: Progress, vs: seq<Video>, price: int, ms: seq<Move>): Progress
    decreases |ms|
  {
    if ms == [] then s else Moves(Moved(s, vs, price, ms[0]), vs, price, ms[1..])
  }

  predicate Holds(s: Progress, id: string) {
    s.held.Some? && s.held.value.id == id
  }

  predicate InStep(s: Progress, vs: seq<Video>) {
    && s.next <= |vs|
    && (s.held.Some? ==> s.next < |vs| && s.held.value.id == VideoId(vs[s.next]) && s.held.value.id != "")
  }

  predicate Untouched(ms: seq<Move>, id: string) {
    forall i | 0 <= i < |ms| && ms[i].Edit? :: ms[i].id != id
  }

  lemma MovedInStep(s: Progress, vs: seq<Video>, price: int, m: Move)
    requires InStep(s, vs)
    ensures InStep(Moved(s, vs, price, m), vs) && s.next <= Moved(s, vs, price, m).next
  {
  }

  lemma {:induction false} MovesInStep(s: Progress, vs: seq<Video>, price: int, ms: seq<Move>)
    requires InStep(s, vs)
    ensures InStep(Moves(s, vs, price, ms), vs) && s.next <= Moves(s, vs, price, ms).next
    decreases |ms|
  {
    if ms != [] {
      MovedInStep(s, vs, price, ms[0]);
      MovesInStep(Moved(s, vs, price, ms[0]), vs, price, ms[1..]);
    }
  }

  // ---------- one row ----------

  /** What the sync makes of one row. */
  function RowAfter(row: Option<Content>, vs: seq<Video>, price: int, id: string): Option<Content>
    decreases |vs|
  {
    if vs == [] then row
    else RowAfter(if VideoId(vs[0]) == id then Some(Merged(row, vs[0], price)) else row, vs[1..], price, id)
  }

  lemma {:induction false} RowOfMerge(t: Catalog, vs: seq<Video>, price: int, id: string)
    requires id != ""
    ensures Lookup(MergeAll(t, vs, price), id) == RowAfter(Lookup(t, id), vs, price, id)
    decreases |vs|
  {
    if vs != [] {
      RowOfMerge(MergeOne(t, vs[0], price), vs[1..], price, id);
    }
  }

  /** The row that later moves start from: the one held, if it is written at all. */
  function RowFrom(s: Progress, u: Progress, vs: seq<Video>, price: int, id: string): Option<Content>
    requires s.next <= u.next <= |vs| && (s.held.Some? ==> s.next < |vs|)
  {
    if Holds(s, id) && s.next < u.next then RowAfter(s.held, vs[s.next + 1..u.next], price, id)
    else RowAfter(Lookup(s.rows, id), vs[s.next..u.next], price, id)
  }

  lemma Shift(vs: seq<Video>, a: nat, b: nat)
    requires a < b <= |vs|
    ensures vs[a..b][0] == vs[a] && vs[a..b][1..] == vs[a + 1..b]
  {
  }

  /** A move that is not an edit of the row does not change what becomes of it. */
  lemma MovedRow(s: Progress, u: Progress, vs: seq<Video>, price: int, m: Move, id: string)
    requires id != "" && InStep(s, vs) && (m.Edit? ==> m.id != id)
    requires Moved(s, vs, price, m).next <= u.next <= |vs|
    ensures InStep(Moved(s, vs, price, m), vs)
    ensures RowFrom(s, u, vs, price, id) == RowFrom(Moved(s, vs, price, m), u, vs, price, id)
  {
    var t := Moved(s, vs, price, m);
    if m.Edit? {
      assert Lookup(t.rows, id) == Lookup(s.rows, id);
    } else if s.next < u.next {
      Shift(vs, s.next, u.next);
    }
  }

  /** With no edit of its own id, a row becomes exactly what the sync makes of it. */
  lemma {:induction false} MovesRow(s: Progress, vs: seq<Video>, price: int, ms: seq<Move>, id: string)
    requires id != "" && InStep(s, vs) && Untouched(ms, id)
    ensures var u := Moves(s, vs, price, ms);
            s.next <= u.next <= |vs| && Lookup(u.rows, id) == RowFrom(s, u, vs, price, id)
    decreases |ms|
  {
    MovesInStep(s, vs, price, ms);
    var u := Moves(s, vs, price, ms);
    if ms == [] {
      assert vs[s.next..u.next] == [];
    } else {
      var t := Moved(s, vs, price, ms[0]);
      MovedInStep(s, vs, price, ms[0]);
      assert Untouched(ms[1..], id) by {
        forall i | 0 <= i < |ms[1..]| && ms[1..][i].Edit?
          ensures ms[1..][i].id != id
        {
          assert ms[i + 1].id != id;
        }
      }
      MovesRow(t, vs, price, ms[1..], id);
      MovedRow(s, u, vs, price, ms[0], id);
    }
  }

  /** Edits of other rows do not disturb a sync: the row is what the sync alone makes of it. */
  lemma OtherEditsHarmless(rows: Catalog, vs: seq<Video>, price: int, ms: seq<Move>, id: string)
    requires id != "" && Untouched(ms, id)
    ensures var u := Moves(Begin(rows), vs, price, ms);
            u.next <= |vs| && Lookup(u.rows, id) == Lookup(MergeAll(rows, vs[..u.next], price), id)
  {
    MovesRow(Begin(rows), vs, price, ms, id);
    var u := Moves(Begin(rows), vs, price, ms);
    assert vs[0..u.next] == vs[..u.next];
    RowOfMerge(rows, vs[..u.next], price, id);
  }

  // ---------- what becomes of an edit ----------

  lemma {:induction false} RowAfterKeeps(row: Content, vs: seq<Video>, price: int, id: string)
    ensures var r := RowAfter(Some(row), vs, price, id);
            r.Some? && r.value.price == row.price && r.value.active == row.active
            && (row.description != "" ==> r.value.description == row.description)
    decreases |vs|
  {
    if vs != [] {
      RowAfterKeeps(if VideoId(vs[0]) == id then Merged(Some(row), vs[0], price) else row, vs[1..], price, id);
    }
  }

  /** The description is the row's own, or else the first that one of its videos has. */
  lemma {:induction false} RowAfterDescription(row: Content, vs: seq<Video>, price: int, id: string)
    ensures var r := RowAfter(Some(row), vs, price, id);
            r.Some? && r.value.description == FirstDescription(vs, id, row.description)
    decreases |vs|
  {
    if vs != [] {
      var next := if VideoId(vs[0]) == id then Merged(Some(row), vs[0], price) else row;
      RowAfterDescription(next, vs[1..], price, id);
      FirstDescriptionKept(vs[1..], id, row.description);
    }
  }

  lemma FirstDescriptionKept(vs: seq<Video>, id: string, d: string)
    ensures d != "" ==> FirstDescription(vs, id, d) == d
  {
  }

  lemma {:induction false} RowAfterDelete(vs: seq<Video>, price: int, id: string)
    ensures var r := RowAfter(None, vs, price, id);
            (r.Some? <==> Mentions(vs, id)) && (r.Some? ==> r.value.price == price && r.value.active)
    decreases |vs|
  {
    if vs != [] {
      MentionsTail(vs, id);
      if VideoId(vs[0]) == id {
        RowAfterKeeps(Merged(None, vs[0], price), vs[1..], price, id);
      } else {
        RowAfterDelete(vs[1..], price, id);
      }
    }
  }

  /** The edit falls between the read and the upsert of its own id, and the upsert takes place. */
  predicate Overwritten(s: Progress, u: Progress, id: string) {
    Holds(s, id) && s.next < u.next
  }

  /** The administrator's decision about price and activity, in the table. */
  predicate InForce(t: Catalog, row: Content) {
    row.id in t && t[row.id].price == row.price && t[row.id].active == row.active
  }

  /** An edit of a row at any moment of a sync, after any edits and before edits of other rows, stays in force if
      and only if it does not fall between the read and the upsert of its own id with another decision read. A
      description it sets stays if and only if it is not overwritten, or the description written over it, which
      is the one read or else the first that a later video brings, is the same. */
  lemma EditLostExactly(rows: Catalog, vs: seq<Video>, price: int, early: seq<Move>, row: Content, late: seq<Move>)
    requires row.id != "" && row.price > 0 && Untouched(late, row.id)
    ensures var s := Moves(Begin(rows), vs, price, early);
            var u := Moves(Moved(s, vs, price, Edit(row.id, Some(row))), vs, price, late);
            && (InForce(u.rows, row)
                <==> !(Overwritten(s, u, row.id)
                       && (s.held.value.price != row.price || s.held.value.active != row.active)))
            && (row.description != "" ==>
                  (row.id in u.rows && u.rows[row.id].description == row.description
                   <==> (Overwritten(s, u, row.id) ==>
                           s.next < u.next <= |vs|
                           && FirstDescription(vs[s.next + 1..u.next], row.id, s.held.value.description)
                              == row.description)))
  {
    var s := Moves(Begin(rows), vs, price, early);
    MovesInStep(Begin(rows), vs, price, early);
    var e := Moved(s, vs, price, Edit(row.id, Some(row)));
    MovesRow(e, vs, price, late, row.id);
    var u := Moves(e, vs, price, late);
    if Overwritten(s, u, row.id) {
      RowAfterKeeps(s.held.value, vs[s.next + 1..u.next], price, row.id);
      RowAfterDescription(s.held.value, vs[s.next + 1..u.next], price, row.id);
    } else {
      RowAfterKeeps(row, vs[s.next..u.next], price, row.id);
    }
  }

  /** A deleted row comes back if and only if the sync goes on to deal with a video of its id; it comes back with
      the price and activity that the sync held if the deletion was overwritten, and with the defaults otherwise. */
  lemma DeleteUndoneExactly(rows: Catalog, vs: seq<Video>, price: int, early: seq<Move>, id: string, late: seq<Move>)
    requires id != "" && Untouched(late, id)
    ensures var s := Moves(Begin(rows), vs, price, early);
            var u := Moves(Moved(s, vs, price, Edit(id, None)), vs, price, late);
            && s.next <= u.next <= |vs|
            && (id in u.rows <==> Mentions(vs[s.next..u.next], id))
            && (id in u.rows ==>
                  if Overwritten(s, u, id)
                  then u.rows[id].price == s.held.value.price && u.rows[id].active == s.held.value.active
                  else u.rows[id].price == price && u.rows[id].active)
  {
    var s := Moves(Begin(rows), vs, price, early);
    MovesInStep(Begin(rows), vs, price, early);
    var e := Moved(s, vs, price, Edit(id, None));
    MovesRow(e, vs, price, late, id);
    var u := Moves(e, vs, price, late);
    if Overwritten(s, u, id) {
      Shift(vs, s.next, u.next);
      RowAfterKeeps(s.held.value, vs[s.next + 1..u.next], price, id);
      assert Mentions(vs[s.next..u.next], id) by {
        assert VideoId(vs[s.next..u.next][0]) == id;
      }
    } else {
      assert Lookup(e.rows, id) == None;
      RowAfterDelete(vs[s.next..u.next], price, id);
    }
  }
}
