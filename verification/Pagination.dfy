/**
  The public listing: keyset pagination with a cursor that carries the search mode (ListPublic in
  backend/repository/video_repository.go, ListReels in backend/usecase/video_usecase.go).
 */
module Pagination {
  import opened Common
  import opened LikeEscape

  // pg_trgm's word_similarity, a fixed score for each query and title.
  type Score = (string, string) -> real

  ghost predicate ScoreOk(score: Score) {
    forall q, t :: 0.0 <= score(q, t) <= 1.0
  }

  // A category code as a caller sends it.
  datatype Category = Brewing | Roasting | LatteArt | Beans | Equipment | Unknown(code: string)

  // The columns of a publicly visible row the listing depends on. They never change while the row exists.
  datatype Item = Item(author: Id, category: Category, title: string, createdAt: Time)

  // The rows visible to the public at the moment of a query.
  type Table = map<Id, Item>

  datatype Mode = All | Matched | Similar

  datatype Filter = Filter(title: string, category: Option<Category>, author: Option<Id>) {
    predicate IsValid() {
      author != Some(0) && (category.Some? ==> !category.value.Unknown?)
    }
  }

  // Who is logged in.
  datatype Viewer = Viewer(id: Id, active: bool)

  datatype SortKey = SortKey(similarity: real, createdAt: Time, id: Id)

  // The filter stands for its hash, which is taken as injective.
  datatype Cursor = Cursor(mode: Mode, key: SortKey, filter: Filter)

  datatype Page = Page(items: seq<Id>, hasMore: bool, last: SortKey)

  datatype Output = Output(items: seq<Id>, mode: Mode, hasMore: bool, next: Option<Cursor>)

  // ---------------------------------------------------------------- the query

  predicate Below(a: SortKey, b: SortKey) {
    || a.similarity < b.similarity
    || (a.similarity == b.similarity
        && (a.createdAt < b.createdAt || (a.createdAt == b.createdAt && a.id < b.id)))
  }

  // Only the similar mode selects a similarity.
  function KeyOf(score: Score, mode: Mode, f: Filter, id: Id, item: Item): SortKey {
    SortKey(if mode == Similar then score(f.title, item.title) else 0.0, item.createdAt, id)
  }

  predicate Matches(score: Score, mode: Mode, f: Filter, item: Item) {
    && (f.category.Some? ==> item.category == f.category.value)
    && (f.author.Some? ==> item.author == f.author.value)
    && (mode == Matched && f.title != "" ==> Contains(item.title, f.title))
    && (mode == Similar ==> score(f.title, item.title) >= 0.6)
  }

  predicate After(cursor: Option<Cursor>, key: SortKey) {
    cursor.Some? ==> Below(key, cursor.value.key)
  }

  /** The row belongs to what is left of a listing after the cursor. */
  predicate Remains(score: Score, t: Table, mode: Mode, f: Filter, cursor: Option<Cursor>, id: Id) {
    id in t && Matches(score, mode, f, t[id]) && After(cursor, KeyOf(score, mode, f, id, t[id]))
  }

  ghost predicate Descending(score: Score, t: Table, mode: Mode, f: Filter, rows: seq<Id>) {
    && (forall i | 0 <= i < |rows| :: rows[i] in t)
    && (forall i, j | 0 <= i < j < |rows| ::
          Below(KeyOf(score, mode, f, rows[j], t[rows[j]]), KeyOf(score, mode, f, rows[i], t[rows[i]])))
  }

  ghost predicate BelowAll(score: Score, t: Table, mode: Mode, f: Filter, id: Id, rows: seq<Id>)
    requires id in t && forall i | 0 <= i < |rows| :: rows[i] in t
  {
    forall i | 0 <= i < |rows| :: Below(KeyOf(score, mode, f, id, t[id]), KeyOf(score, mode, f, rows[i], t[rows[i]]))
  }

  /** What ORDER BY and LIMIT make of the remaining rows: the topmost `n`, best first. */
  ghost predicate Topmost(score: Score, t: Table, mode: Mode, f: Filter, cursor: Option<Cursor>, n: nat, rows: seq<Id>) {
    && |rows| <= n
    && (forall i | 0 <= i < |rows| :: Remains(score, t, mode, f, cursor, rows[i]))
    && Descending(score, t, mode, f, rows)
    && (forall id | Remains(score, t, mode, f, cursor, id) && id !in rows ::
          |rows| == n && BelowAll(score, t, mode, f, id, rows))
  }

  // ---------------------------------------------------------------- validation

  predicate ModeFits(mode: Mode, f: Filter) {
    match mode
    case All => f.title == "" && f.category.None?
    case Matched => f.title != "" || f.category.Some?
    case Similar => f.title != ""
  }

  // validatePublicVideoListInput of the repository
  function ListError(viewer: Option<Id>, mode: Mode, f: Filter, limit: int, cursor: Option<Cursor>): Option<Error> {
    if limit < 1 || limit > 100 || viewer == Some(0) || !f.IsValid() then Some(InvalidInput)
    else if !ModeFits(mode, f) then Some(InvalidInput)
    else if cursor.None? then None
    else
      var c := cursor.value;
      if c.mode != mode || c.key.createdAt == 0 || c.key.id == 0 then Some(CursorInvalid)
      else if mode == Similar then
        if c.key.similarity < 0.6 || c.key.similarity > 1.0 then Some(CursorInvalid) else None
      else if c.key.similarity != 0.0 then Some(CursorInvalid)
      else None
  }

  // optionalViewerID
  function ViewerId(viewer: Option<Viewer>): Result<Option<Id>> {
    if viewer.None? then Success(None)
    else if viewer.value.id == 0 then Failure(Unauthorized)
    else if !viewer.value.active then Failure(UserSuspended)
    else Success(Some(viewer.value.id))
  }

  // validatePublicVideoListInput of the usecase
  function InputError(f: Filter, limit: int, cursor: Option<Cursor>): Option<Error> {
    if limit < 1 || limit > 100 || !f.IsValid() then Some(InvalidInput)
    else if cursor.Some? && (cursor.value.key.createdAt == 0 || cursor.value.key.id == 0) then Some(CursorInvalid)
    else None
  }

  // publicSearchResultType
  function ResultType(f: Filter, cursor: Option<Cursor>): Result<Mode> {
    if cursor.Some? then
      if cursor.value.filter != f || !ModeFits(cursor.value.mode, f) then Failure(CursorInvalid)
      else Success(cursor.value.mode)
    else if f.title == "" && f.category.None? then Success(All)
    else Success(Matched)
  }

  // ---------------------------------------------------------------- the two layers

  ghost predicate IsPage(score: Score, t: Table, mode: Mode, f: Filter, limit: nat, cursor: Option<Cursor>,
                         items: seq<Id>, hasMore: bool)
  {
    && Topmost(score, t, mode, f, cursor, limit, items)
    && (hasMore <==> exists id :: Remains(score, t, mode, f, cursor, id) && id !in items)
  }

  lemma BelowInit(score: Score, t: Table, mode: Mode, f: Filter, id: Id, rows: seq<Id>, n: nat)
    requires id in t && (forall i | 0 <= i < |rows| :: rows[i] in t) && n <= |rows| && BelowAll(score, t, mode, f, id, rows)
    ensures BelowAll(score, t, mode, f, id, rows[..n])
  {
    hide Below, KeyOf;
  }

  lemma DescendingInit(score: Score, t: Table, mode: Mode, f: Filter, rows: seq<Id>, n: nat)
    requires Descending(score, t, mode, f, rows) && n < |rows|
    ensures Descending(score, t, mode, f, rows[..n]) && BelowAll(score, t, mode, f, rows[n], rows[..n])
  {
    hide Below, KeyOf;
  }

  lemma FirstOfTopmost(score: Score, t: Table, mode: Mode, f: Filter, limit: nat, cursor: Option<Cursor>, rows: seq<Id>)
    requires Topmost(score, t, mode, f, cursor, limit + 1, rows)
    ensures var hasMore := |rows| > limit;
            IsPage(score, t, mode, f, limit, cursor, if hasMore then rows[..limit] else rows, hasMore)
  {
    hide Below, KeyOf, Matches, After, BelowAll, Descending;
    DescendingDistinct(score, t, mode, f, rows);
    if |rows| > limit {
      var items := rows[..limit];
      assert rows == items + [rows[limit]];
      DescendingInit(score, t, mode, f, rows, limit);
      assert Remains(score, t, mode, f, cursor, rows[limit]) && rows[limit] !in items;
      forall id | Remains(score, t, mode, f, cursor, id) && id !in items
        ensures BelowAll(score, t, mode, f, id, items)
      {
        if id != rows[limit] { BelowInit(score, t, mode, f, id, rows, limit); }
      }
    }
  }

  lemma DescendingDistinct(score: Score, rows: Table, mode: Mode, f: Filter, shown: seq<Id>)
    requires Descending(score, rows, mode, f, shown)
    ensures forall i, j | 0 <= i < j < |shown| :: shown[i] != shown[j]
  {
    forall i, j | 0 <= i < j < |shown|
      ensures shown[i] != shown[j]
    {
      assert Below(KeyOf(score, mode, f, shown[j], rows[shown[j]]), KeyOf(score, mode, f, shown[i], rows[shown[i]]));
    }
  }

  /** `rows` is the database's answer to the query that the input describes. */
  method ListPublic(viewer: Option<Id>, score: Score, t: Table, mode: Mode, f: Filter, limit: int, cursor: Option<Cursor>,
                    rows: seq<Id>)
    returns (r: Result<Page>)
    requires limit >= 1 ==> Topmost(score, t, mode, f, cursor, limit + 1, rows)
    ensures r.Failure? <==> ListError(viewer, mode, f, limit, cursor).Some?
    ensures r.Failure? ==> Some(r.error) == ListError(viewer, mode, f, limit, cursor)
    ensures r.Success? <==> viewer != Some(0) && UsableInput(f, limit) && Answers(mode, f)
                            && (cursor.Some? ==> cursor.value.mode == mode && UsableKey(mode, cursor.value.key))
    ensures r.Success? ==>
              && IsPage(score, t, mode, f, limit, cursor, r.value.items, r.value.hasMore)
              && (r.value.hasMore ==> |r.value.items| == limit)
              && (r.value.items != [] ==>
                    var last := r.value.items[|r.value.items| - 1];
                    last in t && r.value.last == KeyOf(score, mode, f, last, t[last]))
  {
    var bad := ListError(viewer, mode, f, limit, cursor);
    if bad.Some? { return Failure(bad.value); }
    var items := rows;
    var hasMore := |items| > limit;
    FirstOfTopmost(score, t, mode, f, limit, cursor, rows);
    if hasMore {
      items := items[..limit];
    }
    var page := Page(items, hasMore, SortKey(0.0, 0, 0));
    if |items| > 0 {
      var last := items[|items| - 1];
      page := page.(last := KeyOf(score, mode, f, last, t[last]));
    }
    r := Success(page);
  }

  // No row of the table matches the title.
  ghost predicate NothingMatches(score: Score, t: Table, f: Filter) {
    forall id | id in t :: !Matches(score, Matched, f, t[id])
  }

  /**
    A successful answer of ListReels. The first page of a title search reads the tables twice when nothing matches:
    `probe` is what the matching query saw, `t` what the query behind the answer saw.
   */
  ghost predicate Lists(score: Score, probe: Table, t: Table, f: Filter, limit: nat, cursor: Option<Cursor>, out: Output) {
    && IsPage(score, t, out.mode, f, limit, cursor, out.items, out.hasMore)
    && (out.hasMore ==> |out.items| == limit)
    && out.next == (if !out.hasMore || out.items == [] || out.items[|out.items| - 1] !in t then None
                    else var last := out.items[|out.items| - 1];
                         Some(Cursor(out.mode, KeyOf(score, out.mode, f, last, t[last]), f)))
    && (cursor.Some? ==> out.mode == cursor.value.mode && probe == t)
    && (cursor.None? ==>
          && (out.mode == All <==> f.title == "" && f.category.None?)
          && (out.mode == Similar ==> f.title != "" && NothingMatches(score, probe, f))
          && (out.mode == Matched && f.title != "" ==> !NothingMatches(score, probe, f))
          && (out.mode != Similar ==> probe == t))
  }

  lemma EmptyMatchedPage(score: Score, t: Table, f: Filter, limit: nat, items: seq<Id>, hasMore: bool)
    requires limit >= 1 && IsPage(score, t, Matched, f, limit, None, items, hasMore)
    ensures items == [] <==> NothingMatches(score, t, f)
  {
    if items == [] {
      forall id | id in t
        ensures !Matches(score, Matched, f, t[id])
      {
        assert Remains(score, t, Matched, f, None, id) ==> |items| == limit;
      }
    } else {
      assert Remains(score, t, Matched, f, None, items[0]);
    }
  }

  // ---------------------------------------------------------------- what a listing promises

  // Nobody, or an active user.
  predicate UsableViewer(viewer: Option<Viewer>) {
    viewer.Some? ==> viewer.value.id != 0 && viewer.value.active
  }

  predicate UsableInput(f: Filter, limit: int) {
    && 1 <= limit <= 100 && f.author != Some(0)
    && (f.category.Some? ==> f.category.value in {Brewing, Roasting, LatteArt, Beans, Equipment})
  }

  /** A cursor as a listing with the same filter may hand it out. */
  predicate UsableCursor(f: Filter, c: Cursor) {
    c.filter == f && Answers(c.mode, f) && UsableKey(c.mode, c.key)
  }

  // Everything is listed for want of a title and a category only, and only a title can be similar.
  predicate Answers(mode: Mode, f: Filter) {
    match mode
    case All => f.title == "" && f.category.None?
    case Matched => !(f.title == "" && f.category.None?)
    case Similar => f.title != ""
  }

  predicate UsableKey(mode: Mode, key: SortKey) {
    key.createdAt != 0 && key.id != 0 && if mode == Similar then 0.6 <= key.similarity <= 1.0 else key.similarity == 0.0
  }

  /** Each unusable part of the input has its own error; of several, the first in this order counts. */
  predicate RefusedWith(viewer: Option<Viewer>, f: Filter, limit: int, cursor: Option<Cursor>, e: Error) {
    if !UsableViewer(viewer) then e == if viewer.value.id == 0 then Unauthorized else UserSuspended
    else if !UsableInput(f, limit) then e == InvalidInput
    else cursor.Some? && !UsableCursor(f, cursor.value) && e == CursorInvalid
  }

  // The mode of a listing's first query.
  function FirstMode(f: Filter, cursor: Option<Cursor>): Mode {
    if cursor.Some? then cursor.value.mode else if f.title == "" && f.category.None? then All else Matched
  }

  /** The row satisfies the filter: in the matched mode the title occurs in its own, in the similar mode it is like it. */
  predicate Fits(score: Score, mode: Mode, f: Filter, item: Item) {
    && (f.category.None? || f.category.value == item.category)
    && (f.author.None? || f.author.value == item.author)
    && match mode
       case All => true
       case Matched => f.title == "" || exists n :: 0 <= n <= |item.title| && f.title <= item.title[n..]
       case Similar => score(f.title, item.title) >= 0.6
  }

  // (similarity, created_at, id) before another such triple: the more similar first, then the newer, then the larger id.
  predicate Precedes(mode: Mode, s: real, created: Time, id: Id, s2: real, created2: Time, id2: Id) {
    if mode == Similar && s != s2 then s > s2
    else if created != created2 then created > created2
    else id > id2
  }

  predicate RowPrecedes(score: Score, t: Table, mode: Mode, f: Filter, a: Id, b: Id)
    requires a in t && b in t
  {
    Precedes(mode, score(f.title, t[a].title), t[a].createdAt, a, score(f.title, t[b].title), t[b].createdAt, b)
  }

  // The row comes after the cursor.
  predicate Left(score: Score, t: Table, mode: Mode, f: Filter, cursor: Option<Cursor>, id: Id) {
    && id in t && Fits(score, mode, f, t[id])
    && (cursor.Some? ==> Precedes(mode, cursor.value.key.similarity, cursor.value.key.createdAt, cursor.value.key.id,
                                  score(f.title, t[id].title), t[id].createdAt, id))
  }

  /** The rows are the first of those left, in order; every other one comes after them, and there is one if there is more. */
  ghost predicate IsTop(score: Score, t: Table, mode: Mode, f: Filter, limit: nat, cursor: Option<Cursor>, items: seq<Id>,
                        hasMore: bool)
  {
    && |items| <= limit && (forall i | 0 <= i < |items| :: Left(score, t, mode, f, cursor, items[i]))
    && (forall i, j | 0 <= i < j < |items| :: RowPrecedes(score, t, mode, f, items[i], items[j]))
    && (forall id, i | Left(score, t, mode, f, cursor, id) && id !in items && 0 <= i < |items| ::
          RowPrecedes(score, t, mode, f, items[i], id))
    && (hasMore <==> exists id :: Left(score, t, mode, f, cursor, id) && id !in items)
    && (hasMore ==> |items| == limit)
  }

  lemma LeftRemains(score: Score, t: Table, mode: Mode, f: Filter, cursor: Option<Cursor>, id: Id)
    requires cursor.Some? ==> (mode == Similar || cursor.value.key.similarity == 0.0)
    ensures Left(score, t, mode, f, cursor, id) <==> Remains(score, t, mode, f, cursor, id)
  {
  }

  lemma PrecedesIsBelow(score: Score, t: Table, mode: Mode, f: Filter, a: Id, b: Id)
    requires a in t && b in t
    ensures RowPrecedes(score, t, mode, f, a, b) <==> Below(KeyOf(score, mode, f, b, t[b]), KeyOf(score, mode, f, a, t[a]))
  {
  }

  lemma PageIsTop(score: Score, t: Table, mode: Mode, f: Filter, limit: nat, cursor: Option<Cursor>, items: seq<Id>,
                  hasMore: bool)
    requires IsPage(score, t, mode, f, limit, cursor, items, hasMore)
    requires cursor.Some? ==> (mode == Similar || cursor.value.key.similarity == 0.0)
    ensures IsTop(score, t, mode, f, limit, cursor, items, hasMore)
  {
    hide Left, Remains, RowPrecedes, Below, KeyOf;
    forall id
      ensures Left(score, t, mode, f, cursor, id) <==> Remains(score, t, mode, f, cursor, id)
      ensures Left(score, t, mode, f, cursor, id) ==> id in t
    {
      LeftRemains(score, t, mode, f, cursor, id);
      LeftInTable(score, t, mode, f, cursor, id);
    }
    forall a, b | a in t && b in t
      ensures RowPrecedes(score, t, mode, f, a, b) <==> Below(KeyOf(score, mode, f, b, t[b]), KeyOf(score, mode, f, a, t[a]))
    {
      PrecedesIsBelow(score, t, mode, f, a, b);
    }
  }

  lemma LeftInTable(score: Score, t: Table, mode: Mode, f: Filter, cursor: Option<Cursor>, id: Id)
    ensures Left(score, t, mode, f, cursor, id) ==> id in t
  {
  }

  /** The listing usecase; `rows` and `others` are the database's answers to its first and its fallback query. */
  method ListReels(viewer: Option<Viewer>, score: Score, probe: Table, t: Table, f: Filter, limit: int,
                   cursor: Option<Cursor>, rows: seq<Id>, others: seq<Id>)
    returns (r: Result<Output>, ghost seen: Table)
    requires limit >= 1 ==> Topmost(score, probe, FirstMode(f, cursor), f, cursor, limit + 1, rows)
    requires limit >= 1 ==> Topmost(score, t, Similar, f, cursor, limit + 1, others)
    ensures r.Success? ==> 1 <= limit && seen in {probe, t} && Lists(score, probe, seen, f, limit, cursor, r.value)
    ensures r.Success? <==> UsableViewer(viewer) && UsableInput(f, limit) && (cursor.Some? ==> UsableCursor(f, cursor.value))
    ensures r.Failure? ==> RefusedWith(viewer, f, limit, cursor, r.error)
    ensures r.Success? ==> IsTop(score, seen, r.value.mode, f, limit, cursor, r.value.items, r.value.hasMore)
    // The second query is made, and decides, exactly if the first finds no title that contains the query.
    ensures r.Success? ==>
              if cursor.None? && f.title != "" && forall id | id in probe :: !Fits(score, Matched, f, probe[id])
              then r.value.mode == Similar && seen == t else r.value.mode == FirstMode(f, cursor) && seen == probe
  {
    hide IsPage, Topmost, NothingMatches, IsTop;
    seen := probe;
    var who := ViewerId(viewer);
    if who.Failure? { return Failure(who.error), seen; }
    var bad := InputError(f, limit, cursor);
    if bad.Some? { return Failure(bad.value), seen; }
    var kind := ResultType(f, cursor);
    if kind.Failure? { return Failure(kind.error), seen; }
    var mode := kind.value;
    var listed := ListPublic(who.value, score, probe, mode, f, limit, cursor, rows);
    if listed.Failure? { return Failure(listed.error), seen; }
    var page := listed.value;
    if cursor.None? && mode == Matched {
      EmptyMatchedPage(score, probe, f, limit, page.items, page.hasMore);
    }
    if cursor.None? && mode == Matched && |page.items| == 0 && f.title != "" {
      mode := Similar;
      seen := t;
      listed := ListPublic(who.value, score, t, mode, f, limit, cursor, others);
      // A title is all the similar mode asks for, so this call never fails.
      page := listed.value;
    }
    var output := BuildOutput(f, mode, page);
    r := Success(output);
    PageIsTop(score, seen, mode, f, limit, cursor, page.items, page.hasMore);
    FitsMatches(score, probe, f);
  }

  // The rows are turned into results one by one; a cursor leads on exactly if there is more.
  method BuildOutput(f: Filter, mode: Mode, page: Page) returns (output: Output)
    ensures output.items == page.items && output.mode == mode && output.hasMore == page.hasMore
    ensures output.next == if page.hasMore && page.items != []
                           then Some(Cursor(mode, page.last.(similarity := if mode == Similar then page.last.similarity else 0.0), f))
                           else None
  {
    var items: seq<Id> := [];
    for i := 0 to |page.items|
      invariant items == page.items[..i]
    {
      items := items + [page.items[i]];
    }
    assert items == page.items;
    output := Output(items, mode, page.hasMore, None);
    if page.hasMore && |items| > 0 {
      var similarity := if mode == Similar then page.last.similarity else 0.0;
      output := output.(next := Some(Cursor(mode, SortKey(similarity, page.last.createdAt, page.last.id), f)));
    }
  }

  lemma FitsMatches(score: Score, t: Table, f: Filter)
    ensures NothingMatches(score, t, f) <==> forall id | id in t :: !Fits(score, Matched, f, t[id])
  {
    forall id | id in t
      ensures Matches(score, Matched, f, t[id]) <==> Fits(score, Matched, f, t[id])
    {
    }
  }

  // ---------------------------------------------------------------- walks

  /**
    A walk follows the cursors. Each page may see different tables and ask for a different number of rows; the first
    page may read the tables twice.
   */
  datatype Walk = Walk(filter: Filter, probe: Table, tables: seq<Table>, limits: seq<nat>, outs: seq<Output>)

  ghost predicate IsWalk(score: Score, w: Walk) {
    && |w.outs| == |w.tables| == |w.limits| >= 1
    && (forall k | 0 <= k < |w.limits| :: 1 <= w.limits[k] <= 100)
    && Lists(score, w.probe, w.tables[0], w.filter, w.limits[0], None, w.outs[0])
    && (forall k | 0 <= k < |w.outs| - 1 :: w.outs[k].next.Some? && Follows(score, w, k))
  }

  ghost predicate Follows(score: Score, w: Walk, k: nat)
    requires |w.outs| == |w.tables| == |w.limits| && k + 1 < |w.outs|
  {
    Lists(score, w.tables[k + 1], w.tables[k + 1], w.filter, w.limits[k + 1], w.outs[k].next, w.outs[k + 1])
  }

  // The columns of a row are the same whenever it is visible.
  ghost predicate RowsFixed(w: Walk, rows: Table) {
    forall k, id | 0 <= k < |w.tables| && id in w.tables[k] :: id in rows && rows[id] == w.tables[k][id]
  }

  function Shown(outs: seq<Output>): seq<Id> {
    if outs == [] then [] else Shown(outs[..|outs| - 1]) + outs[|outs| - 1].items
  }

  // The cursor of page `k`.
  function CursorAt(w: Walk, k: nat): Option<Cursor>
    requires k <= |w.outs|
  {
    if k == 0 then None else w.outs[k - 1].next
  }

  /** The walk stays in the mode of its first page. */
  lemma {:induction false} ModeStays(score: Score, w: Walk, k: nat)
    requires IsWalk(score, w) && k < |w.outs|
    ensures w.outs[k].mode == w.outs[0].mode
    ensures Lists(score, if k == 0 then w.probe else w.tables[k], w.tables[k], w.filter, w.limits[k], CursorAt(w, k), w.outs[k])
  {
    hide IsPage, NothingMatches, KeyOf;
    if k > 0 {
      ModeStays(score, w, k - 1);
      assert Follows(score, w, k - 1);
    }
  }

  function Key(score: Score, w: Walk, rows: Table, id: Id): SortKey
    requires id in rows && w.outs != []
  {
    KeyOf(score, w.outs[0].mode, w.filter, id, rows[id])
  }

  lemma DescendingIn(score: Score, t: Table, rows: Table, mode: Mode, f: Filter, items: seq<Id>)
    requires Descending(score, t, mode, f, items) && forall id | id in t :: id in rows && rows[id] == t[id]
    ensures Descending(score, rows, mode, f, items)
  {
  }

  // What one page contributes, in terms of the fixed rows.
  ghost predicate Contributes(score: Score, rows: Table, mode: Mode, f: Filter, cursor: Option<Cursor>, out: Output) {
    && Descending(score, rows, mode, f, out.items)
    && (forall i | 0 <= i < |out.items| :: After(cursor, KeyOf(score, mode, f, out.items[i], rows[out.items[i]])))
    && (out.next.Some? ==> out.items != [] && out.next.value.filter == f && out.next.value.mode == mode
                           && var last := out.items[|out.items| - 1];
                           out.next.value.key == KeyOf(score, mode, f, last, rows[last]))
    && (out.next.None? <==> !out.hasMore)
  }

  lemma ListedContributes(score: Score, probe: Table, t: Table, rows: Table, f: Filter, limit: nat, cursor: Option<Cursor>,
                          out: Output)
    requires Lists(score, probe, t, f, limit, cursor, out) && limit >= 1
    requires forall id | id in t :: id in rows && rows[id] == t[id]
    ensures Contributes(score, rows, out.mode, f, cursor, out)
  {
    hide Below, Matches;
    assert forall i | 0 <= i < |out.items| :: Remains(score, t, out.mode, f, cursor, out.items[i]);
    DescendingIn(score, t, rows, out.mode, f, out.items);
  }

  lemma PageFacts(score: Score, w: Walk, rows: Table, k: nat)
    requires IsWalk(score, w) && RowsFixed(w, rows) && k < |w.outs|
    ensures Contributes(score, rows, w.outs[0].mode, w.filter, CursorAt(w, k), w.outs[k])
  {
    hide Lists, Contributes, Follows, IsWalk;
    WalkShape(score, w);
    ModeStays(score, w, k);
    ListedContributes(score, if k == 0 then w.probe else w.tables[k], w.tables[k], rows, w.filter, w.limits[k],
                      CursorAt(w, k), w.outs[k]);
  }

  /** Nothing is ever shown twice: everything the walk shows is in strictly descending order. */
  lemma {:induction false} WalkDescends(score: Score, w: Walk, rows: Table, n: nat)
    requires IsWalk(score, w) && RowsFixed(w, rows) && n <= |w.outs|
    ensures Descending(score, rows, w.outs[0].mode, w.filter, Shown(w.outs[..n]))
    ensures n > 0 ==> w.outs[n - 1].next.Some? ==>
              forall i | 0 <= i < |Shown(w.outs[..n])| ::
                var key := Key(score, w, rows, Shown(w.outs[..n])[i]);
                key == w.outs[n - 1].next.value.key || Below(w.outs[n - 1].next.value.key, key)
  {
    hide IsWalk, RowsFixed;
    if n > 0 {
      var before, items := Shown(w.outs[..n - 1]), w.outs[n - 1].items;
      assert |w.outs| >= 1 && (forall k | 0 <= k < |w.outs| - 1 :: w.outs[k].next.Some?) by { WalkShape(score, w); }
      WalkDescends(score, w, rows, n - 1);
      PageFacts(score, w, rows, n - 1);
      assert w.outs[..n][..n - 1] == w.outs[..n - 1];
      assert Shown(w.outs[..n]) == before + items;
      if n > 1 {
        assert CursorAt(w, n - 1) == w.outs[n - 2].next;
        DescendingConcat(score, rows, w.outs[0].mode, w.filter, before, items, w.outs[n - 2].next.value.key);
      }
    }
  }

  lemma WalkShape(score: Score, w: Walk)
    requires IsWalk(score, w)
    ensures |w.outs| == |w.tables| == |w.limits| >= 1 && forall k | 0 <= k < |w.outs| - 1 :: w.outs[k].next.Some?
    ensures forall k | 0 <= k < |w.limits| :: 1 <= w.limits[k] <= 100
  {
  }

  lemma DescendingConcat(score: Score, rows: Table, mode: Mode, f: Filter, a: seq<Id>, b: seq<Id>, mid: SortKey)
    requires Descending(score, rows, mode, f, a) && Descending(score, rows, mode, f, b)
    requires forall i | 0 <= i < |a| ::
               var key := KeyOf(score, mode, f, a[i], rows[a[i]]); key == mid || Below(mid, key)
    requires forall j | 0 <= j < |b| :: Below(KeyOf(score, mode, f, b[j], rows[b[j]]), mid)
    ensures Descending(score, rows, mode, f, a + b)
    ensures b != [] ==> forall i | 0 <= i < |a + b| ::
              var last := KeyOf(score, mode, f, b[|b| - 1], rows[b[|b| - 1]]);
              var key := KeyOf(score, mode, f, (a + b)[i], rows[(a + b)[i]]);
              key == last || Below(last, key)
  {
  }

  // ---------------------------------------------------------------- what a walk shows

  // A row that matches when a page is read is on it, or below the cursor that leads on.
  lemma ListedCovers(score: Score, probe: Table, t: Table, f: Filter, limit: nat, cursor: Option<Cursor>, out: Output, id: Id)
    requires Lists(score, probe, t, f, limit, cursor, out) && limit >= 1 && Remains(score, t, out.mode, f, cursor, id)
    ensures id in out.items || (out.next.Some? && Below(KeyOf(score, out.mode, f, id, t[id]), out.next.value.key))
  {
    if id !in out.items {
      var last := out.items[|out.items| - 1];
      assert Remains(score, t, out.mode, f, cursor, last);
    }
  }

  ghost predicate MatchesThroughout(score: Score, w: Walk, id: Id)
    requires w.outs != []
  {
    forall k | 0 <= k < |w.tables| :: id in w.tables[k] && Matches(score, w.outs[0].mode, w.filter, w.tables[k][id])
  }

  lemma {:induction false} WalkCovers(score: Score, w: Walk, rows: Table, n: nat, id: Id)
    requires IsWalk(score, w) && RowsFixed(w, rows) && n <= |w.outs| && MatchesThroughout(score, w, id) && id in rows
    ensures id in Shown(w.outs[..n]) || n == 0
            || (w.outs[n - 1].next.Some? && Below(Key(score, w, rows, id), w.outs[n - 1].next.value.key))
  {
    hide Lists, Follows, Below, Matches, IsWalk;
    if n > 0 {
      WalkShape(score, w);
      WalkCovers(score, w, rows, n - 1, id);
      ModeStays(score, w, n - 1);
      assert w.outs[..n][..n - 1] == w.outs[..n - 1];
      assert id in w.tables[n - 1] && rows[id] == w.tables[n - 1][id];
      if id !in Shown(w.outs[..n - 1]) {
        ListedCovers(score, if n == 1 then w.probe else w.tables[n - 1], w.tables[n - 1], w.filter, w.limits[n - 1],
                     CursorAt(w, n - 1), w.outs[n - 1], id);
      }
    }
  }

  /** However the tables change in between: nothing is shown twice, and what matches throughout is shown exactly once. */
  lemma WalkShowsOnce(score: Score, w: Walk, rows: Table, id: Id)
    requires IsWalk(score, w) && RowsFixed(w, rows)
    ensures var shown := Shown(w.outs);
            && (forall i, j | 0 <= i < j < |shown| :: shown[i] != shown[j])
            && (w.outs[|w.outs| - 1].next.None? && MatchesThroughout(score, w, id) ==> id in shown)
  {
    hide IsWalk, Descending, Matches, Below;
    WalkShape(score, w);
    WalkDescends(score, w, rows, |w.outs|);
    assert w.outs[..|w.outs|] == w.outs;
    DescendingDistinct(score, rows, w.outs[0].mode, w.filter, Shown(w.outs));
    if MatchesThroughout(score, w, id) {
      assert id in w.tables[0];
      WalkCovers(score, w, rows, |w.outs|, id);
    }
  }

  lemma ListedMatch(score: Score, probe: Table, t: Table, f: Filter, limit: nat, cursor: Option<Cursor>, out: Output, id: Id)
    requires Lists(score, probe, t, f, limit, cursor, out) && id in out.items
    ensures id in t && Matches(score, out.mode, f, t[id])
  {
    hide Matches, Below;
    var i :| 0 <= i < |out.items| && out.items[i] == id;
    assert Remains(score, t, out.mode, f, cursor, out.items[i]);
  }

  // The row is on page `k` and matched when that page was read.
  predicate ShownAt(score: Score, w: Walk, k: int, id: Id) {
    && 0 <= k < |w.outs| && k < |w.tables| && id in w.outs[k].items && id in w.tables[k]
    && Matches(score, w.outs[0].mode, w.filter, w.tables[k][id])
  }

  lemma {:induction false} ShownMatched(score: Score, w: Walk, n: nat, id: Id)
    requires IsWalk(score, w) && n <= |w.outs| && id in Shown(w.outs[..n])
    ensures exists k :: k < n && ShownAt(score, w, k, id)
  {
    hide Lists, Follows, Matches, IsWalk;
    if n > 0 {
      WalkShape(score, w);
      assert w.outs[..n][..n - 1] == w.outs[..n - 1];
      if id in Shown(w.outs[..n - 1]) {
        ShownMatched(score, w, n - 1, id);
      } else {
        ModeStays(score, w, n - 1);
        ListedMatch(score, if n == 1 then w.probe else w.tables[n - 1], w.tables[n - 1], w.filter, w.limits[n - 1],
                    CursorAt(w, n - 1), w.outs[n - 1], id);
        assert ShownAt(score, w, n - 1, id);
      }
    }
  }

  lemma FixedWalkShows(score: Score, w: Walk, t: Table, id: Id)
    requires IsWalk(score, w) && (forall k | 0 <= k < |w.tables| :: w.tables[k] == t)
    requires w.outs[|w.outs| - 1].next.None?
    ensures id in Shown(w.outs) <==> id in t && Matches(score, w.outs[0].mode, w.filter, t[id])
  {
    hide IsWalk, Matches;
    WalkShape(score, w);
    assert w.outs[..|w.outs|] == w.outs;
    if id in Shown(w.outs) {
      ShownMatched(score, w, |w.outs|, id);
    } else if id in t && Matches(score, w.outs[0].mode, w.filter, t[id]) {
      WalkShowsOnce(score, w, t, id);
    }
  }

  /** Over tables that do not change, a finished walk shows exactly the matching rows, best first, each once. */
  lemma FixedWalkIsSorted(score: Score, w: Walk, t: Table)
    requires IsWalk(score, w) && (forall k | 0 <= k < |w.tables| :: w.tables[k] == t)
    requires w.outs[|w.outs| - 1].next.None?
    ensures Descending(score, t, w.outs[0].mode, w.filter, Shown(w.outs))
    ensures forall id :: id in Shown(w.outs) <==> id in t && Matches(score, w.outs[0].mode, w.filter, t[id])
    ensures forall i, j | 0 <= i < j < |Shown(w.outs)| :: Shown(w.outs)[i] != Shown(w.outs)[j]
  {
    hide IsWalk, Matches, Descending;
    WalkShape(score, w);
    assert w.outs[..|w.outs|] == w.outs;
    WalkDescends(score, w, t, |w.outs|);
    DescendingDistinct(score, t, w.outs[0].mode, w.filter, Shown(w.outs));
    forall id
      ensures id in Shown(w.outs) <==> id in t && Matches(score, w.outs[0].mode, w.filter, t[id])
    {
      FixedWalkShows(score, w, t, id);
    }
  }

  /** Every cursor the listing hands out is accepted with the same filter and leads on in the same mode. */
  lemma NextCursorAccepted(viewer: Option<Viewer>, score: Score, w: Walk, k: nat, limit: int)
    requires ViewerId(viewer).Success? && IsWalk(score, w) && ScoreOk(score) && k < |w.outs| && w.outs[k].next.Some?
    requires InputError(w.filter, w.limits[0], None).None? && 1 <= limit <= 100
    requires forall id | id in w.tables[k] :: id != 0 && w.tables[k][id].createdAt != 0
    ensures var cursor := w.outs[k].next;
            && InputError(w.filter, limit, cursor).None?
            && ResultType(w.filter, cursor) == Success(w.outs[0].mode)
            && ListError(ViewerId(viewer).value, w.outs[0].mode, w.filter, limit, cursor).None?
            && UsableCursor(w.filter, cursor.value)
  {
    ModeStays(score, w, k);
    var out, t := w.outs[k], w.tables[k];
    var last := out.items[|out.items| - 1];
    assert Remains(score, t, out.mode, w.filter, CursorAt(w, k), last);
    ModeOfFilter(score, w);
  }

  lemma ModeOfFilter(score: Score, w: Walk)
    requires IsWalk(score, w)
    ensures ModeFits(w.outs[0].mode, w.filter)
    ensures w.outs[0].mode == Similar ==> NothingMatches(score, w.probe, w.filter)
  {
  }
}
