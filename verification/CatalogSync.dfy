/** Synchronising the catalog with the video library: a paginated fold into the content table
    that keeps what administrators decided. */
module CatalogSync {
  import opened Text
  import opened Domain

  const PAGE_SIZE := 100
  const DEFAULT_PRICE := 25

  datatype Video = Video(guid: string, title: string, description: string)

  type Catalog = map<string, Content>

  // ---------- one video ----------

  function VideoId(v: Video): string {
    TrimSpace(v.guid)
  }

  function Fallback(v: string, fb: string): string {
    if TrimSpace(v) == "" then fb else v
  }

  function TitleOf(v: Video): string {
    Fallback(v.title, "Video " + VideoId(v))
  }

  function NormalPrice(price: int): int {
    if price <= 0 then DEFAULT_PRICE else price
  }

  /** The row written for a video: price, activity and a non-empty description of an existing row stay. */
  function Merged(existing: Option<Content>, v: Video, price: int): Content {
    var id := VideoId(v);
    var item := Content(id, id, TitleOf(v), TrimSpace(v.description), price, true);
    match existing
    case None => item
    case Some(row) =>
      item.(price := row.price, active := row.active,
            description := if row.description != "" then row.description else item.description)
  }

  function Lookup(t: Catalog, id: string): Option<Content> {
    if id in t then Some(t[id]) else None
  }

  /** The table after one video; a blank id is skipped. */
  function MergeOne(t: Catalog, v: Video, price: int): Catalog {
    if VideoId(v) == "" then t else t[VideoId(v) := Merged(Lookup(t, VideoId(v)), v, price)]
  }

  function MergeAll(t: Catalog, vs: seq<Video>, price: int): Catalog
    decreases |vs|
  {
    if vs == [] then t else MergeAll(MergeOne(t, vs[0], price), vs[1..], price)
  }

  // ---------- what a fold leaves behind, read off the list of videos ----------

  predicate Mentions(vs: seq<Video>, id: string) {
    exists i :: 0 <= i < |vs| && VideoId(vs[i]) == id
  }

  /** The title of the last video with this id. */
  function LastTitle(vs: seq<Video>, id: string, otherwise: string): string {
    if vs == [] then otherwise
    else LastTitle(vs[1..], id, if VideoId(vs[0]) == id then TitleOf(vs[0]) else otherwise)
  }

  /** The first non-empty description among the one given and those of the videos with this id. */
  function FirstDescription(vs: seq<Video>, id: string, otherwise: string): string {
    if otherwise != "" || vs == [] then otherwise
    else FirstDescription(vs[1..], id, if VideoId(vs[0]) == id then TrimSpace(vs[0].description) else otherwise)
  }

  /** The row of an id after folding in vs, described without the fold. */
  function Expected(t: Catalog, vs: seq<Video>, price: int, id: string): Option<Content> {
    if id == "" || !Mentions(vs, id) then Lookup(t, id)
    else if id in t then
      Some(Content(id, id, LastTitle(vs, id, ""), FirstDescription(vs, id, t[id].description),
                   t[id].price, t[id].active))
    else
      Some(Content(id, id, LastTitle(vs, id, ""), FirstDescription(vs, id, ""), price, true))
  }

  lemma {:induction false} LastTitleIgnores(vs: seq<Video>, id: string, a: string, b: string)
    requires Mentions(vs, id)
    ensures LastTitle(vs, id, a) == LastTitle(vs, id, b)
  {
    if VideoId(vs[0]) != id {
      var i :| 0 <= i < |vs| && VideoId(vs[i]) == id;
      assert VideoId(vs[1..][i - 1]) == id;
      LastTitleIgnores(vs[1..], id, a, b);
    }
  }

  lemma {:induction false} LastTitleUnmentioned(vs: seq<Video>, id: string, a: string)
    requires !Mentions(vs, id)
    ensures LastTitle(vs, id, a) == a && FirstDescription(vs, id, a) == a
  {
    if vs != [] {
      assert VideoId(vs[0]) != id;
      TailUnmentioned(vs, id);
      LastTitleUnmentioned(vs[1..], id, a);
    }
  }

  lemma MentionsTail(vs: seq<Video>, id: string)
    requires vs != []
    ensures Mentions(vs, id) <==> VideoId(vs[0]) == id || Mentions(vs[1..], id)
  {
    if Mentions(vs, id) && VideoId(vs[0]) != id {
      var i :| 0 <= i < |vs| && VideoId(vs[i]) == id;
      assert VideoId(vs[1..][i - 1]) == id;
    }
    if Mentions(vs[1..], id) {
      var i :| 0 <= i < |vs[1..]| && VideoId(vs[1..][i]) == id;
      assert VideoId(vs[i + 1]) == id;
    }
  }

  lemma TailUnmentioned(vs: seq<Video>, id: string)
    requires vs != [] && !Mentions(vs, id)
    ensures !Mentions(vs[1..], id)
  {
    MentionsTail(vs, id);
  }

  /** The fold computes exactly the described table: for every id, existing price, activity and
      non-empty description win; otherwise the default price, active, and the first description;
      the title is that of the last video with the id; rows of other ids are untouched. */
  lemma {:induction false} MergeAllIsExpected(t: Catalog, vs: seq<Video>, price: int, id: string)
    ensures Lookup(MergeAll(t, vs, price), id) == Expected(t, vs, price, id)
    decreases |vs|
  {
    if vs != [] {
      var u := MergeOne(t, vs[0], price);
      MergeAllIsExpected(u, vs[1..], price, id);
      MentionsTail(vs, id);
      if id != "" && VideoId(vs[0]) == id {
        if Mentions(vs[1..], id) {
          LastTitleIgnores(vs[1..], id, "", TitleOf(vs[0]));
        } else {
          LastTitleUnmentioned(vs[1..], id, TitleOf(vs[0]));
          LastTitleUnmentioned(vs[1..], id, u[id].description);
        }
      }
    }
  }

  lemma SameLookups(a: Catalog, b: Catalog)
    requires forall id :: Lookup(a, id) == Lookup(b, id)
    ensures a == b
  {
    forall id
      ensures id in a <==> id in b
      ensures id in a ==> a[id] == b[id]
    {
      assert Lookup(a, id) == Lookup(b, id);
    }
  }

  lemma {:induction false} FirstDescriptionTrimmed(vs: seq<Video>, id: string, d: string)
    requires TrimSpace(d) == d
    ensures TrimSpace(FirstDescription(vs, id, d)) == FirstDescription(vs, id, d)
    decreases |vs|
  {
    if d == "" && vs != [] {
      TrimSpaceIdempotent(vs[0].description);
      FirstDescriptionTrimmed(vs[1..], id, if VideoId(vs[0]) == id then TrimSpace(vs[0].description) else d);
    }
  }

  /** What a sync stores for a video is trimmed: the id, and a description that was not there before. */
  lemma StoredTextTrimmed(t: Catalog, vs: seq<Video>, price: int, id: string)
    requires id != "" && Mentions(vs, id)
    ensures var after := MergeAll(t, vs, price);
            && id in after && after[id].id == id && TrimSpace(id) == id
            && (id !in t || t[id].description == "" ==> TrimSpace(after[id].description) == after[id].description)
  {
    MergeAllIsExpected(t, vs, price, id);
    var i :| 0 <= i < |vs| && VideoId(vs[i]) == id;
    TrimSpaceIdempotent(vs[i].guid);
    FirstDescriptionTrimmed(vs, id, "");
  }

  /** A video's id is its trimmed guid. */
  predicate Bears(v: Video, id: string) {
    TrimSpace(v.guid) == id
  }

  /** The i-th video is the last with this id. */
  predicate IsLast(vs: seq<Video>, i: nat, id: string) {
    i < |vs| && Bears(vs[i], id) && forall j | i < j < |vs| :: !Bears(vs[j], id)
  }

  lemma {:induction false} LastTitleOf(vs: seq<Video>, i: nat, id: string, otherwise: string)
    requires IsLast(vs, i, id)
    ensures LastTitle(vs, id, otherwise) == TitleOf(vs[i])
    decreases |vs|
  {
    if i == 0 {
      assert !Mentions(vs[1..], id) by {
        forall j | 0 <= j < |vs[1..]|
          ensures VideoId(vs[1..][j]) != id
        {
          assert vs[1..][j] == vs[j + 1];
        }
      }
      LastTitleUnmentioned(vs[1..], id, TitleOf(vs[0]));
    } else {
      assert vs[1..][i - 1] == vs[i];
      forall j | i - 1 < j < |vs[1..]|
        ensures VideoId(vs[1..][j]) != id
      {
        assert vs[1..][j] == vs[j + 1];
      }
      LastTitleOf(vs[1..], i - 1, id, if VideoId(vs[0]) == id then TitleOf(vs[0]) else otherwise);
    }
  }

  /** What a sync stores for a video that the table had not: its trimmed id as key and as reference, the title of
      the last video with the id, or "Video " and the id where that title is blank, the first description that is
      not blank, the default price of 25 where none above zero is given, and active. */
  lemma NewVideoStored(t: Catalog, vs: seq<Video>, i: nat, givenPrice: int, id: string)
    requires id != "" && IsLast(vs, i, id) && id !in t
    ensures var after := MergeAll(t, vs, NormalPrice(givenPrice));
            && id in after && after[id].id == id && after[id].externalRef == id && after[id].active
            && after[id].title == (if Blank(vs[i].title) then "Video " + id else vs[i].title)
            && after[id].price == (if givenPrice <= 0 then 25 else givenPrice)
            && after[id].description == FirstDescription(vs, id, "")
  {
    MergeAllIsExpected(t, vs, NormalPrice(givenPrice), id);
    LastTitleOf(vs, i, id, "");
    TrimmedToNothing(vs[i].title);
  }

  /** What it stores for one that the table had: the same, but for price, activity and a description that is
      there. */
  lemma KnownVideoStored(t: Catalog, vs: seq<Video>, i: nat, price: int, id: string)
    requires id != "" && IsLast(vs, i, id) && id in t
    ensures var after := MergeAll(t, vs, price);
            && id in after && after[id].id == id && after[id].externalRef == id
            && after[id].title == (if Blank(vs[i].title) then "Video " + id else vs[i].title)
            && after[id].price == t[id].price && after[id].active == t[id].active
            && after[id].description
               == if t[id].description != "" then t[id].description else FirstDescription(vs, id, "")
  {
    MergeAllIsExpected(t, vs, price, id);
    LastTitleOf(vs, i, id, "");
    TrimmedToNothing(vs[i].title);
  }

  /** The first description, told by position: that of the first video with the id whose description is not blank. */
  lemma {:induction false} FirstDescriptionAt(vs: seq<Video>, id: string)
    ensures FirstDescription(vs, id, "") == "" <==>
            forall i | 0 <= i < |vs| && Bears(vs[i], id) :: Blank(vs[i].description)
    ensures FirstDescription(vs, id, "") != "" ==>
            exists i :: 0 <= i < |vs| && Bears(vs[i], id)
                        && FirstDescription(vs, id, "") == TrimSpace(vs[i].description)
                        && !Blank(vs[i].description)
                        && forall j | 0 <= j < i && Bears(vs[j], id) :: Blank(vs[j].description)
    decreases |vs|
  {
    if vs != [] {
      var rest := vs[1..];
      TrimmedToNothing(vs[0].description);
      FirstDescriptionAt(rest, id);
      if Bears(vs[0], id) && !Blank(vs[0].description) {
        assert FirstDescription(vs, id, "") == TrimSpace(vs[0].description);
      } else {
        assert FirstDescription(vs, id, "") == FirstDescription(rest, id, "");
        if FirstDescription(rest, id, "") != "" {
          var i :| 0 <= i < |rest| && Bears(rest[i], id)
                   && FirstDescription(rest, id, "") == TrimSpace(rest[i].description)
                   && !Blank(rest[i].description)
                   && forall j | 0 <= j < i && Bears(rest[j], id) :: Blank(rest[j].description);
          assert vs[i + 1] == rest[i];
          forall j | 0 <= j < i + 1 && Bears(vs[j], id)
            ensures Blank(vs[j].description)
          {
            assert j > 0 ==> vs[j] == rest[j - 1];
          }
        } else {
          forall i | 0 <= i < |vs| && Bears(vs[i], id)
            ensures Blank(vs[i].description)
          {
            assert i > 0 ==> vs[i] == rest[i - 1];
          }
        }
      }
    }
  }

  // ---------- resuming, repeating ----------

  lemma {:induction false} DescriptionConcat(a: seq<Video>, b: seq<Video>, id: string, d: string)
    ensures FirstDescription(a + b, id, d) == FirstDescription(b, id, FirstDescription(a, id, d))
  {
    if a == [] {
      assert a + b == b;
    } else if d == "" {
      assert (a + b)[1..] == a[1..] + b;
      DescriptionConcat(a[1..], b, id, if VideoId(a[0]) == id then TrimSpace(a[0].description) else d);
    }
  }

  /** Folding a prefix first does not change which description is found. */
  lemma DescriptionResumes(vs: seq<Video>, k: nat, id: string, d: string)
    requires k <= |vs|
    ensures FirstDescription(vs, id, FirstDescription(vs[..k], id, d)) == FirstDescription(vs, id, d)
  {
    assert vs == vs[..k] + vs[k..];
    DescriptionConcat(vs[..k], vs[k..], id, d);
    assert FirstDescription(vs[..k], id, d) == "" ==> d == "";
  }

  lemma MentionsPrefix(vs: seq<Video>, k: nat, id: string)
    requires k <= |vs| && Mentions(vs[..k], id)
    ensures Mentions(vs, id)
  {
    var i :| 0 <= i < |vs[..k]| && VideoId(vs[..k][i]) == id;
    assert VideoId(vs[i]) == id;
  }

  lemma ResumedRow(t: Catalog, vs: seq<Video>, k: nat, price: int, id: string)
    requires k <= |vs|
    ensures Expected(MergeAll(t, vs[..k], price), vs, price, id) == Expected(t, vs, price, id)
  {
    var u := MergeAll(t, vs[..k], price);
    MergeAllIsExpected(t, vs[..k], price, id);
    if id != "" && Mentions(vs[..k], id) {
      MentionsPrefix(vs, k, id);
      DescriptionResumes(vs, k, id, if id in t then t[id].description else "");
    }
  }

  /** A sync stopped by an error after any number of videos, followed by a full sync, leaves the same
      catalog as one full sync. */
  lemma SyncResumes(t: Catalog, vs: seq<Video>, k: nat, price: int)
    requires k <= |vs|
    ensures MergeAll(MergeAll(t, vs[..k], price), vs, price) == MergeAll(t, vs, price)
  {
    var a := MergeAll(MergeAll(t, vs[..k], price), vs, price);
    var b := MergeAll(t, vs, price);
    forall id
      ensures Lookup(a, id) == Lookup(b, id)
    {
      MergeAllIsExpected(MergeAll(t, vs[..k], price), vs, price, id);
      MergeAllIsExpected(t, vs, price, id);
      ResumedRow(t, vs, k, price, id);
    }
    SameLookups(a, b);
  }

  /** A full sync is idempotent, even when the library repeats ids. */
  lemma SyncIdempotent(t: Catalog, vs: seq<Video>, price: int)
    ensures MergeAll(MergeAll(t, vs, price), vs, price) == MergeAll(t, vs, price)
  {
    assert vs[..|vs|] == vs;
    SyncResumes(t, vs, |vs|, price);
  }

  /** What an administrator set before a sync survives it, and rows of other videos do not change at all. */
  lemma AdministratorEditsSurvive(t: Catalog, vs: seq<Video>, price: int, id: string)
    requires id in t
    ensures var after := MergeAll(t, vs, price);
            && id in after && after[id].price == t[id].price && after[id].active == t[id].active
            && (t[id].description != "" ==> after[id].description == t[id].description)
            && (id == "" || !Mentions(vs, id) ==> after[id] == t[id])
  {
    MergeAllIsExpected(t, vs, price, id);
  }

  predicate SchemaOk(t: Catalog) {
    forall id | id in t :: t[id].price > 0 && t[id].id == id
  }

  lemma {:induction false} SchemaKept(t: Catalog, vs: seq<Video>, price: int)
    requires price > 0 && SchemaOk(t)
    ensures SchemaOk(MergeAll(t, vs, price))
    decreases |vs|
  {
    if vs != [] {
      SchemaKept(MergeOne(t, vs[0], price), vs[1..], price);
    }
  }

  // ---------- pages ----------

  /** The page as the client hands it on: items with a blank id are dropped. */
  function Filtered(items: seq<Video>): seq<Video> {
    if items == [] then []
    else (if VideoId(items[0]) == "" then [] else [items[0]]) + Filtered(items[1..])
  }

  /** What the server returns for a page number, counted from 1: nothing beyond the last page. */
  function PageItems(pages: seq<seq<Video>>, page: nat): seq<Video> {
    if 1 <= page <= |pages| then pages[page - 1] else []
  }

  /** The videos a sync without errors gets to see from the given page on: all pages up to and
      including the first whose filtered length is under the page size. */
  function Covered(pages: seq<seq<Video>>, page: nat): seq<Video>
    decreases |pages| + 1 - page
  {
    var videos := Filtered(PageItems(pages, page));
    if page > |pages| || |videos| < 100 then videos else videos + Covered(pages, page + 1)
  }

  /** The number of page requests of such a sync from the given page on. */
  function Requests(pages: seq<seq<Video>>, page: nat): nat
    decreases |pages| + 1 - page
  {
    if page > |pages| || |Filtered(PageItems(pages, page))| < 100 then 1 else 1 + Requests(pages, page + 1)
  }

  /** A library cut into pages of the page size, the last one possibly shorter. */
  function Paged(vs: seq<Video>): seq<seq<Video>>
    decreases |vs|
  {
    if |vs| <= 100 then (if vs == [] then [] else [vs]) else [vs[..100]] + Paged(vs[100..])
  }

  lemma {:induction false} FilteredAll(vs: seq<Video>)
    requires forall i | 0 <= i < |vs| :: VideoId(vs[i]) != ""
    ensures Filtered(vs) == vs
  {
    if vs != [] {
      FilteredAll(vs[1..]);
    }
  }

  /** Dropping the first page shifts the page numbers. */
  lemma {:induction false} CoveredShift(first: seq<Video>, rest: seq<seq<Video>>, page: nat)
    requires page >= 1
    ensures Covered([first] + rest, page + 1) == Covered(rest, page)
    ensures Requests([first] + rest, page + 1) == Requests(rest, page)
    decreases |rest| + 1 - page
  {
    var pages := [first] + rest;
    assert PageItems(pages, page + 1) == PageItems(rest, page);
    if page <= |rest| {
      CoveredShift(first, rest, page + 1);
    }
  }

  /** For a library of n videos with usable ids, served in pages of 100, the loop sees every video in
      order and stops after n / 100 + 1 page requests. */
  lemma {:induction false} FullCoverage(vs: seq<Video>)
    requires forall i | 0 <= i < |vs| :: VideoId(vs[i]) != ""
    ensures Covered(Paged(vs), 1) == vs && Requests(Paged(vs), 1) == |vs| / 100 + 1
    decreases |vs|
  {
    var pages := Paged(vs);
    if vs == [] {
      assert Covered(pages, 1) == [];
    } else if |vs| < 100 {
      FilteredAll(vs);
    } else if |vs| == 100 {
      FilteredAll(vs);
      assert Covered(pages, 2) == [] && Requests(pages, 2) == 1;
    } else {
      var head, tail := vs[..100], vs[100..];
      FilteredAll(head);
      FullCoverage(tail);
      CoveredShift(head, Paged(tail), 1);
      assert head + tail == vs;
    }
  }

  // ---------- the client and the loop ----------

  /** How the environment treats a sync: the number of calls (page requests, reads and upserts, counted
      together) that succeed before one fails, and whether a failing upsert took effect all the same. */
  datatype Faults = Faults(healthyCalls: nat, lateFailure: bool) | NoFaults

  predicate Fails(f: Faults, calls: nat) {
    f.Faults? && calls >= f.healthyCalls
  }

  /** The content table, with its key and CHECK (price_stars > 0). */
  class ContentStore {
    var rows: Catalog

    predicate Valid()
      reads this
    {
      SchemaOk(rows)
    }

    method GetById(id: string) returns (row: Option<Content>)
      ensures row == Lookup(rows, id)
    {
      row := if id in rows then Some(rows[id]) else None;
    }

    method Upsert(c: Content) returns (ok: bool)
      requires Valid()
      modifies this
      ensures Valid() && ok == (c.price > 0)
      ensures rows == if c.price > 0 then old(rows)[c.id := c] else old(rows)
    {
      ok := c.price > 0;
      if ok {
        rows := rows[c.id := c];
      }
    }
  }

  predicate IsPage(pages: seq<seq<Video>>, page: nat, videos: seq<Video>) {
    videos == Filtered(PageItems(pages, page))
  }

  /** Collected from the first i items, with the rest still to come. */
  predicate Gathered(items: seq<Video>, i: nat, out: seq<Video>) {
    i <= |items| && Filtered(items) == out + Filtered(items[i..])
  }

  lemma GatherNone(items: seq<Video>)
    ensures Gathered(items, 0, [])
  {
    assert items[0..] == items;
  }

  lemma GatherNext(items: seq<Video>, i: nat, out: seq<Video>)
    requires Gathered(items, i, out) && i < |items|
    ensures Gathered(items, i + 1, if VideoId(items[i]) == "" then out else out + [items[i]])
  {
    var tail := items[i..];
    assert tail[0] == items[i] && tail[1..] == items[i + 1..];
  }

  lemma GatherAll(pages: seq<seq<Video>>, page: nat, out: seq<Video>)
    requires Gathered(PageItems(pages, page), |PageItems(pages, page)|, out)
    ensures IsPage(pages, page, out)
  {
  }

  /** One page from the library; items whose id is blank are left out. */
  method ListLibraryVideos(pages: seq<seq<Video>>, page: nat) returns (out: seq<Video>)
    ensures IsPage(pages, page, out)
  {
    var items := PageItems(pages, page);
    out := [];
    GatherNone(items);
    for i := 0 to |items|
      invariant Gathered(items, i, out)
    {
      GatherNext(items, i, out);
      var item := items[i];
      if TrimSpace(item.guid) != "" {
        out := out + [Video(item.guid, item.title, item.description)];
      }
    }
    GatherAll(pages, page, out);
  }

  lemma {:induction false} MergeSnoc(t: Catalog, vs: seq<Video>, v: Video, price: int)
    ensures MergeAll(t, vs + [v], price) == MergeOne(MergeAll(t, vs, price), v, price)
    decreases |vs|
  {
    if vs == [] {
      assert vs + [v] == [v] && [v][1..] == [];
    } else {
      assert (vs + [v])[1..] == vs[1..] + [v];
      MergeSnoc(MergeOne(t, vs[0], price), vs[1..], v, price);
    }
  }

  /** The table holds the first n of the covered videos. */
  ghost predicate Synced(before: Catalog, after: Catalog, all: seq<Video>, price: int, n: nat) {
    n <= |all| && after == MergeAll(before, all[..n], price)
  }

  /** The first n of the covered videos are in the table, or one more. */
  ghost predicate PartlySynced(before: Catalog, after: Catalog, all: seq<Video>, price: int, n: nat) {
    Synced(before, after, all, price, n) || Synced(before, after, all, price, n + 1)
  }

  lemma NextSynced(before: Catalog, t: Catalog, all: seq<Video>, price: int, n: nat, v: Video)
    requires Synced(before, t, all, price, n) && n < |all| && all[n] == v
    ensures Synced(before, MergeOne(t, v, price), all, price, n + 1)
  {
    assert all[..n + 1] == all[..n] + [v];
    MergeSnoc(before, all[..n], v, price);
  }

  /** The loop has dealt with the first n of the covered videos, in so many requests, and is at the given page. */
  ghost predicate AtPage(pages: seq<seq<Video>>, all: seq<Video>, page: nat, n: nat, requests: nat) {
    n <= |all| && all[n..] == Covered(pages, page) && requests + Requests(pages, page) == Requests(pages, 1)
  }

  /** A complete sync: every covered video is folded in and counted, in as many requests as it takes. */
  ghost predicate FullSync(pages: seq<seq<Video>>, before: Catalog, after: Catalog, price: int,
                           synced: nat, requests: nat)
  {
    && after == MergeAll(before, Covered(pages, 1), price)
    && synced == |Covered(pages, 1)| && requests == Requests(pages, 1)
  }

  /** A sync stopped by an error: the first of the covered videos are folded in, as many as reported, or
      one more when the failing upsert took effect. */
  ghost predicate PartialSync(pages: seq<seq<Video>>, before: Catalog, after: Catalog, price: int, synced: nat) {
    PartlySynced(before, after, Covered(pages, 1), price, synced)
  }

  predicate IsCovered(pages: seq<seq<Video>>, all: seq<Video>) {
    all == Covered(pages, 1)
  }

  lemma NothingSynced(pages: seq<seq<Video>>, before: Catalog, price: int) returns (all: seq<Video>)
    ensures IsCovered(pages, all) && AtPage(pages, all, 1, 0, 0)
    ensures Synced(before, before, all, price, 0)
  {
    all := Covered(pages, 1);
    assert all[0..] == all;
  }

  lemma SomeSynced(pages: seq<seq<Video>>, before: Catalog, after: Catalog, all: seq<Video>, price: int, n: nat)
    requires IsCovered(pages, all) && PartlySynced(before, after, all, price, n)
    ensures PartialSync(pages, before, after, price, n)
  {
  }

  lemma AllSynced(pages: seq<seq<Video>>, before: Catalog, after: Catalog, all: seq<Video>, price: int,
                  n: nat, requests: nat)
    requires IsCovered(pages, all) && Synced(before, after, all, price, n)
    requires AtEnd(pages, all, n, requests)
    ensures FullSync(pages, before, after, price, n, requests)
  {
    assert all[..|all|] == all;
  }

  predicate Usable(videos: seq<Video>) {
    forall i | 0 <= i < |videos| :: VideoId(videos[i]) != ""
  }

  lemma {:induction false} FilteredUsable(items: seq<Video>)
    ensures Usable(Filtered(items))
  {
    if items != [] {
      FilteredUsable(items[1..]);
    }
  }

  /** The videos of one page are the next of the covered ones. */
  predicate NextUp(videos: seq<Video>, all: seq<Video>, n: nat) {
    n + |videos| <= |all| && forall i | 0 <= i < |videos| :: all[n + i] == videos[i]
  }

  /** All covered videos are dealt with. */
  predicate AtEnd(pages: seq<seq<Video>>, all: seq<Video>, n: nat, requests: nat) {
    n == |all| && requests == Requests(pages, 1)
  }

  /** The covered videos from one page on are that page's videos, then those of the next page on. */
  lemma PageDone(pages: seq<seq<Video>>, all: seq<Video>, page: nat, n: nat, requests: nat, videos: seq<Video>)
    requires AtPage(pages, all, page, n, requests) && IsPage(pages, page, videos)
    ensures Usable(videos) && NextUp(videos, all, n) && (page > |pages| ==> videos == [])
    ensures |videos| < 100 ==> AtEnd(pages, all, n + |videos|, requests + 1)
    ensures |videos| >= 100 ==> AtPage(pages, all, page + 1, n + |videos|, requests + 1)
  {
    FilteredUsable(PageItems(pages, page));
    var tail := all[n..];
    assert tail[..|videos|] == videos;
    forall i | 0 <= i < |videos|
      ensures all[n + i] == videos[i]
    {
      assert tail[i] == all[n + i];
    }
    assert all[n + |videos|..] == tail[|videos|..];
  }

  /** One video is folded in; if that failed, perhaps it is not. */
  predicate Folded(before: Catalog, after: Catalog, v: Video, price: int, failed: bool) {
    after == MergeOne(before, v, price) || (failed && after == before)
  }

  lemma FoldedNext(before: Catalog, was: Catalog, now: Catalog, all: seq<Video>, price: int, n: nat,
                   v: Video, failed: bool)
    requires Synced(before, was, all, price, n) && n < |all| && all[n] == v && Folded(was, now, v, price, failed)
    ensures failed ==> PartlySynced(before, now, all, price, n)
    ensures !failed ==> Synced(before, now, all, price, n + 1)
  {
    NextSynced(before, was, all, price, n, v);
  }

  /** The body of the inner loop: one read, one merge, one upsert. */
  method SyncVideo(v: Video, repo: ContentStore, price: int, faults: Faults, calls: nat) returns (failed: bool)
    requires repo.Valid() && price > 0 && VideoId(v) != ""
    modifies repo
    ensures repo.Valid()
    ensures failed <==> Fails(faults, calls) || Fails(faults, calls + 1)
    ensures Folded(old(repo.rows), repo.rows, v, price, failed)
  {
    var id := TrimSpace(v.guid);
    if Fails(faults, calls) {
      return true;
    }
    var existing := repo.GetById(id);
    var item := Content(id, id, Fallback(v.title, "Video " + id), TrimSpace(v.description), price, true);
    if existing.Some? {
      item := item.(price := existing.value.price, active := existing.value.active);
      if existing.value.description != "" {
        item := item.(description := existing.value.description);
      }
    }
    failed := Fails(faults, calls + 1);
    if !failed || faults.lateFailure {
      var ok := repo.Upsert(item);
      failed := failed || !ok;
    }
  }

  /** Where the loop stands: of a sync that found this table and is to fold in these covered videos, at this
      page, with the first n of them dealt with, in so many requests. */
  datatype Position = Position(
    pages: seq<seq<Video>>, before: Catalog, all: seq<Video>, price: int, page: nat, n: nat, requests: nat)
  {
    function Next(count: nat): Position {
      this.(page := page + 1, n := n + count, requests := requests + 1)
    }
  }

  /** The table holds the videos before this page, and the first i of the page. */
  ghost predicate Underway(q: Position, now: Catalog, i: nat) {
    && IsCovered(q.pages, q.all) && AtPage(q.pages, q.all, q.page, q.n, q.requests)
    && Synced(q.before, now, q.all, q.price, q.n + i)
  }

  /** An error after i videos of the page. */
  ghost predicate FailedAt(q: Position, now: Catalog, i: nat) {
    PartialSync(q.pages, q.before, now, q.price, q.n + i)
  }

  /** The last page is dealt with. */
  ghost predicate Complete(q: Position, now: Catalog, count: nat) {
    FullSync(q.pages, q.before, now, q.price, q.n + count, q.requests + 1)
  }

  lemma SyncBegins(pages: seq<seq<Video>>, before: Catalog, price: int) returns (q: Position)
    ensures q == Position(pages, before, q.all, price, 1, 0, 0) && Underway(q, before, 0)
  {
    var all := NothingSynced(pages, before, price);
    q := Position(pages, before, all, price, 1, 0, 0);
  }

  lemma SyncFails(q: Position, now: Catalog, i: nat)
    requires Underway(q, now, i)
    ensures FailedAt(q, now, i)
  {
    SomeSynced(q.pages, q.before, now, q.all, q.price, q.n + i);
  }

  /** What is known of the i-th video of the page. */
  lemma PageVideo(q: Position, now: Catalog, videos: seq<Video>, i: nat)
    requires Underway(q, now, i) && IsPage(q.pages, q.page, videos) && i < |videos|
    ensures VideoId(videos[i]) != "" && q.n + i < |q.all| && q.all[q.n + i] == videos[i]
  {
    PageDone(q.pages, q.all, q.page, q.n, q.requests, videos);
  }

  /** One video of the page more. */
  lemma NextOfPage(q: Position, was: Catalog, now: Catalog, videos: seq<Video>, i: nat)
    requires Underway(q, was, i) && IsPage(q.pages, q.page, videos) && i < |videos|
    requires Folded(was, now, videos[i], q.price, false)
    ensures Underway(q, now, i + 1)
  {
    PageVideo(q, was, videos, i);
    var n := q.n + i;
    FoldedNext(q.before, was, now, q.all, q.price, n, videos[i], false);
    assert n + 1 == q.n + (i + 1);
  }

  /** An error at this video of the page. */
  lemma ErrorOfPage(q: Position, was: Catalog, now: Catalog, videos: seq<Video>, i: nat)
    requires Underway(q, was, i) && IsPage(q.pages, q.page, videos) && i < |videos|
    requires Folded(was, now, videos[i], q.price, true)
    ensures FailedAt(q, now, i)
  {
    PageVideo(q, was, videos, i);
    FoldedNext(q.before, was, now, q.all, q.price, q.n + i, videos[i], true);
    SomeSynced(q.pages, q.before, now, q.all, q.price, q.n + i);
  }

  lemma ShortPage(q: Position, now: Catalog, videos: seq<Video>)
    requires Underway(q, now, |videos|) && IsPage(q.pages, q.page, videos) && |videos| < 100
    ensures Complete(q, now, |videos|)
  {
    PageDone(q.pages, q.all, q.page, q.n, q.requests, videos);
    AllSynced(q.pages, q.before, now, q.all, q.price, q.n + |videos|, q.requests + 1);
  }

  lemma FullPage(q: Position, now: Catalog, videos: seq<Video>)
    requires Underway(q, now, |videos|) && IsPage(q.pages, q.page, videos) && |videos| >= 100
    ensures q.page <= |q.pages| && Underway(q.Next(|videos|), now, 0)
  {
    PageDone(q.pages, q.all, q.page, q.n, q.requests, videos);
    var next := q.Next(|videos|);
    assert AtPage(next.pages, next.all, next.page, next.n, next.requests);
    assert next.n + 0 == q.n + |videos|;
  }

  /** One turn of the inner loop. */
  method SyncNextVideo(ghost q: Position, videos: seq<Video>, i: nat, repo: ContentStore, price: int,
                       faults: Faults, calls: nat)
    returns (failed: bool)
    requires repo.Valid() && price > 0 && price == q.price
    requires Underway(q, repo.rows, i) && IsPage(q.pages, q.page, videos) && i < |videos|
    modifies repo
    ensures repo.Valid() && (failed ==> faults.Faults?)
    ensures if failed then FailedAt(q, repo.rows, i) else Underway(q, repo.rows, i + 1)
  {
    ghost var was := repo.rows;
    PageVideo(q, was, videos, i);
    failed := SyncVideo(videos[i], repo, price, faults, calls);
    if failed {
      ErrorOfPage(q, was, repo.rows, videos, i);
    } else {
      NextOfPage(q, was, repo.rows, videos, i);
    }
  }

  /** The inner loop: the videos of one page, of which so many get into the table. */
  method SyncPage(ghost q: Position, videos: seq<Video>, repo: ContentStore, price: int, faults: Faults, calls: nat)
    returns (synced: nat, failed: bool)
    requires repo.Valid() && price > 0 && price == q.price
    requires Underway(q, repo.rows, 0) && IsPage(q.pages, q.page, videos)
    modifies repo
    ensures repo.Valid() && (if failed then faults.Faults? && synced < |videos| else synced == |videos|)
    ensures failed ==> FailedAt(q, repo.rows, synced)
    ensures !failed && |videos| < 100 ==> Complete(q, repo.rows, |videos|)
    ensures !failed && |videos| >= 100 ==> q.page <= |q.pages| && Underway(q.Next(|videos|), repo.rows, 0)
  {
    synced := 0;
    for i := 0 to |videos|
      invariant repo.Valid() && synced == i && Underway(q, repo.rows, i)
    {
      failed := SyncNextVideo(q, videos, i, repo, price, faults, calls + 2 * i);
      if failed {
        return;
      }
      synced := synced + 1;
    }
    if |videos| < 100 {
      ShortPage(q, repo.rows, videos);
    } else {
      FullPage(q, repo.rows, videos);
    }
    failed := false;
  }

  /** The sync loop over the pages of the library; an empty page is a short one. */
  method SyncLibraryContent(pages: seq<seq<Video>>, repo: ContentStore, defaultPrice: int, faults: Faults)
    returns (synced: nat, failed: bool, ghost requests: nat)
    requires repo.Valid()
    modifies repo
    ensures repo.Valid()
    ensures failed ==> PartialSync(pages, old(repo.rows), repo.rows, NormalPrice(defaultPrice), synced)
    ensures !failed ==> FullSync(pages, old(repo.rows), repo.rows, NormalPrice(defaultPrice), synced, requests)
    ensures faults.NoFaults? ==> !failed
  {
    var price := NormalPrice(defaultPrice);
    ghost var q := SyncBegins(pages, repo.rows, price);
    var page: nat, calls: nat := 1, 0;
    synced := 0;
    while true
      invariant repo.Valid() && Underway(q, repo.rows, 0)
      invariant q.pages == pages && q.before == old(repo.rows) && q.price == price && q.page == page && q.n == synced
      decreases |pages| + 2 - page
    {
      requests := q.requests + 1;
      if Fails(faults, calls) {
        SyncFails(q, repo.rows, 0);
        return synced, true, requests;
      }
      var videos := ListLibraryVideos(pages, page);
      var n, stopped := SyncPage(q, videos, repo, price, faults, calls + 1);
      calls, synced := calls + 1 + 2 * n, synced + n;
      if stopped {
        return synced, true, requests;
      }
      if |videos| < PAGE_SIZE {
        break;
      }
      q, page := q.Next(n), page + 1;
    }
    return synced, false, requests;
  }
}
