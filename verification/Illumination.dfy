/** The relational projection of illuminations: a transactional upsert keyed by task run, its children
    rewritten by position, and the read path that rebuilds the original list. */
module IlluminationStore {
  import opened Options
  import opened Orders

  // ---- What is written ------------------------------------------------------------------------

  datatype PlatformLink = PlatformLink(platform: string, displayName: Option<string>, handle: Option<string>)

  datatype Entity = Entity(
    name: string, entityType: string, description: Option<string>, searchQuery: Option<string>,
    link: Option<PlatformLink>)

  /** One call of `insert_illumination_v2`; `content` is the rendered search text. */
  datatype Written = Written(
    userId: int, captureId: int, metaId: Option<int>, summary: string, details: string, searches: seq<string>,
    entities: seq<Entity>, content: string)

  // ---- Tables ---------------------------------------------------------------------------------

  datatype IllRow = IllRow(
    id: int, taskRunId: nat, userId: int, captureId: int, metaId: Option<int>,
    summary: string, details: string, searches: seq<string>)

  datatype EntRow = EntRow(
    userId: int, captureId: int, illuminationId: int, position: int,
    name: string, entityType: string, description: Option<string>, searchQuery: Option<string>,
    platform: Option<string>, handle: Option<string>, displayName: Option<string>)

  datatype SearchRow = SearchRow(userId: int, captureId: int, illuminationId: int, content: string)

  datatype Store = Store(ills: seq<IllRow>, ents: seq<EntRow>, search: seq<SearchRow>, nextId: int)

  /** The row of a run, by its unique task run id. */
  function FindIll(ills: seq<IllRow>, runId: nat): (r: Option<nat>)
    ensures r.Some? ==> r.value < |ills| && ills[r.value].taskRunId == runId
    ensures r.None? ==> forall i | 0 <= i < |ills| :: ills[i].taskRunId != runId
  {
    if ills == [] then None
    else
      var last := |ills| - 1;
      if ills[last].taskRunId == runId then Some(last) else FindIll(ills[..last], runId)
  }

  function IllRowOf(id: int, runId: nat, w: Written): IllRow {
    IllRow(id, runId, w.userId, w.captureId, w.metaId, w.summary, w.details, w.searches)
  }

  /** Insert, or update in place on a task run conflict: the id of an existing row stays. */
  function UpsertIll(db: Store, runId: nat, w: Written): Store {
    match FindIll(db.ills, runId)
    case Some(i) => db.(ills := db.ills[i := IllRowOf(db.ills[i].id, runId, w)])
    case None => db.(ills := db.ills + [IllRowOf(db.nextId, runId, w)], nextId := db.nextId + 1)
  }

  function EntRowOf(id: int, w: Written, position: nat): EntRow
    requires position < |w.entities|
  {
    var e := w.entities[position];
    EntRow(w.userId, w.captureId, id, position, e.name, e.entityType, e.description, e.searchQuery,
      if e.link.Some? then Some(e.link.value.platform) else None,
      if e.link.Some? then e.link.value.handle else None,
      if e.link.Some? then e.link.value.displayName else None)
  }

  /** The first `n` child rows of a written illumination, in position order. */
  function ChildRows(id: int, w: Written, n: nat): (r: seq<EntRow>)
    requires n <= |w.entities|
    ensures |r| == n && forall p | 0 <= p < n :: r[p] == EntRowOf(id, w, p)
  {
    if n == 0 then [] else ChildRows(id, w, n - 1) + [EntRowOf(id, w, n - 1)]
  }

  function ChildrenOf(ents: seq<EntRow>, id: int): seq<EntRow> {
    if ents == [] then []
    else
      var last := |ents| - 1;
      ChildrenOf(ents[..last], id) + if ents[last].illuminationId == id then [ents[last]] else []
  }

  function EntsWithout(ents: seq<EntRow>, id: int): seq<EntRow> {
    if ents == [] then []
    else
      var last := |ents| - 1;
      EntsWithout(ents[..last], id) + if ents[last].illuminationId == id then [] else [ents[last]]
  }

  function SearchOf(rows: seq<SearchRow>, id: int): seq<SearchRow> {
    if rows == [] then []
    else
      var last := |rows| - 1;
      SearchOf(rows[..last], id) + if rows[last].illuminationId == id then [rows[last]] else []
  }

  function SearchWithout(rows: seq<SearchRow>, id: int): seq<SearchRow> {
    if rows == [] then []
    else
      var last := |rows| - 1;
      SearchWithout(rows[..last], id) + if rows[last].illuminationId == id then [] else [rows[last]]
  }

  /** The unique key on (illumination, position). */
  predicate PositionTaken(ents: seq<EntRow>, id: int, position: int) {
    exists k | 0 <= k < |ents| :: ents[k].illuminationId == id && ents[k].position == position
  }

  // ---- Refinement of a map --------------------------------------------------------------------

  /** The store shows exactly one written illumination for this row: its columns, its children at positions
      0..k-1 in order, and one search row. */
  predicate Shows(db: Store, row: IllRow, w: Written) {
    ParentShows(row, w) && ChildrenShow(ChildrenOf(db.ents, row.id), row.id, w)
    && SearchShows(SearchOf(db.search, row.id), row.id, w)
  }

  predicate ParentShows(row: IllRow, w: Written) {
    && row.userId == w.userId && row.captureId == w.captureId && row.metaId == w.metaId
    && row.summary == w.summary && row.details == w.details && row.searches == w.searches
  }

  predicate ChildrenShow(children: seq<EntRow>, id: int, w: Written) {
    |children| == |w.entities| && forall p | 0 <= p < |children| :: ChildShows(children[p], id, w, p)
  }

  predicate ChildShows(child: EntRow, id: int, w: Written, p: nat)
    requires p < |w.entities|
  {
    var e := w.entities[p];
    && child.userId == w.userId && child.captureId == w.captureId && child.illuminationId == id && child.position == p
    && child.name == e.name && child.entityType == e.entityType
    && child.description == e.description && child.searchQuery == e.searchQuery
    && match e.link
       case None => child.platform.None? && child.handle.None? && child.displayName.None?
       case Some(link) =>
         child.platform == Some(link.platform) && child.handle == link.handle && child.displayName == link.displayName
  }

  predicate SearchShows(rows: seq<SearchRow>, id: int, w: Written) {
    && |rows| == 1 && rows[0].userId == w.userId && rows[0].captureId == w.captureId
    && rows[0].illuminationId == id && rows[0].content == w.content
  }

  /** The columns leave no other children. */
  lemma ChildrenAreChildRows(children: seq<EntRow>, id: int, w: Written)
    ensures ChildrenShow(children, id, w) <==> children == ChildRows(id, w, |w.entities|)
  {
    if ChildrenShow(children, id, w) {
      forall p | 0 <= p < |children| ensures children[p] == EntRowOf(id, w, p) {
        assert ChildShows(children[p], id, w, p);
      }
    }
  }

  predicate RowsApart(ills: seq<IllRow>) {
    forall i, j | 0 <= i < j < |ills| :: ills[i].id != ills[j].id && ills[i].taskRunId != ills[j].taskRunId
  }

  predicate IdsBelow(db: Store) {
    && (forall i | 0 <= i < |db.ills| :: db.ills[i].id < db.nextId)
    && (forall k | 0 <= k < |db.ents| :: db.ents[k].illuminationId < db.nextId)
    && (forall k | 0 <= k < |db.search| :: db.search[k].illuminationId < db.nextId)
  }

  /** The store refines the map from task run to the illumination last written for it. */
  ghost predicate Refines(db: Store, m: map<nat, Written>) {
    RowsApart(db.ills) && IdsBelow(db) && AllShown(db, m) && AllFound(db, m)
  }

  /** Every row shows what the map has for its run. */
  predicate AllShown(db: Store, m: map<nat, Written>) {
    forall i | 0 <= i < |db.ills| :: ShownAt(db, m, i)
  }

  predicate ShownAt(db: Store, m: map<nat, Written>, i: nat)
    requires i < |db.ills|
  {
    db.ills[i].taskRunId in m && Shows(db, db.ills[i], m[db.ills[i].taskRunId])
  }

  /** Every run of the map has a row. */
  predicate AllFound(db: Store, m: map<nat, Written>) {
    forall runId | runId in m :: FindIll(db.ills, runId).Some?
  }

  /** Every run of the map has the same row id in both stores. */
  predicate IdsKept(db: Store, db': Store, m: map<nat, Written>) {
    forall runId | runId in m :: FindIll(db'.ills, runId).Some? && IdOf(db', runId) == IdOf(db, runId)
  }

  // ---- Filters --------------------------------------------------------------------------------

  lemma {:induction false} ChildrenWithout(ents: seq<EntRow>, id: int, other: int)
    ensures ChildrenOf(EntsWithout(ents, id), other) == if other == id then [] else ChildrenOf(ents, other)
  {
    if ents != [] {
      var last := |ents| - 1;
      var init := EntsWithout(ents[..last], id);
      ChildrenWithout(ents[..last], id, other);
      if ents[last].illuminationId != id {
        assert (init + [ents[last]])[..|init|] == init;
      } else {
        assert init + [] == init;
      }
    }
  }

  lemma ChildrenSnoc(ents: seq<EntRow>, row: EntRow, other: int)
    ensures ChildrenOf(ents + [row], other)
      == ChildrenOf(ents, other) + if row.illuminationId == other then [row] else []
  {
    assert (ents + [row])[..|ents|] == ents;
  }

  lemma ChildRowsStep(ents: seq<EntRow>, id: int, w: Written, n: nat)
    requires 0 < n <= |w.entities|
    ensures ents + ChildRows(id, w, n) == (ents + ChildRows(id, w, n - 1)) + [EntRowOf(id, w, n - 1)]
  {
  }

  lemma {:induction false} OwnChildrenAppend(ents: seq<EntRow>, id: int, w: Written, n: nat)
    requires n <= |w.entities| && ChildrenOf(ents, id) == []
    ensures ChildrenOf(ents + ChildRows(id, w, n), id) == ChildRows(id, w, n)
  {
    if n == 0 {
      assert ents + [] == ents;
    } else {
      OwnChildrenAppend(ents, id, w, n - 1);
      ChildRowsStep(ents, id, w, n);
      ChildrenSnoc(ents + ChildRows(id, w, n - 1), EntRowOf(id, w, n - 1), id);
    }
  }

  lemma {:induction false} OtherChildrenAppend(ents: seq<EntRow>, id: int, w: Written, n: nat, other: int)
    requires n <= |w.entities| && other != id
    ensures ChildrenOf(ents + ChildRows(id, w, n), other) == ChildrenOf(ents, other)
  {
    if n == 0 {
      assert ents + [] == ents;
    } else {
      OtherChildrenAppend(ents, id, w, n - 1, other);
      ChildRowsStep(ents, id, w, n);
      ChildrenSnoc(ents + ChildRows(id, w, n - 1), EntRowOf(id, w, n - 1), other);
    }
  }

  lemma {:induction false} SearchAfterWithout(rows: seq<SearchRow>, id: int, other: int)
    ensures SearchOf(SearchWithout(rows, id), other) == if other == id then [] else SearchOf(rows, other)
  {
    if rows != [] {
      var last := |rows| - 1;
      var init := SearchWithout(rows[..last], id);
      SearchAfterWithout(rows[..last], id, other);
      if rows[last].illuminationId != id {
        assert (init + [rows[last]])[..|init|] == init;
      } else {
        assert init + [] == init;
      }
    }
  }

  lemma SearchAppend(rows: seq<SearchRow>, row: SearchRow, other: int)
    ensures SearchOf(rows + [row], other) == SearchOf(rows, other) + if row.illuminationId == other then [row] else []
  {
    assert (rows + [row])[..|rows|] == rows;
  }

  lemma {:induction false} WithoutKeepsBounds(ents: seq<EntRow>, id: int, bound: int)
    requires forall k | 0 <= k < |ents| :: ents[k].illuminationId < bound
    ensures forall k | 0 <= k < |EntsWithout(ents, id)| ::
      EntsWithout(ents, id)[k].illuminationId < bound && EntsWithout(ents, id)[k].illuminationId != id
  {
    if ents != [] {
      WithoutKeepsBounds(ents[..|ents| - 1], id, bound);
    }
  }

  lemma {:induction false} SearchWithoutKeepsBounds(rows: seq<SearchRow>, id: int, bound: int)
    requires forall k | 0 <= k < |rows| :: rows[k].illuminationId < bound
    ensures forall k | 0 <= k < |SearchWithout(rows, id)| :: SearchWithout(rows, id)[k].illuminationId < bound
  {
    if rows != [] {
      SearchWithoutKeepsBounds(rows[..|rows| - 1], id, bound);
    }
  }

  // ---- One write ------------------------------------------------------------------------------

  /** The whole transaction. */
  function Write(db: Store, runId: nat, w: Written): Store {
    var up := UpsertIll(db, runId, w);
    var id := IdOf(db, runId);
    up.(ents := EntsWithout(db.ents, id) + ChildRows(id, w, |w.entities|),
        search := SearchWithout(db.search, id) + [SearchRow(w.userId, w.captureId, id, w.content)])
  }

  /** The id the run's row has after an upsert: its own if it exists, else the next one. */
  function IdOf(db: Store, runId: nat): int {
    match FindIll(db.ills, runId)
    case Some(i) => db.ills[i].id
    case None => db.nextId
  }

  lemma ChildrenAfterWrite(db: Store, runId: nat, w: Written, other: int)
    ensures var db' := Write(db, runId, w); var id := IdOf(db, runId);
      && ChildrenOf(db'.ents, other)
         == (if other == id then ChildRows(id, w, |w.entities|) else ChildrenOf(db.ents, other))
      && SearchOf(db'.search, other)
         == if other == id then [SearchRow(w.userId, w.captureId, id, w.content)] else SearchOf(db.search, other)
  {
    var id := IdOf(db, runId);
    ChildrenWithout(db.ents, id, other);
    if other == id {
      OwnChildrenAppend(EntsWithout(db.ents, id), id, w, |w.entities|);
    } else {
      OtherChildrenAppend(EntsWithout(db.ents, id), id, w, |w.entities|, other);
    }
    SearchAfterWithout(db.search, id, other);
    SearchAppend(SearchWithout(db.search, id), SearchRow(w.userId, w.captureId, id, w.content), other);
  }

  lemma BoundsAfterWrite(db: Store, runId: nat, w: Written)
    requires IdsBelow(db)
    ensures IdsBelow(Write(db, runId, w))
  {
    var id := IdOf(db, runId);
    WithoutKeepsBounds(db.ents, id, db.nextId);
    SearchWithoutKeepsBounds(db.search, id, db.nextId);
  }

  lemma FindIllUnique(ills: seq<IllRow>, i: nat)
    requires RowsApart(ills) && i < |ills|
    ensures FindIll(ills, ills[i].taskRunId) == Some(i)
  {
  }

  lemma RowsAfterWrite(db: Store, runId: nat, w: Written)
    requires RowsApart(db.ills) && IdsBelow(db)
    ensures RowsApart(Write(db, runId, w).ills)
    ensures FindIll(Write(db, runId, w).ills, runId).Some? && IdOf(Write(db, runId, w), runId) == IdOf(db, runId)
  {
    var ills := Write(db, runId, w).ills;
    var i := if FindIll(db.ills, runId).Some? then FindIll(db.ills, runId).value else |db.ills|;
    assert ills[i].taskRunId == runId && ills[i].id == IdOf(db, runId);
    FindIllUnique(ills, i);
  }

  /** Each row after a write is the written one or an old one with another id. */
  lemma RowAfterWrite(db: Store, runId: nat, w: Written, i: nat)
    requires RowsApart(db.ills) && IdsBelow(db) && i < |Write(db, runId, w).ills|
    ensures var row := Write(db, runId, w).ills[i]; var id := IdOf(db, runId);
      if row.taskRunId == runId then row == IllRowOf(id, runId, w)
      else i < |db.ills| && row == db.ills[i] && row.id != id
  {
  }

  lemma ShownAfterWrite(db: Store, m: map<nat, Written>, runId: nat, w: Written, i: nat)
    requires RowsApart(db.ills) && IdsBelow(db) && AllShown(db, m) && i < |Write(db, runId, w).ills|
    ensures ShownAt(Write(db, runId, w), m[runId := w], i)
  {
    var row := Write(db, runId, w).ills[i];
    RowAfterWrite(db, runId, w, i);
    if row.taskRunId == runId {
      WrittenRunShows(db, runId, w);
    } else {
      assert ShownAt(db, m, i);
      OtherRunShows(db, runId, w, row, m[row.taskRunId]);
    }
  }

  lemma WrittenRunShows(db: Store, runId: nat, w: Written)
    ensures Shows(Write(db, runId, w), IllRowOf(IdOf(db, runId), runId, w), w)
  {
    ChildrenAfterWrite(db, runId, w, IdOf(db, runId));
    ChildrenAreChildRows(ChildRows(IdOf(db, runId), w, |w.entities|), IdOf(db, runId), w);
  }

  lemma OtherRunShows(db: Store, runId: nat, w: Written, row: IllRow, shown: Written)
    requires Shows(db, row, shown) && row.id != IdOf(db, runId)
    ensures Shows(Write(db, runId, w), row, shown)
  {
    ChildrenAfterWrite(db, runId, w, row.id);
  }

  lemma RunsStayFound(db: Store, m: map<nat, Written>, runId: nat, w: Written, other: nat)
    requires RowsApart(db.ills) && IdsBelow(db) && AllFound(db, m) && other in m[runId := w]
    ensures FindIll(Write(db, runId, w).ills, other).Some?
  {
    var ills := Write(db, runId, w).ills;
    RowsAfterWrite(db, runId, w);
    if other != runId {
      var i := FindIll(db.ills, other).value;
      assert ills[i].taskRunId == other;
    }
  }

  /** Writing refines map update: every other run's projection is untouched, the written run shows exactly
      the new illumination, and an existing row keeps its id. */
  lemma WriteRefinesUpdate(db: Store, m: map<nat, Written>, runId: nat, w: Written)
    requires Refines(db, m)
    ensures Refines(Write(db, runId, w), m[runId := w])
    ensures IdsKept(db, Write(db, runId, w), m)
  {
    RowsAfterWrite(db, runId, w);
    BoundsAfterWrite(db, runId, w);
    AllShownAfterWrite(db, m, runId, w);
    AllFoundAfterWrite(db, m, runId, w);
    IdsKeptByWrite(db, m, runId, w);
  }

  lemma AllShownAfterWrite(db: Store, m: map<nat, Written>, runId: nat, w: Written)
    requires RowsApart(db.ills) && IdsBelow(db) && AllShown(db, m)
    ensures AllShown(Write(db, runId, w), m[runId := w])
  {
    var db', m' := Write(db, runId, w), m[runId := w];
    forall i | 0 <= i < |db'.ills| ensures ShownAt(db', m', i) {
      ShownAfterWrite(db, m, runId, w, i);
    }
  }

  lemma AllFoundAfterWrite(db: Store, m: map<nat, Written>, runId: nat, w: Written)
    requires RowsApart(db.ills) && IdsBelow(db) && AllFound(db, m)
    ensures AllFound(Write(db, runId, w), m[runId := w])
  {
    var ills, m' := Write(db, runId, w).ills, m[runId := w];
    forall other | other in m' ensures FindIll(ills, other).Some? {
      RunsStayFound(db, m, runId, w, other);
    }
  }

  lemma IdsKeptByWrite(db: Store, m: map<nat, Written>, runId: nat, w: Written)
    requires RowsApart(db.ills) && IdsBelow(db) && AllFound(db, m)
    ensures IdsKept(db, Write(db, runId, w), m)
  {
    forall other | other in m
      ensures FindIll(Write(db, runId, w).ills, other).Some? && IdOf(Write(db, runId, w), other) == IdOf(db, other)
    {
      RunsStayFound(db, m, runId, w, other);
      IdsStay(db, m, runId, w, other);
    }
  }

  lemma IdsStay(db: Store, m: map<nat, Written>, runId: nat, w: Written, other: nat)
    requires RowsApart(db.ills) && IdsBelow(db) && AllFound(db, m) && other in m
    ensures IdOf(Write(db, runId, w), other) == IdOf(db, other)
  {
    var ills := Write(db, runId, w).ills;
    RowsAfterWrite(db, runId, w);
    var i := FindIll(db.ills, other).value;
    assert ills[i].taskRunId == other && ills[i].id == db.ills[i].id;
    FindIllUnique(ills, i);
  }

  // ---- Any sequence of writes -----------------------------------------------------------------

  datatype Call = Call(runId: nat, written: Written)

  const EMPTY := Store([], [], [], 1)

  function WriteAll(calls: seq<Call>): Store {
    if calls == [] then EMPTY
    else Write(WriteAll(calls[..|calls| - 1]), calls[|calls| - 1].runId, calls[|calls| - 1].written)
  }

  /** The simple thing: a map from task run to its last written illumination. */
  function LastWritten(calls: seq<Call>): map<nat, Written> {
    if calls == [] then map[]
    else LastWritten(calls[..|calls| - 1])[calls[|calls| - 1].runId := calls[|calls| - 1].written]
  }

  lemma {:induction false} StoreRefinesLastWritten(calls: seq<Call>)
    ensures Refines(WriteAll(calls), LastWritten(calls))
  {
    if calls != [] {
      StoreRefinesLastWritten(calls[..|calls| - 1]);
      WriteRefinesUpdate(WriteAll(calls[..|calls| - 1]), LastWritten(calls[..|calls| - 1]),
                         calls[|calls| - 1].runId, calls[|calls| - 1].written);
    }
  }

  // ---- Read path ------------------------------------------------------------------------------

  datatype LinkInfo = LinkInfo(platform: string, handle: string, displayName: Option<string>)

  datatype EntityInfo = EntityInfo(
    captureId: int, illuminationId: int, name: string, entityType: string,
    description: Option<string>, searchQuery: Option<string>, link: Option<LinkInfo>)

  /** `KnowledgeEntityInfo::new`: a link needs both a platform and a handle. */
  function InfoOfRow(row: EntRow): EntityInfo {
    EntityInfo(row.captureId, row.illuminationId, row.name, row.entityType, row.description, row.searchQuery,
      if row.platform.Some? && row.handle.Some?
      then Some(LinkInfo(row.platform.value, row.handle.value, row.displayName))
      else None)
  }

  /** What a reader should see of an entity: its link survives exactly when it had a handle. */
  predicate InfoShows(info: EntityInfo, id: int, captureId: int, e: Entity) {
    && info.captureId == captureId && info.illuminationId == id
    && info.name == e.name && info.entityType == e.entityType
    && info.description == e.description && info.searchQuery == e.searchQuery
    && (info.link.Some? <==> e.link.Some? && e.link.value.handle.Some?)
    && (info.link.Some? ==>
          && info.link.value.platform == e.link.value.platform && info.link.value.handle == e.link.value.handle.value
          && info.link.value.displayName == e.link.value.displayName)
  }

  function Position(row: EntRow): Key {
    Key(row.position, 0)
  }

  function InfosOfRows(rows: seq<EntRow>): (r: seq<EntityInfo>)
    ensures |r| == |rows| && forall i | 0 <= i < |rows| :: r[i] == InfoOfRow(rows[i])
  {
    if rows == [] then [] else [InfoOfRow(rows[0])] + InfosOfRows(rows[1..])
  }

  datatype IlluminationInfo = IlluminationInfo(
    id: int, captureId: int, summary: string, details: string, searches: seq<string>, entities: seq<EntityInfo>)

  /** `make_illumination_info`: the row, and its children in whatever order they were loaded, sorted by position. */
  function MakeInfo(row: IllRow, loaded: seq<EntRow>): IlluminationInfo {
    IlluminationInfo(row.id, row.captureId, row.summary, row.details, row.searches, InfosOfRows(Sort(Position, loaded)))
  }

  lemma LoadingOrderIsIrrelevant(id: int, w: Written, loaded: seq<EntRow>)
    requires multiset(loaded) == multiset(ChildRows(id, w, |w.entities|))
    ensures Sort(Position, loaded) == ChildRows(id, w, |w.entities|)
  {
    SortRestores(Position, ChildRows(id, w, |w.entities|), loaded);
  }

  /** The reader sees exactly this written illumination under this row id. */
  predicate ReadsAs(info: IlluminationInfo, id: int, w: Written) {
    && info.id == id && info.captureId == w.captureId
    && info.summary == w.summary && info.details == w.details && info.searches == w.searches
    && |info.entities| == |w.entities|
    && forall p | 0 <= p < |info.entities| :: InfoShows(info.entities[p], id, w.captureId, w.entities[p])
  }

  /** Reading a row with any loading order of its children gives back the illumination last written for its run:
      its texts and searches each in its own field, and its entities in their original order. */
  lemma ReadBackLastWritten(db: Store, m: map<nat, Written>, i: nat, loaded: seq<EntRow>)
    requires Refines(db, m) && i < |db.ills|
    requires multiset(loaded) == multiset(ChildrenOf(db.ents, db.ills[i].id))
    ensures db.ills[i].taskRunId in m
    ensures ReadsAs(MakeInfo(db.ills[i], loaded), db.ills[i].id, m[db.ills[i].taskRunId])
  {
    assert ShownAt(db, m, i);
    var row := db.ills[i];
    var w := m[row.taskRunId];
    ChildrenAreChildRows(ChildrenOf(db.ents, row.id), row.id, w);
    LoadingOrderIsIrrelevant(row.id, w, loaded);
    EntitiesRead(row.id, w);
  }

  lemma ChildReads(id: int, w: Written, p: nat)
    requires p < |w.entities|
    ensures InfoShows(InfoOfRow(EntRowOf(id, w, p)), id, w.captureId, w.entities[p])
  {
  }

  lemma EntitiesRead(id: int, w: Written)
    ensures var infos := InfosOfRows(ChildRows(id, w, |w.entities|));
      |infos| == |w.entities| && forall p | 0 <= p < |infos| :: InfoShows(infos[p], id, w.captureId, w.entities[p])
  {
    forall p | 0 <= p < |w.entities| ensures InfoShows(InfoOfRow(EntRowOf(id, w, p)), id, w.captureId, w.entities[p]) {
      ChildReads(id, w, p);
    }
  }

  /** So, after any sequence of writes, a capture for which anything is written shows the illumination last written
      for the run with the greatest row id. */
  lemma CaptureShowsLastWritten(calls: seq<Call>, captureId: int, loaded: seq<EntRow>)
    requires LatestOf(WriteAll(calls).ills, captureId).Some?
    requires multiset(loaded)
      == multiset(ChildrenOf(WriteAll(calls).ents, LatestOf(WriteAll(calls).ills, captureId).value.id))
    ensures var row := LatestOf(WriteAll(calls).ills, captureId).value;
      && row.taskRunId in LastWritten(calls) && LastWritten(calls)[row.taskRunId].captureId == captureId
      && ReadsAs(MakeInfo(row, loaded), row.id, LastWritten(calls)[row.taskRunId])
  {
    var db := WriteAll(calls);
    StoreRefinesLastWritten(calls);
    var i :| 0 <= i < |db.ills| && db.ills[i] == LatestOf(db.ills, captureId).value;
    ReadBackLastWritten(db, LastWritten(calls), i, loaded);
  }

  /** Positions of a run's children are exactly 0..k-1. */
  lemma PositionsAreExact(db: Store, m: map<nat, Written>, i: nat, p: int)
    requires Refines(db, m) && i < |db.ills|
    ensures db.ills[i].taskRunId in m
    ensures var children := ChildrenOf(db.ents, db.ills[i].id);
      && (forall q | 0 <= q < |children| :: children[q].position == q)
      && (0 <= p < |m[db.ills[i].taskRunId].entities| <==> exists q | 0 <= q < |children| :: children[q].position == p)
  {
    assert ShownAt(db, m, i);
    var children := ChildrenOf(db.ents, db.ills[i].id);
    forall q | 0 <= q < |children| ensures children[q].position == q {
      assert ChildShows(children[q], db.ills[i].id, m[db.ills[i].taskRunId], q);
    }
    if 0 <= p < |children| {
      assert children[p].position == p;
    }
  }

  // ---- The code -------------------------------------------------------------------------------

  class Projection {
    var db: Store

    constructor ()
      ensures db == EMPTY && Refines(db, map[])
    {
      db := EMPTY;
    }

    /** `insert_illumination_v2`: all in one transaction, committed only if every insert succeeds. The
        position key is never violated, so it always commits. */
    method InsertIllumination(runId: nat, w: Written, ghost m: map<nat, Written>) returns (committed: bool)
      requires Refines(db, m)
      modifies this
      ensures committed && db == Write(old(db), runId, w) && Refines(db, m[runId := w])
    {
      WriteRefinesUpdate(db, m, runId, w);
      var tx := UpsertIll(db, runId, w);
      var id := IdOf(db, runId);
      WithoutKeepsBounds(db.ents, id, db.nextId);
      var ents;
      committed, ents := InsertChildren(EntsWithout(db.ents, id), id, w);
      tx := tx.(ents := ents,
                search := SearchWithout(db.search, id) + [SearchRow(w.userId, w.captureId, id, w.content)]);
      db := if committed then tx else db;
    }
  }

  /** The reinsertion loop; each insert is guarded by the (illumination, position) key. */
  method InsertChildren(ents: seq<EntRow>, id: int, w: Written) returns (ok: bool, later: seq<EntRow>)
    requires forall k | 0 <= k < |ents| :: ents[k].illuminationId != id
    ensures ok && later == ents + ChildRows(id, w, |w.entities|)
  {
    ok, later := true, ents;
    for position := 0 to |w.entities|
      invariant ok && later == ents + ChildRows(id, w, position)
    {
      ok := ok && !PositionTaken(later, id, position);
      later := later + [EntRowOf(id, w, position)];
    }
  }

  // ---- The latest illumination of a capture ---------------------------------------------------

  /** `make_capture_info` shows the illumination with the greatest id. */
  function LatestOf(ills: seq<IllRow>, captureId: int): (r: Option<IllRow>)
    ensures r.Some? ==> r.value in ills && r.value.captureId == captureId
    ensures r.Some? ==> forall i | 0 <= i < |ills| && ills[i].captureId == captureId :: ills[i].id <= r.value.id
    ensures r.None? ==> forall i | 0 <= i < |ills| :: ills[i].captureId != captureId
  {
    if ills == [] then None
    else
      var last := |ills| - 1;
      var rest := LatestOf(ills[..last], captureId);
      if ills[last].captureId == captureId && (rest.None? || rest.value.id <= ills[last].id)
      then Some(ills[last])
      else rest
  }

  /** The first write of a new run makes it the one shown. */
  lemma NewRunIsShown(db: Store, runId: nat, w: Written)
    requires IdsBelow(db) && FindIll(db.ills, runId).None?
    ensures LatestOf(Write(db, runId, w).ills, w.captureId) == Some(IllRowOf(db.nextId, runId, w))
  {
    LatestIsNew(db.ills, IllRowOf(db.nextId, runId, w));
  }

  lemma LatestIsNew(ills: seq<IllRow>, row: IllRow)
    requires forall i | 0 <= i < |ills| :: ills[i].id < row.id
    ensures LatestOf(ills + [row], row.captureId) == Some(row)
  {
    assert (ills + [row])[..|ills|] == ills;
  }

  /** A retry of an older run rewrites that run in place and never takes over the display. */
  lemma RetryKeepsShownRun(db: Store, runId: nat, w: Written, i: nat)
    requires RowsApart(db.ills) && FindIll(db.ills, runId) == Some(i) && db.ills[i].captureId == w.captureId
    ensures var before := LatestOf(db.ills, w.captureId); var after := LatestOf(Write(db, runId, w).ills, w.captureId);
      && before.Some? && after.Some?
      && after.value.id == before.value.id && after.value.taskRunId == before.value.taskRunId
  {
    SameIdsSameLatest(db.ills, Write(db, runId, w).ills, w.captureId, i);
  }

  lemma SameIdsSameLatest(ills: seq<IllRow>, ills': seq<IllRow>, captureId: int, some: nat)
    requires |ills| == |ills'| && RowsApart(ills) && some < |ills| && ills[some].captureId == captureId
    requires forall i | 0 <= i < |ills| ::
      ills'[i].id == ills[i].id && ills'[i].taskRunId == ills[i].taskRunId && ills'[i].captureId == ills[i].captureId
    ensures var before := LatestOf(ills, captureId); var after := LatestOf(ills', captureId);
      && before.Some? && after.Some?
      && after.value.id == before.value.id && after.value.taskRunId == before.value.taskRunId
  {
    assert ills'[some].captureId == captureId;
    var before, after := LatestOf(ills, captureId).value, LatestOf(ills', captureId).value;
    var a :| 0 <= a < |ills'| && ills'[a] == after;
    var b :| 0 <= b < |ills| && ills[b] == before;
    assert ills[a].id <= ills[b].id && ills'[b].id <= ills'[a].id;
    assert a == b;
  }
}
