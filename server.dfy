/** The settings-related logic of backend/server.py: the process-wide
    settings store and its default, the choice of database client, the
    `/update-settings` route, the shaping of `/search` results by metric, and
    the per-document deduplication of `/prompt`. Flask routing, the database
    clients and the encoders are outside the model; their results are
    inputs here. */
module Server {
  import opened Results
  import opened SettingsTypes
  import opened SettingsSchema

  /** `DEFAULT_SETTINGS` (server.py:27-31). */
  const DEFAULT_SETTINGS: Settings := Settings.PostgresSettings(PostgresMetric.Cosine, Ollama)

  /** `SettingsStore` (server.py:50-58): one mutable slot. */
  class SettingsStore {
    var settings: Settings

    constructor (initial: Settings)
      ensures settings == initial
    {
      settings := initial;
    }

    method GetSettings() returns (s: Settings)
      ensures s == settings
    {
      s := settings;
    }

    method SetSettings(s: Settings)
      modifies this
      ensures settings == s
    {
      settings := s;
    }
  }

  /** The store the server starts with (server.py:60). */
  method NewServerStore() returns (store: SettingsStore)
    ensures fresh(store)
    ensures store.settings.Database() == Postgres
    ensures store.settings.MetricOf() == CosineOf(Postgres)
    ensures store.settings.llmProvider == Ollama
  {
    store := new SettingsStore(DEFAULT_SETTINGS);
  }

  // ---------------------------------------------------------------- database choice

  /** The database clients the server builds: only the Postgres one (the
      MySQL client is commented out, server.py:41-48). */
  datatype DbClient = PgDb

  /** `get_db_by_type` (server.py:62-68). */
  function GetDbByType(dbType: string): (r: Option<DbClient>)
    ensures r.Some? <==> dbType == "postgres"
  {
    if dbType == "postgres" then Some(PgDb) else None
  }

  datatype HttpMethod = Get | Post | Options

  /** `setup_database` (server.py:75-82): the client put in `g.db`, none for
      an OPTIONS request; when the stored database has no client, the
      Postgres client is used instead. */
  function SetupDatabase(m: HttpMethod, stored: Settings): (r: Option<DbClient>)
    ensures r.None? <==> m == Options
    ensures r.Some? ==> r.value == PgDb
  {
    if m == Options then None
    else match GetDbByType(stored.Database().Value())
      case Some(db) => Some(db)
      case None => Some(PgDb)
  }

  /** A MySQL selection is stored and echoed, but every request still runs
      against the Postgres client. */
  lemma MySQLSelectionFallsBack(stored: Settings)
    requires stored.Database() == MySQL
    ensures GetDbByType(stored.Database().Value()).None?
    ensures SetupDatabase(Post, stored) == Some(PgDb)
  {
  }

  // ---------------------------------------------------------------- /update-settings

  /** The response of `/update-settings`: 204 for a preflight, 200 echoing
      the stored record, or 400 with the error text (not modelled). */
  datatype UpdateResponse = NoContent | Success(settings: Settings) | BadRequest {
    function Status(): int {
      match this
      case NoContent => 204
      case Success(_) => 200
      case BadRequest => 400
    }
  }

  /** `payload.get("settings", payload)` (server.py:94): the `settings`
      member when the body is an object that has one, the body itself when it
      is an object without one; `None` when the body is not an object, where
      `.get` raises. */
  function SettingsData(body: Json): (r: Option<Json>)
    ensures r.Some? <==> body.JObject?
    ensures r.Some? && "settings" !in body.fields ==> r.value == body
  {
    match body
    case JObject(fields) => Some(if "settings" in fields then fields["settings"] else body)
    case _ => None
  }

  /** The route's answer to a request (server.py:86-100): the parsed record,
      or 400 for any exception on the way (no JSON object, a `settings` member
      that is not an object, or a parse error). */
  function UpdateOutcome(m: HttpMethod, body: Json): (r: UpdateResponse)
    requires m != Get
    ensures r.NoContent? <==> m == Options
    ensures r.Success? ==> exists f :: SettingsData(body) == Some(JObject(f)) && ParseSettings(f) == Ok(r.settings)
    ensures (&& m == Post && SettingsData(body).Some? && SettingsData(body).value.JObject?
             && ParseSettings(SettingsData(body).value.fields).Ok?) ==> r.Success?
  {
    if m == Options then NoContent
    else match SettingsData(body)
      case Some(JObject(f)) =>
        (match ParseSettings(f)
         case Ok(s) => Success(s)
         case Err(_) => BadRequest)
      case _ => BadRequest
  }

  /** The route handler: the store is written exactly when the answer is 200,
      with the record the answer echoes. */
  method UpdateSettings(store: SettingsStore, m: HttpMethod, body: Json) returns (r: UpdateResponse)
    requires m != Get
    modifies store
    ensures r == UpdateOutcome(m, body)
    ensures store.settings == (if r.Success? then r.settings else old(store.settings))
  {
    if m == Options {
      return NoContent;
    }
    r := UpdateOutcome(m, body);
    if r.Success? {
      store.SetSettings(r.settings);
    }
  }

  /** A record is accepted both wrapped as `{"settings": ...}` and bare, and
      the answer echoes it unchanged; members the schema does not know are
      dropped. */
  lemma UpdateAcceptsWrappedAndBare(s: Settings)
    ensures UpdateOutcome(Post, JObject(map["settings" := JObject(Dump(s))])) == Success(s)
    ensures UpdateOutcome(Post, JObject(Dump(s))) == Success(s)
  {
    ParseDump(s);
  }

  /** The routes the server defines (server.py:85, 103, 135, 161, 205).
      There is no `/load-settings`. */
  const ROUTES: set<string> := {"/update-settings", "/crawl", "/add", "/search", "/prompt"}

  // ---------------------------------------------------------------- /search

  /** A row returned by the database search: id, title, content and the
      metric's score (`r[0]` .. `r[3]`); scores are an ordered abstract type. */
  datatype Row = Row(id: int, title: string, content: string, score: int)

  /** The name under which a result carries its score. */
  datatype ScoreKey = SimilarityPercent | L2Distance | InnerProductScore

  datatype ResultDict = ResultDict(id: int, title: string, content: string, score: Option<(ScoreKey, int)>)

  /** The score key for a metric string (server.py:187-192); no key for any
      other metric. */
  function ScoreKeyFor(metric: string): (r: Option<ScoreKey>)
    ensures r == Some(SimilarityPercent) <==> metric == "cosine"
    ensures r == Some(L2Distance) <==> metric == "l2"
    ensures r == Some(InnerProductScore) <==> metric == "inner_product"
  {
    if metric == "cosine" then Some(SimilarityPercent)
    else if metric == "l2" then Some(L2Distance)
    else if metric == "inner_product" then Some(InnerProductScore)
    else None
  }

  /** The metrics the store can hold only ever produce a similarity or an
      L2 distance; the inner-product branch is unreachable. */
  lemma StoredMetricHasScoreKey(s: Settings)
    ensures ScoreKeyFor(s.MetricOf().Value()) in {Some(SimilarityPercent), Some(L2Distance)}
  {
  }

  /** The result loop of `/search` (server.py:179-202): one result per row,
      in order, with the row's id, title and content, and its score under the
      metric's key; the response echoes the metric as `metric_used`, and
      `total_results` is the number of results. */
  method ShapeResults(metric: string, rows: seq<Row>) returns (results: seq<ResultDict>, metricUsed: string, total: nat)
    ensures |results| == |rows| && total == |results| && metricUsed == metric
    ensures forall i :: 0 <= i < |rows| ==>
      && results[i].id == rows[i].id && results[i].title == rows[i].title
      && results[i].content == rows[i].content
      && results[i].score == (if ScoreKeyFor(metric).Some? then Some((ScoreKeyFor(metric).value, rows[i].score)) else None)
  {
    results := [];
    var i := 0;
    while i < |rows|
      invariant 0 <= i <= |rows| && |results| == i
      invariant forall k :: 0 <= k < i ==>
        && results[k].id == rows[k].id && results[k].title == rows[k].title
        && results[k].content == rows[k].content
        && results[k].score == (if ScoreKeyFor(metric).Some? then Some((ScoreKeyFor(metric).value, rows[k].score)) else None)
    {
      var r := rows[i];
      var score := None;
      if metric == "cosine" {
        score := Some((SimilarityPercent, r.score));
      } else if metric == "l2" {
        score := Some((L2Distance, r.score));
      } else if metric == "inner_product" {
        score := Some((InnerProductScore, r.score));
      }
      results := results + [ResultDict(r.id, r.title, r.content, score)];
      i := i + 1;
    }
    metricUsed, total := metric, |results|;
  }

  // ---------------------------------------------------------------- /prompt deduplication

  /** `docs[j]` is the document kept for its id among the first `n`: no
      document with that id has a higher similarity, and every earlier one
      has a lower similarity (a later equal one does not replace it). */
  ghost predicate WinsAt(docs: seq<Row>, n: nat, j: nat)
    requires n <= |docs|
  {
    && j < n
    && (forall k :: 0 <= k < n && docs[k].id == docs[j].id ==> docs[k].score <= docs[j].score)
    && (forall k :: 0 <= k < j && docs[k].id == docs[j].id ==> docs[k].score < docs[j].score)
  }

  /** A document that does not beat the kept one for its id leaves the
      kept one in place. */
  lemma WinsAtKept(docs: seq<Row>, i: nat, p: nat)
    requires i < |docs| && WinsAt(docs, i, p)
    requires docs[i].id != docs[p].id || docs[i].score <= docs[p].score
    ensures WinsAt(docs, i + 1, p)
  {
  }

  /** A document whose id is new, or which beats the kept one, is kept. */
  lemma WinsAtReplaced(docs: seq<Row>, i: nat)
    requires i < |docs|
    requires forall k :: 0 <= k < i && docs[k].id == docs[i].id ==> docs[k].score < docs[i].score
    ensures WinsAt(docs, i + 1, i)
  {
  }

  /** The ids among the first `i` documents. */
  ghost function SeenIds(docs: seq<Row>, i: nat): set<int>
    requires i <= |docs|
  {
    set j | 0 <= j < i :: docs[j].id
  }

  lemma SeenIdsStep(docs: seq<Row>, i: nat)
    requires i < |docs|
    ensures SeenIds(docs, i + 1) == SeenIds(docs, i) + {docs[i].id}
    ensures docs[i].id !in SeenIds(docs, i) ==> forall j :: 0 <= j < i ==> docs[j].id != docs[i].id
  {
    if docs[i].id !in SeenIds(docs, i) {
      forall j | 0 <= j < i
        ensures docs[j].id != docs[i].id
      {
        assert docs[j].id in SeenIds(docs, i);
      }
    }
  }

  /** `best` holds exactly the ids seen so far, as do `order` and `pos`. */
  ghost predicate DedupKeys(docs: seq<Row>, i: nat, best: map<int, Row>, order: seq<int>, pos: map<int, nat>)
  {
    && i <= |docs|
    && (forall id :: id in best <==> id in order)
    && best.Keys == SeenIds(docs, i)
    && pos.Keys == best.Keys
  }

  /** Each id's kept document sits at `pos[id]` and wins among the first `i`. */
  ghost predicate DedupPos(docs: seq<Row>, i: nat, best: map<int, Row>, pos: map<int, nat>)
    requires i <= |docs|
  {
    forall id :: id in pos ==>
      && id in best && pos[id] < i && docs[pos[id]] == best[id] && docs[pos[id]].id == id
      && WinsAt(docs, i, pos[id])
  }

  /** `firsts[k]` is the first position of `order[k]` among the first `i`. */
  ghost predicate DedupFirst(docs: seq<Row>, i: nat, order: seq<int>, firsts: seq<nat>)
    requires i <= |docs|
  {
    && |firsts| == |order|
    && forall k :: 0 <= k < |order| ==>
         && firsts[k] < i && docs[firsts[k]].id == order[k]
         && forall j :: 0 <= j < i && docs[j].id == order[k] ==> firsts[k] <= j
  }

  /** The first positions increase along `order`. */
  ghost predicate DedupOrdered(firsts: seq<nat>)
  {
    forall a, b :: 0 <= a < b < |firsts| ==> firsts[a] < firsts[b]
  }

  /** The loop invariant of the deduplication loop. */
  ghost predicate DedupState(docs: seq<Row>, i: nat, best: map<int, Row>, order: seq<int>,
                             pos: map<int, nat>, firsts: seq<nat>)
  {
    && DedupKeys(docs, i, best, order, pos)
    && DedupPos(docs, i, best, pos)
    && DedupFirst(docs, i, order, firsts)
    && DedupOrdered(firsts)
  }

  /** How one turn of the loop changes the dictionary and the ghost maps. */
  ghost predicate StepRel(docs: seq<Row>, i: nat, best: map<int, Row>, order: seq<int>, pos: map<int, nat>, firsts: seq<nat>,
                          best': map<int, Row>, order': seq<int>, pos': map<int, nat>, firsts': seq<nat>)
    requires i < |docs|
  {
    var d := docs[i];
    if d.id !in best then
      best' == best[d.id := d] && order' == order + [d.id] && pos' == pos[d.id := i] && firsts' == firsts + [i]
    else if d.score > best[d.id].score then
      best' == best[d.id := d] && order' == order && pos' == pos[d.id := i] && firsts' == firsts
    else
      best' == best && order' == order && pos' == pos && firsts' == firsts
  }

  /** One turn of the loop keeps the invariant, whichever branch it takes. */
  lemma DedupStep(docs: seq<Row>, i: nat, best: map<int, Row>, order: seq<int>, pos: map<int, nat>, firsts: seq<nat>,
                  best': map<int, Row>, order': seq<int>, pos': map<int, nat>, firsts': seq<nat>)
    requires i < |docs| && DedupState(docs, i, best, order, pos, firsts)
    requires StepRel(docs, i, best, order, pos, firsts, best', order', pos', firsts')
    ensures DedupState(docs, i + 1, best', order', pos', firsts')
  {
    var d := docs[i];
    if d.id !in best {
      DedupStepNew(docs, i, best, order, pos, firsts);
    } else if d.score > best[d.id].score {
      DedupStepReplace(docs, i, best, order, pos, firsts);
    } else {
      DedupStepKeep(docs, i, best, order, pos, firsts);
    }
  }

  /** A document with an id not seen before is kept, and its id is listed
      last. */
  lemma DedupStepNew(docs: seq<Row>, i: nat, best: map<int, Row>, order: seq<int>, pos: map<int, nat>, firsts: seq<nat>)
    requires i < |docs| && DedupState(docs, i, best, order, pos, firsts)
    requires docs[i].id !in best
    ensures var d := docs[i];
      DedupState(docs, i + 1, best[d.id := d], order + [d.id], pos[d.id := i], firsts + [i])
  {
    var d := docs[i];
    SeenIdsStep(docs, i);
    assert DedupKeys(docs, i + 1, best[d.id := d], order + [d.id], pos[d.id := i]);
    NewPos(docs, i, best, pos);
    forall k | 0 <= k < |order|
      ensures order[k] != d.id
    {
      assert forall id :: id in best <==> id in order;
      assert order[k] in order;
    }
    NewFirst(docs, i, order, firsts);
    NewOrdered(firsts, i);
  }

  lemma NewPos(docs: seq<Row>, i: nat, best: map<int, Row>, pos: map<int, nat>)
    requires i < |docs| && DedupPos(docs, i, best, pos)
    requires forall j :: 0 <= j < i ==> docs[j].id != docs[i].id
    ensures DedupPos(docs, i + 1, best[docs[i].id := docs[i]], pos[docs[i].id := i])
  {
    var d := docs[i];
    WinsAtReplaced(docs, i);
    forall id | id in pos && id != d.id
      ensures WinsAt(docs, i + 1, pos[id])
    {
      WinsAtKept(docs, i, pos[id]);
    }
  }

  lemma NewFirst(docs: seq<Row>, i: nat, order: seq<int>, firsts: seq<nat>)
    requires i < |docs| && DedupFirst(docs, i, order, firsts)
    requires forall j :: 0 <= j < i ==> docs[j].id != docs[i].id
    requires forall k :: 0 <= k < |order| ==> order[k] != docs[i].id
    ensures DedupFirst(docs, i + 1, order + [docs[i].id], firsts + [i])
  {
    var order', firsts' := order + [docs[i].id], firsts + [i];
    forall k | 0 <= k < |order'|
      ensures && firsts'[k] < i + 1 && docs[firsts'[k]].id == order'[k]
              && forall j :: 0 <= j < i + 1 && docs[j].id == order'[k] ==> firsts'[k] <= j
    {
      if k < |order| {
        assert firsts'[k] == firsts[k] && order'[k] == order[k];
      }
    }
  }

  lemma NewOrdered(firsts: seq<nat>, i: nat)
    requires DedupOrdered(firsts)
    requires forall k :: 0 <= k < |firsts| ==> firsts[k] < i
    ensures DedupOrdered(firsts + [i])
  {
    var firsts' := firsts + [i];
    forall a, b | 0 <= a < b < |firsts'|
      ensures firsts'[a] < firsts'[b]
    {
      assert firsts'[a] == firsts[a];
    }
  }

  /** A document that beats the kept one for its id replaces it; the order
      of ids does not change. */
  lemma DedupStepReplace(docs: seq<Row>, i: nat, best: map<int, Row>, order: seq<int>, pos: map<int, nat>, firsts: seq<nat>)
    requires i < |docs| && DedupState(docs, i, best, order, pos, firsts)
    requires docs[i].id in best && docs[i].score > best[docs[i].id].score
    ensures var d := docs[i];
      DedupState(docs, i + 1, best[d.id := d], order, pos[d.id := i], firsts)
  {
    SameKeys(docs, i, best, order, pos);
    ReplacePos(docs, i, best, pos);
    SameFirst(docs, i, order, firsts);
  }

  /** A document whose id was seen leaves the sets of ids as they were. */
  lemma SameKeys(docs: seq<Row>, i: nat, best: map<int, Row>, order: seq<int>, pos: map<int, nat>)
    requires i < |docs| && DedupKeys(docs, i, best, order, pos)
    requires docs[i].id in best
    ensures DedupKeys(docs, i + 1, best, order, pos)
    ensures DedupKeys(docs, i + 1, best[docs[i].id := docs[i]], order, pos[docs[i].id := i])
  {
    var d := docs[i];
    SeenIdsStep(docs, i);
    assert forall id :: id in best <==> id in order;
    assert best[d.id := d].Keys == best.Keys && pos[d.id := i].Keys == pos.Keys;
  }

  lemma ReplacePos(docs: seq<Row>, i: nat, best: map<int, Row>, pos: map<int, nat>)
    requires i < |docs| && DedupPos(docs, i, best, pos)
    requires docs[i].id in pos && docs[i].score > best[docs[i].id].score
    ensures DedupPos(docs, i + 1, best[docs[i].id := docs[i]], pos[docs[i].id := i])
  {
    var d := docs[i];
    assert WinsAt(docs, i, pos[d.id]);
    WinsAtReplaced(docs, i);
    forall id | id in pos && id != d.id
      ensures WinsAt(docs, i + 1, pos[id])
    {
      WinsAtKept(docs, i, pos[id]);
    }
  }

  lemma SameFirst(docs: seq<Row>, i: nat, order: seq<int>, firsts: seq<nat>)
    requires i < |docs| && DedupFirst(docs, i, order, firsts)
    ensures DedupFirst(docs, i + 1, order, firsts)
  {
  }

  /** A document that does not beat the kept one changes nothing. */
  lemma DedupStepKeep(docs: seq<Row>, i: nat, best: map<int, Row>, order: seq<int>, pos: map<int, nat>, firsts: seq<nat>)
    requires i < |docs| && DedupState(docs, i, best, order, pos, firsts)
    requires docs[i].id in best && docs[i].score <= best[docs[i].id].score
    ensures DedupState(docs, i + 1, best, order, pos, firsts)
  {
    SameKeys(docs, i, best, order, pos);
    forall id | id in pos
      ensures WinsAt(docs, i + 1, pos[id])
    {
      WinsAtKept(docs, i, pos[id]);
    }
    SameFirst(docs, i, order, firsts);
  }

  /** No two documents share an id. */
  predicate DistinctIds(unique: seq<Row>) {
    forall a, b :: 0 <= a < b < |unique| ==> unique[a].id != unique[b].id
  }

  /** The two sequences hold the same ids. */
  predicate SameIds(unique: seq<Row>, docs: seq<Row>) {
    (set u | u in unique :: u.id) == (set d | d in docs :: d.id)
  }

  /** Every document is the one kept for its id among all of `docs`. */
  ghost predicate AllWinners(unique: seq<Row>, docs: seq<Row>) {
    forall u :: u in unique ==> exists j: nat :: j < |docs| && WinsAt(docs, |docs|, j) && docs[j] == u
  }

  /** The ids come in the order of their first appearance in `docs`: any
      document with a later id comes after some document with an earlier
      id. */
  predicate FirstAppearanceOrder(unique: seq<Row>, docs: seq<Row>) {
    forall a, b, j :: 0 <= a < b < |unique| && 0 <= j < |docs| && docs[j].id == unique[b].id ==>
      exists k :: 0 <= k < j && docs[k].id == unique[a].id
  }

  /** The dictionary `unique_docs` of `/prompt` (server.py:232-240) after
      the first `n` documents: the kept document per id, and the ids in the
      dictionary's insertion order (replacing a value keeps its key's place). */
  datatype Dedup = Dedup(best: map<int, Row>, order: seq<int>)

  function DedupPrefix(docs: seq<Row>, n: nat): Dedup
    requires n <= |docs|
  {
    if n == 0 then Dedup(map[], [])
    else
      var r := DedupPrefix(docs, n - 1);
      var d := docs[n - 1];
      if d.id !in r.best then Dedup(r.best[d.id := d], r.order + [d.id])
      else if d.score > r.best[d.id].score then Dedup(r.best[d.id := d], r.order)
      else r
  }

  /** Where each kept document of `DedupPrefix(docs, n)` sits in `docs`. */
  ghost function PosPrefix(docs: seq<Row>, n: nat): map<int, nat>
    requires n <= |docs|
  {
    if n == 0 then map[]
    else
      var r := DedupPrefix(docs, n - 1);
      var d := docs[n - 1];
      if d.id !in r.best || d.score > r.best[d.id].score then PosPrefix(docs, n - 1)[d.id := n - 1]
      else PosPrefix(docs, n - 1)
  }

  /** Where each id of `DedupPrefix(docs, n).order` first appears. */
  ghost function FirstsPrefix(docs: seq<Row>, n: nat): seq<nat>
    requires n <= |docs|
  {
    if n == 0 then []
    else if docs[n - 1].id !in DedupPrefix(docs, n - 1).best then FirstsPrefix(docs, n - 1) + [n - 1]
    else FirstsPrefix(docs, n - 1)
  }

  /** The dictionary after any prefix satisfies the invariant. */
  lemma {:induction false} DedupPrefixState(docs: seq<Row>, n: nat)
    requires n <= |docs|
    ensures DedupState(docs, n, DedupPrefix(docs, n).best, DedupPrefix(docs, n).order,
                       PosPrefix(docs, n), FirstsPrefix(docs, n))
  {
    if n == 0 {
      DedupInit(docs);
    } else {
      DedupPrefixState(docs, n - 1);
      var r := DedupPrefix(docs, n - 1);
      PrefixStep(docs, n);
      DedupStep(docs, n - 1, r.best, r.order, PosPrefix(docs, n - 1), FirstsPrefix(docs, n - 1),
                DedupPrefix(docs, n).best, DedupPrefix(docs, n).order, PosPrefix(docs, n), FirstsPrefix(docs, n));
    }
  }

  lemma PrefixStep(docs: seq<Row>, n: nat)
    requires 0 < n <= |docs|
    ensures StepRel(docs, n - 1, DedupPrefix(docs, n - 1).best, DedupPrefix(docs, n - 1).order,
                    PosPrefix(docs, n - 1), FirstsPrefix(docs, n - 1),
                    DedupPrefix(docs, n).best, DedupPrefix(docs, n).order, PosPrefix(docs, n), FirstsPrefix(docs, n))
  {
  }

  /** The values of the finished dictionary: one document per id, each the
      first one with the highest similarity for its id, the ids in the order
      in which they first appear. */
  lemma DedupSpec(docs: seq<Row>)
    ensures var r := DedupPrefix(docs, |docs|);
      && (forall k :: 0 <= k < |r.order| ==> r.order[k] in r.best)
      && DistinctIds(Kept(r.best, r.order)) && SameIds(Kept(r.best, r.order), docs)
      && AllWinners(Kept(r.best, r.order), docs) && FirstAppearanceOrder(Kept(r.best, r.order), docs)
  {
    DedupPrefixState(docs, |docs|);
    var r := DedupPrefix(docs, |docs|);
    DedupResult(docs, r.best, r.order, PosPrefix(docs, |docs|), FirstsPrefix(docs, |docs|));
  }

  /** The deduplication loop of `/prompt` (server.py:232-240). */
  method DedupById(docs: seq<Row>) returns (unique: seq<Row>)
    ensures DistinctIds(unique) && SameIds(unique, docs)
    ensures AllWinners(unique, docs) && FirstAppearanceOrder(unique, docs)
  {
    var best: map<int, Row> := map[];
    var order: seq<int> := [];
    var i := 0;
    while i < |docs|
      invariant i <= |docs| && Dedup(best, order) == DedupPrefix(docs, i)
    {
      var doc := docs[i];
      if doc.id !in best || doc.score > best[doc.id].score {
        if doc.id !in best {
          order := order + [doc.id];
        }
        best := best[doc.id := doc];
      }
      i := i + 1;
    }
    DedupSpec(docs);
    unique := Kept(best, order);
  }

  lemma DedupInit(docs: seq<Row>)
    ensures DedupState(docs, 0, map[], [], map[], [])
  {
    assert SeenIds(docs, 0) == {};
  }

  /** The kept document of each id in `order`. */
  function Kept(best: map<int, Row>, order: seq<int>): (r: seq<Row>)
    requires forall k :: 0 <= k < |order| ==> order[k] in best
    ensures |r| == |order| && forall k :: 0 <= k < |order| ==> r[k] == best[order[k]]
  {
    if order == [] then [] else [best[order[0]]] + Kept(best, order[1..])
  }

  /** What the finished loop yields. */
  lemma DedupResult(docs: seq<Row>, best: map<int, Row>, order: seq<int>, pos: map<int, nat>, firsts: seq<nat>)
    requires DedupState(docs, |docs|, best, order, pos, firsts)
    ensures forall k :: 0 <= k < |order| ==> order[k] in best
    ensures DistinctIds(Kept(best, order)) && SameIds(Kept(best, order), docs)
    ensures AllWinners(Kept(best, order), docs) && FirstAppearanceOrder(Kept(best, order), docs)
  {
    assert forall id :: id in best <==> id in order;
    forall k | 0 <= k < |order|
      ensures order[k] in best
    {
      assert order[k] in order;
    }
    var unique := Kept(best, order);
    DedupDistinct(docs, best, order, pos, firsts, unique);
    DedupCovers(docs, best, order, pos, firsts, unique);
    DedupWinners(docs, best, order, pos, firsts, unique);
    DedupOrder(docs, best, order, pos, firsts, unique);
  }

  lemma DedupDistinct(docs: seq<Row>, best: map<int, Row>, order: seq<int>, pos: map<int, nat>,
                      firsts: seq<nat>, unique: seq<Row>)
    requires DedupState(docs, |docs|, best, order, pos, firsts)
    requires |unique| == |order|
    requires forall k :: 0 <= k < |order| ==> order[k] in best && unique[k] == best[order[k]]
    ensures DistinctIds(unique)
  {
    forall a, b | 0 <= a < b < |unique|
      ensures unique[a].id != unique[b].id
    {
      assert unique[a].id == order[a] && unique[b].id == order[b];
    }
  }

  lemma DedupCovers(docs: seq<Row>, best: map<int, Row>, order: seq<int>, pos: map<int, nat>,
                    firsts: seq<nat>, unique: seq<Row>)
    requires DedupState(docs, |docs|, best, order, pos, firsts)
    requires |unique| == |order|
    requires forall k :: 0 <= k < |order| ==> order[k] in best && unique[k] == best[order[k]]
    ensures SameIds(unique, docs)
  {
    var lhs, rhs := set u | u in unique :: u.id, set d | d in docs :: d.id;
    forall id | id in lhs
      ensures id in rhs
    {
      var k :| 0 <= k < |unique| && unique[k].id == id;
      assert order[k] in pos;
      var j := pos[order[k]];
      assert docs[j].id == id;
      assert docs[j] in docs;
    }
    forall id | id in rhs
      ensures id in lhs
    {
      var j :| 0 <= j < |docs| && docs[j].id == id;
      assert id in SeenIds(docs, |docs|);
      assert id in order;
      var k :| 0 <= k < |order| && order[k] == id;
      assert order[k] in pos;
      assert unique[k].id == id;
      assert unique[k] in unique;
    }
  }

  lemma DedupWinners(docs: seq<Row>, best: map<int, Row>, order: seq<int>, pos: map<int, nat>,
                     firsts: seq<nat>, unique: seq<Row>)
    requires DedupState(docs, |docs|, best, order, pos, firsts)
    requires |unique| == |order|
    requires forall k :: 0 <= k < |order| ==> order[k] in best && unique[k] == best[order[k]]
    ensures AllWinners(unique, docs)
  {
    forall u | u in unique
      ensures exists j: nat :: j < |docs| && WinsAt(docs, |docs|, j) && docs[j] == u
    {
      var k :| 0 <= k < |unique| && unique[k] == u;
      var j := pos[order[k]];
      assert j < |docs| && WinsAt(docs, |docs|, j) && docs[j] == u;
    }
  }

  lemma DedupOrder(docs: seq<Row>, best: map<int, Row>, order: seq<int>, pos: map<int, nat>,
                   firsts: seq<nat>, unique: seq<Row>)
    requires DedupState(docs, |docs|, best, order, pos, firsts)
    requires |unique| == |order|
    requires forall k :: 0 <= k < |order| ==> order[k] in best && unique[k] == best[order[k]]
    ensures FirstAppearanceOrder(unique, docs)
  {
    forall k | 0 <= k < |order|
      ensures unique[k].id == order[k]
    {
      assert order[k] in pos;
    }
    FirstsOrder(docs, order, firsts, unique);
  }

  /** Rows listed in the order of their ids' first positions appear in the
      order of first appearance. */
  lemma FirstsOrder(docs: seq<Row>, order: seq<int>, firsts: seq<nat>, unique: seq<Row>)
    requires DedupFirst(docs, |docs|, order, firsts) && DedupOrdered(firsts)
    requires |unique| == |order|
    requires forall k :: 0 <= k < |order| ==> unique[k].id == order[k]
    ensures FirstAppearanceOrder(unique, docs)
  {
    forall a, b, j | 0 <= a < b < |unique| && 0 <= j < |docs| && docs[j].id == unique[b].id
      ensures exists k :: 0 <= k < j && docs[k].id == unique[a].id
    {
      var k := firsts[a];
      assert firsts[a] < firsts[b] <= j;
      assert docs[k].id == unique[a].id;
    }
  }

}
