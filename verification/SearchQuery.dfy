/** The query that keeps the entities matching every search term
    (app/database/ctes/search_terms_filtered.py, app/search/mappings.py:115-148). */
module SearchQuery {
  import opened Options

  datatype Scope = Beatmaps | Beatmapsets | Queues | Requests | Scores

  datatype Category = Beatmap | Beatmapset | Queue | Request

  /** `SCOPE_CATEGORIES_MAPPING`; scores have no categories yet. It lists exactly the categories that
      have a plan, so that no search raises "unsupported category" and none that could be searched is
      left out. */
  function Categories(scope: Scope): (r: seq<Category>)
    ensures Planned(scope, r) && forall c :: PlanFor(scope, c).Some? ==> c in r
  {
    match scope
    case Beatmaps => [Beatmap, Beatmapset]
    case Beatmapsets => [Beatmap, Beatmapset]
    case Queues => [Beatmap, Beatmapset, Queue, Request]
    case Requests => [Beatmap, Beatmapset, Request]
    case Scores => []
  }

  /** `CATEGORY_MODEL_FIELDS_MAPPING`. */
  function FieldsOf(category: Category): seq<string> {
    match category
    case Beatmap => ["version"]
    case Beatmapset => ["title", "title_unicode", "artist", "artist_unicode", "creator", "source", "tags",
                        "description"]
    case Queue => ["name", "description"]
    case Request => ["comment"]
  }

  // ---------------------------------------------------------------- the database

  /** Text fields by name; a field may be null. */
  type Fields = string -> Option<string>

  datatype SetRow = SetRow(beatmapset: int, fields: Fields)
  datatype RequestRow = RequestRow(queue: int, beatmapset: int, fields: Fields)

  /** Snapshots of beatmaps and beatmapsets with their association, requests and queues; `fold` is
      how ILIKE folds case. */
  datatype Db = Db(beatmaps: map<int, Fields>, sets: map<int, SetRow>, links: set<(int, int)>,
                   requests: map<int, RequestRow>, queues: map<int, Fields>, fold: char -> char)

  predicate Exists(db: Db, category: Category, id: int) {
    match category
    case Beatmap => id in db.beatmaps
    case Beatmapset => id in db.sets
    case Queue => id in db.queues
    case Request => id in db.requests
  }

  function FieldAt(db: Db, category: Category, id: int, field: string): Option<string>
    requires Exists(db, category, id)
  {
    match category
    case Beatmap => db.beatmaps[id](field)
    case Beatmapset => db.sets[id].fields(field)
    case Queue => db.queues[id](field)
    case Request => db.requests[id].fields(field)
  }

  // ---------------------------------------------------------------- LIKE and ILIKE

  predicate Like(pattern: string, s: string)
    decreases |pattern| + |s|
  {
    if pattern == [] then s == []
    else if pattern[0] == '%' then Like(pattern[1..], s) || (s != [] && Like(pattern, s[1..]))
    else if pattern[0] == '_' then s != [] && Like(pattern[1..], s[1..])
    else if pattern[0] == '\\' && |pattern| > 1 then s != [] && s[0] == pattern[1] && Like(pattern[2..], s[1..])
    else s != [] && s[0] == pattern[0] && Like(pattern[1..], s[1..])
  }

  function Folded(s: string, fold: char -> char): (r: string)
    ensures |r| == |s|
  {
    seq(|s|, i requires 0 <= i < |s| => fold(s[i]))
  }

  function Pattern(term: string): string { "%" + term + "%" }

  /** Whether a field value meets the term; a null never does. */
  predicate Meets(db: Db, caseSensitive: bool, term: string, value: Option<string>) {
    && value.Some?
    && (if caseSensitive then Like(Pattern(term), value.value)
        else Like(Folded(Pattern(term), db.fold), Folded(value.value, db.fold)))
  }

  // ---------------------------------------------------------------- statements

  /** A partial result: the rows joined so far, at most one of each table. */
  datatype Env = Env(beatmap: Option<int>, set_: Option<int>, link: Option<(int, int)>, request: Option<int>,
                     queue: Option<int>)

  const NO_ROW := Env(None, None, None, None, None)

  /** The JOINs that occur, by their ON clause. */
  datatype Join = LinkOfBeatmap | SetOfLink | LinkOfSet | BeatmapOfLink | RequestOfQueue | SetOfRequest

  datatype Stmt = Stmt(root: Category, joins: seq<Join>, category: Category, field: string, term: string,
                       caseSensitive: bool)

  /** The rows of the root table. */
  function Start(db: Db, root: Category): set<Env> {
    match root
    case Beatmap => set id <- db.beatmaps :: NO_ROW.(beatmap := Some(id))
    case Beatmapset => set id <- db.sets :: NO_ROW.(set_ := Some(id))
    case Queue => set id <- db.queues :: NO_ROW.(queue := Some(id))
    case Request => set id <- db.requests :: NO_ROW.(request := Some(id))
  }

  function JoinOne(db: Db, envs: set<Env>, join: Join): set<Env> {
    match join
    case LinkOfBeatmap => set e <- envs, l <- db.links | e.beatmap == Some(l.0) :: e.(link := Some(l))
    case SetOfLink => set e <- envs, id <- db.sets | e.link.Some? && e.link.value.1 == id :: e.(set_ := Some(id))
    case LinkOfSet => set e <- envs, l <- db.links | e.set_ == Some(l.1) :: e.(link := Some(l))
    case BeatmapOfLink =>
      set e <- envs, id <- db.beatmaps | e.link.Some? && e.link.value.0 == id :: e.(beatmap := Some(id))
    case RequestOfQueue =>
      set e <- envs, id <- db.requests | e.queue == Some(db.requests[id].queue) :: e.(request := Some(id))
    case SetOfRequest =>
      set e <- envs, id <- db.sets | e.request.Some? && e.request.value in db.requests
        && db.sets[id].beatmapset == db.requests[e.request.value].beatmapset :: e.(set_ := Some(id))
  }

  function JoinAll(db: Db, envs: set<Env>, joins: seq<Join>): set<Env>
    decreases joins
  {
    if joins == [] then envs else JoinAll(db, JoinOne(db, envs, joins[0]), joins[1..])
  }

  function IdAt(e: Env, category: Category): Option<int> {
    match category
    case Beatmap => e.beatmap
    case Beatmapset => e.set_
    case Queue => e.queue
    case Request => e.request
  }

  predicate Selected(db: Db, stmt: Stmt, e: Env) {
    var row := IdAt(e, stmt.category);
    && row.Some? && Exists(db, stmt.category, row.value)
    && Meets(db, stmt.caseSensitive, stmt.term, FieldAt(db, stmt.category, row.value, stmt.field))
  }

  /** SELECT DISTINCT root.id ... WHERE target LIKE pattern. */
  predicate Returns(db: Db, stmt: Stmt, id: int) {
    exists e <- JoinAll(db, Start(db, stmt.root), stmt.joins) :: IdAt(e, stmt.root) == Some(id) && Selected(db, stmt, e)
  }

  // ---------------------------------------------------------------- get_filter_stmt

  datatype Plan = Plan(root: Category, joins: seq<Join>)

  /** The root table and join path of a scope and category; none means "unsupported". */
  function PlanFor(scope: Scope, category: Category): Option<Plan> {
    match (scope, category)
    case (Beatmaps, Beatmap) => Some(Plan(Beatmap, []))
    case (Beatmaps, Beatmapset) => Some(Plan(Beatmap, [LinkOfBeatmap, SetOfLink]))
    case (Beatmapsets, Beatmap) => Some(Plan(Beatmapset, [LinkOfSet, BeatmapOfLink]))
    case (Beatmapsets, Beatmapset) => Some(Plan(Beatmapset, []))
    case (Queues, Beatmap) => Some(Plan(Queue, [RequestOfQueue, SetOfRequest, LinkOfSet, BeatmapOfLink]))
    case (Queues, Beatmapset) => Some(Plan(Queue, [RequestOfQueue, SetOfRequest]))
    case (Queues, Queue) => Some(Plan(Queue, []))
    case (Queues, Request) => Some(Plan(Queue, [RequestOfQueue]))
    case (Requests, Beatmap) => Some(Plan(Request, [SetOfRequest, LinkOfSet, BeatmapOfLink]))
    case (Requests, Beatmapset) => Some(Plan(Request, [SetOfRequest]))
    case (Requests, Request) => Some(Plan(Request, []))
    case _ => None
  }

  function FilterStmt(scope: Scope, category: Category, field: string, term: string,
                      caseSensitive: bool): Option<Stmt> {
    match PlanFor(scope, category)
    case None => None
    case Some(plan) => Some(Stmt(plan.root, plan.joins, category, field, term, caseSensitive))
  }

  // ---------------------------------------------------------------- which rows belong to an entity

  /** A snapshot of the beatmapset that the request is for. */
  predicate SetForRequest(db: Db, request: int, set_: int) {
    request in db.requests && set_ in db.sets && db.sets[set_].beatmapset == db.requests[request].beatmapset
  }

  predicate BeatmapInSet(db: Db, beatmap: int, set_: int) {
    beatmap in db.beatmaps && set_ in db.sets && (beatmap, set_) in db.links
  }

  /** The row of the category belongs to the entity of the scope. */
  ghost predicate Belongs(db: Db, scope: Scope, root: int, category: Category, row: int) {
    match (scope, category)
    case (Beatmaps, Beatmap) => root == row && row in db.beatmaps
    case (Beatmaps, Beatmapset) => BeatmapInSet(db, root, row)
    case (Beatmapsets, Beatmap) => BeatmapInSet(db, row, root)
    case (Beatmapsets, Beatmapset) => root == row && row in db.sets
    case (Queues, Beatmap) =>
      root in db.queues && exists r, s :: InQueue(db, root, r) && SetForRequest(db, r, s) && BeatmapInSet(db, row, s)
    case (Queues, Beatmapset) => root in db.queues && exists r :: InQueue(db, root, r) && SetForRequest(db, r, row)
    case (Queues, Queue) => root == row && row in db.queues
    case (Queues, Request) => root in db.queues && InQueue(db, root, row)
    case (Requests, Beatmap) => exists s :: SetForRequest(db, root, s) && BeatmapInSet(db, row, s)
    case (Requests, Beatmapset) => SetForRequest(db, root, row)
    case (Requests, Request) => root == row && row in db.requests
    case _ => false
  }

  predicate InQueue(db: Db, queue: int, request: int) {
    request in db.requests && db.requests[request].queue == queue
  }

  // ---------------------------------------------------------------- a statement selects exactly those

  /** A join path pairs the root with a row of the category. */
  ghost predicate Pairs(db: Db, plan: Plan, category: Category, root: int, row: int) {
    exists e <- JoinAll(db, Start(db, plan.root), plan.joins) ::
      IdAt(e, plan.root) == Some(root) && IdAt(e, category) == Some(row)
  }

  lemma OneJoin(db: Db, envs: set<Env>, a: Join)
    ensures JoinAll(db, envs, [a]) == JoinOne(db, envs, a)
  {
    assert [a][1..] == [];
  }

  lemma TwoJoins(db: Db, envs: set<Env>, a: Join, b: Join)
    ensures JoinAll(db, envs, [a, b]) == JoinOne(db, JoinOne(db, envs, a), b)
  {
    assert [a, b][1..] == [b];
    OneJoin(db, JoinOne(db, envs, a), b);
  }

  lemma ThreeJoins(db: Db, envs: set<Env>, a: Join, b: Join, c: Join)
    ensures JoinAll(db, envs, [a, b, c]) == JoinOne(db, JoinOne(db, JoinOne(db, envs, a), b), c)
  {
    assert [a, b, c][1..] == [b, c];
    TwoJoins(db, JoinOne(db, envs, a), b, c);
  }

  lemma FourJoins(db: Db, envs: set<Env>, a: Join, b: Join, c: Join, d: Join)
    ensures JoinAll(db, envs, [a, b, c, d]) == JoinOne(db, JoinOne(db, JoinOne(db, JoinOne(db, envs, a), b), c), d)
  {
    assert [a, b, c, d][1..] == [b, c, d];
    ThreeJoins(db, JoinOne(db, envs, a), b, c, d);
  }

  /** From sets to their beatmaps through the association. */
  lemma BeatmapsOfSets(db: Db, envs: set<Env>, e: Env)
    requires forall x <- envs :: x.set_.Some? && x.set_.value in db.sets && x.link == None && x.beatmap == None
    ensures e in JoinOne(db, JoinOne(db, envs, LinkOfSet), BeatmapOfLink) <==>
            && e.set_.Some? && e.beatmap.Some? && BeatmapInSet(db, e.beatmap.value, e.set_.value)
            && e.link == Some((e.beatmap.value, e.set_.value)) && e.(link := None, beatmap := None) in envs
  {
    var linked := JoinOne(db, envs, LinkOfSet);
    if e in JoinOne(db, linked, BeatmapOfLink) {
      var x, b :| x in linked && b in db.beatmaps && x.link.Some? && x.link.value.0 == b && e == x.(beatmap := Some(b));
      var y, l :| y in envs && l in db.links && y.set_ == Some(l.1) && x == y.(link := Some(l));
      assert l == (l.0, l.1) && e.(link := None, beatmap := None) == y;
    }
    if e.set_.Some? && e.beatmap.Some? && BeatmapInSet(db, e.beatmap.value, e.set_.value)
       && e.link == Some((e.beatmap.value, e.set_.value)) && e.(link := None, beatmap := None) in envs {
      var y := e.(link := None, beatmap := None);
      var x := y.(link := e.link);
      assert x in linked;
      assert e == x.(beatmap := e.beatmap);
    }
  }

  lemma SetsOfRequests(db: Db, envs: set<Env>, e: Env)
    requires forall x <- envs :: x.set_ == None
    ensures e in JoinOne(db, envs, SetOfRequest) <==>
            && e.set_.Some? && e.request.Some? && SetForRequest(db, e.request.value, e.set_.value)
            && e.(set_ := None) in envs
  {
    if e in JoinOne(db, envs, SetOfRequest) {
      var x, s :| x in envs && s in db.sets && x.request.Some? && x.request.value in db.requests
                  && db.sets[s].beatmapset == db.requests[x.request.value].beatmapset && e == x.(set_ := Some(s));
      assert e.(set_ := None) == x;
    }
    if e.set_.Some? && e.request.Some? && SetForRequest(db, e.request.value, e.set_.value) && e.(set_ := None) in envs {
      assert e == e.(set_ := None).(set_ := e.set_);
    }
  }

  lemma RequestsOfQueues(db: Db, e: Env)
    ensures e in JoinOne(db, Start(db, Queue), RequestOfQueue) <==>
            && e.queue.Some? && e.request.Some? && e.queue.value in db.queues
            && InQueue(db, e.queue.value, e.request.value)
            && e == NO_ROW.(queue := e.queue, request := e.request)
  {
    if e.queue.Some? && e.request.Some? && e.queue.value in db.queues && InQueue(db, e.queue.value, e.request.value)
       && e == NO_ROW.(queue := e.queue, request := e.request) {
      var x := NO_ROW.(queue := e.queue);
      assert x in Start(db, Queue);
      assert e == x.(request := e.request);
    }
  }

  lemma SetsOfBeatmaps(db: Db, e: Env)
    ensures e in JoinOne(db, JoinOne(db, Start(db, Beatmap), LinkOfBeatmap), SetOfLink) <==>
            && e.set_.Some? && e.beatmap.Some? && BeatmapInSet(db, e.beatmap.value, e.set_.value)
            && e == NO_ROW.(beatmap := e.beatmap, set_ := e.set_, link := Some((e.beatmap.value, e.set_.value)))
  {
    var linked := JoinOne(db, Start(db, Beatmap), LinkOfBeatmap);
    if e in JoinOne(db, linked, SetOfLink) {
      var x, s :| x in linked && s in db.sets && x.link.Some? && x.link.value.1 == s && e == x.(set_ := Some(s));
      var y, l :| y in Start(db, Beatmap) && l in db.links && y.beatmap == Some(l.0) && x == y.(link := Some(l));
      assert l == (l.0, l.1);
    }
    if e.set_.Some? && e.beatmap.Some? && BeatmapInSet(db, e.beatmap.value, e.set_.value)
       && e == NO_ROW.(beatmap := e.beatmap, set_ := e.set_, link := Some((e.beatmap.value, e.set_.value))) {
      var y := NO_ROW.(beatmap := e.beatmap);
      assert y in Start(db, Beatmap);
      var x := y.(link := e.link);
      assert x in linked;
      assert e == x.(set_ := e.set_);
    }
  }

  lemma BeatmapScope(db: Db, category: Category, root: int, row: int)
    requires PlanFor(Beatmaps, category).Some?
    ensures Pairs(db, PlanFor(Beatmaps, category).value, category, root, row)
            <==> Belongs(db, Beatmaps, root, category, row)
  {
    if category == Beatmap {
      assert JoinAll(db, Start(db, Beatmap), []) == Start(db, Beatmap);
      assert root in db.beatmaps ==> NO_ROW.(beatmap := Some(root)) in Start(db, Beatmap);
    } else {
      TwoJoins(db, Start(db, Beatmap), LinkOfBeatmap, SetOfLink);
      var e := NO_ROW.(beatmap := Some(root), set_ := Some(row), link := Some((root, row)));
      forall x: Env { SetsOfBeatmaps(db, x); }
      assert Belongs(db, Beatmaps, root, category, row) ==>
          e in JoinAll(db, Start(db, Beatmap), [LinkOfBeatmap, SetOfLink]);
    }
  }

  lemma BeatmapsetScope(db: Db, category: Category, root: int, row: int)
    requires PlanFor(Beatmapsets, category).Some?
    ensures Pairs(db, PlanFor(Beatmapsets, category).value, category, root, row)
            <==> Belongs(db, Beatmapsets, root, category, row)
  {
    var start := Start(db, Beatmapset);
    assert JoinAll(db, start, []) == start;
    assert root in db.sets ==> NO_ROW.(set_ := Some(root)) in start;
    if category == Beatmap {
      TwoJoins(db, start, LinkOfSet, BeatmapOfLink);
      forall x: Env { BeatmapsOfSets(db, start, x); }
      var e := NO_ROW.(set_ := Some(root), beatmap := Some(row), link := Some((row, root)));
      assert e.(link := None, beatmap := None) == NO_ROW.(set_ := Some(root));
      assert Belongs(db, Beatmapsets, root, category, row) ==> e in JoinAll(db, start, [LinkOfSet, BeatmapOfLink]);
    }
  }

  /** The rows that a request leads to, from any environments that hold requests only. */
  lemma FromRequests(db: Db, envs: set<Env>, e: Env)
    requires forall x <- envs :: x.set_ == None && x.link == None && x.beatmap == None
    ensures e in JoinOne(db, JoinOne(db, JoinOne(db, envs, SetOfRequest), LinkOfSet), BeatmapOfLink) <==>
            && e.request.Some? && e.set_.Some? && e.beatmap.Some? && SetForRequest(db, e.request.value, e.set_.value)
            && BeatmapInSet(db, e.beatmap.value, e.set_.value) && e.link == Some((e.beatmap.value, e.set_.value))
            && e.(set_ := None, link := None, beatmap := None) in envs
  {
    var sets := JoinOne(db, envs, SetOfRequest);
    forall x: Env { SetsOfRequests(db, envs, x); }
    forall x | x in sets ensures x.set_.Some? && x.set_.value in db.sets && x.link == None && x.beatmap == None {
      assert x.(set_ := None) in envs;
    }
    BeatmapsOfSets(db, sets, e);
    assert e.(link := None, beatmap := None).(set_ := None) == e.(set_ := None, link := None, beatmap := None);
  }

  lemma RequestScope(db: Db, category: Category, root: int, row: int)
    requires PlanFor(Requests, category).Some?
    ensures Pairs(db, PlanFor(Requests, category).value, category, root, row)
            <==> Belongs(db, Requests, root, category, row)
  {
    var start := Start(db, Request);
    var at := NO_ROW.(request := Some(root));
    assert JoinAll(db, start, []) == start;
    assert root in db.requests ==> at in start;
    if category == Beatmapset {
      OneJoin(db, start, SetOfRequest);
      forall x: Env { SetsOfRequests(db, start, x); }
      assert at.(set_ := Some(row)).(set_ := None) == at;
      assert Belongs(db, Requests, root, category, row) ==>
          at.(set_ := Some(row)) in JoinAll(db, start, [SetOfRequest]);
    } else if category == Beatmap {
      ThreeJoins(db, start, SetOfRequest, LinkOfSet, BeatmapOfLink);
      forall x: Env { FromRequests(db, start, x); }
      if Belongs(db, Requests, root, category, row) {
        var s :| SetForRequest(db, root, s) && BeatmapInSet(db, row, s);
        var e := at.(set_ := Some(s), beatmap := Some(row), link := Some((row, s)));
        assert e.(set_ := None, link := None, beatmap := None) == at;
        assert e in JoinAll(db, start, [SetOfRequest, LinkOfSet, BeatmapOfLink]);
      }
    }
  }

  lemma QueueScope(db: Db, category: Category, root: int, row: int)
    requires PlanFor(Queues, category).Some?
    ensures Pairs(db, PlanFor(Queues, category).value, category, root, row)
            <==> Belongs(db, Queues, root, category, row)
  {
    var start := Start(db, Queue);
    var requests := JoinOne(db, start, RequestOfQueue);
    forall x: Env { RequestsOfQueues(db, x); }
    if category == Queue {
      assert JoinAll(db, start, []) == start;
      assert root in db.queues ==> NO_ROW.(queue := Some(root)) in start;
    } else if category == Request {
      OneJoin(db, start, RequestOfQueue);
      assert Belongs(db, Queues, root, category, row) ==>
          NO_ROW.(queue := Some(root), request := Some(row)) in requests;
    } else if category == Beatmapset {
      TwoJoins(db, start, RequestOfQueue, SetOfRequest);
      forall x: Env { SetsOfRequests(db, requests, x); }
      if Belongs(db, Queues, root, category, row) {
        var r :| InQueue(db, root, r) && SetForRequest(db, r, row);
        var at := NO_ROW.(queue := Some(root), request := Some(r));
        assert at in requests && at.(set_ := Some(row)).(set_ := None) == at;
        assert at.(set_ := Some(row)) in JoinAll(db, start, [RequestOfQueue, SetOfRequest]);
      }
    } else {
      QueueBeatmaps(db, root, row);
    }
  }

  lemma QueueBeatmaps(db: Db, root: int, row: int)
    ensures Pairs(db, PlanFor(Queues, Beatmap).value, Beatmap, root, row) <==> Belongs(db, Queues, root, Beatmap, row)
  {
    var start := Start(db, Queue);
    var requests := JoinOne(db, start, RequestOfQueue);
    forall x: Env { RequestsOfQueues(db, x); }
    FourJoins(db, start, RequestOfQueue, SetOfRequest, LinkOfSet, BeatmapOfLink);
    forall x: Env { FromRequests(db, requests, x); }
    if Belongs(db, Queues, root, Beatmap, row) {
      var r, s :| InQueue(db, root, r) && SetForRequest(db, r, s) && BeatmapInSet(db, row, s);
      var at := NO_ROW.(queue := Some(root), request := Some(r));
      var e := at.(set_ := Some(s), beatmap := Some(row), link := Some((row, s)));
      assert at in requests && e.(set_ := None, link := None, beatmap := None) == at;
      assert e in JoinAll(db, start, [RequestOfQueue, SetOfRequest, LinkOfSet, BeatmapOfLink]);
    }
  }

  /** A joined row belongs to its entity, for every scope and category that has a plan. */
  lemma PlanPairsExactly(db: Db, scope: Scope, category: Category, root: int, row: int)
    requires PlanFor(scope, category).Some?
    ensures Pairs(db, PlanFor(scope, category).value, category, root, row) <==> Belongs(db, scope, root, category, row)
  {
    match scope
    case Beatmaps => BeatmapScope(db, category, root, row);
    case Beatmapsets => BeatmapsetScope(db, category, root, row);
    case Queues => QueueScope(db, category, root, row);
    case Requests => RequestScope(db, category, root, row);
  }

  /** Some row of the category that belongs to the entity meets the term in this field. */
  ghost predicate FieldMeets(db: Db, scope: Scope, root: int, category: Category, field: string, term: string,
                             caseSensitive: bool) {
    exists row :: Belongs(db, scope, root, category, row) && Exists(db, category, row)
                  && Meets(db, caseSensitive, term, FieldAt(db, category, row, field))
  }

  lemma StmtMeans(db: Db, scope: Scope, category: Category, field: string, term: string, caseSensitive: bool, root: int)
    requires FilterStmt(scope, category, field, term, caseSensitive).Some?
    ensures Returns(db, FilterStmt(scope, category, field, term, caseSensitive).value, root)
       <==> FieldMeets(db, scope, root, category, field, term, caseSensitive)
  {
    var plan, stmt := PlanFor(scope, category).value, FilterStmt(scope, category, field, term, caseSensitive).value;
    if Returns(db, stmt, root) {
      var row := ReturnedRow(db, stmt, root);
      PlanPairsExactly(db, scope, category, root, row);
    }
    if FieldMeets(db, scope, root, category, field, term, caseSensitive) {
      var row :| Belongs(db, scope, root, category, row) && Exists(db, category, row)
                 && Meets(db, caseSensitive, term, FieldAt(db, category, row, field));
      PlanPairsExactly(db, scope, category, root, row);
      PairedIsReturned(db, stmt, root, row);
    }
  }

  /** The row that a returned root was joined with. */
  lemma ReturnedRow(db: Db, stmt: Stmt, root: int) returns (row: int)
    requires Returns(db, stmt, root)
    ensures Pairs(db, Plan(stmt.root, stmt.joins), stmt.category, root, row) && Exists(db, stmt.category, row)
    ensures Meets(db, stmt.caseSensitive, stmt.term, FieldAt(db, stmt.category, row, stmt.field))
  {
    var e :| e in JoinAll(db, Start(db, stmt.root), stmt.joins) && IdAt(e, stmt.root) == Some(root)
        && Selected(db, stmt, e);
    row := IdAt(e, stmt.category).value;
  }

  lemma PairedIsReturned(db: Db, stmt: Stmt, root: int, row: int)
    requires Pairs(db, Plan(stmt.root, stmt.joins), stmt.category, root, row) && Exists(db, stmt.category, row)
    requires Meets(db, stmt.caseSensitive, stmt.term, FieldAt(db, stmt.category, row, stmt.field))
    ensures Returns(db, stmt, root)
  {
  }

  // ---------------------------------------------------------------- the factory

  /** `field_weights`: the fields that have a weight. */
  type Weights = set<(Category, string)>

  datatype Search = Search(scope: Scope, terms: seq<string>, weights: Weights, caseSensitive: bool)

  datatype Query = Failed | Query(first: seq<Stmt>, others: seq<seq<Stmt>>)

  function CategoryStmts(s: Search, term: string, category: Category, fields: seq<string>): (r: seq<Stmt>)
    requires PlanFor(s.scope, category).Some?
  {
    if fields == [] then []
    else
      CategoryStmts(s, term, category, fields[..|fields| - 1])
      + var field := fields[|fields| - 1];
        if (category, field) in s.weights
        then [FilterStmt(s.scope, category, field, term, s.caseSensitive).value] else []
  }

  predicate Planned(scope: Scope, categories: seq<Category>) { forall c <- categories :: PlanFor(scope, c).Some? }

  function TermStmts(s: Search, term: string, categories: seq<Category>): (r: seq<Stmt>)
    requires Planned(s.scope, categories)
  {
    if categories == [] then []
    else
      var last := categories[|categories| - 1];
      TermStmts(s, term, categories[..|categories| - 1]) + CategoryStmts(s, term, last, FieldsOf(last))
  }

  /** UNION ALL of a term's statements. */
  predicate ReturnsAny(db: Db, stmts: seq<Stmt>, id: int) { exists st <- stmts :: Returns(db, st, id) }

  /** The final SELECT: ids of the first term's union for which every other term's union has a match. */
  predicate Finds(db: Db, q: Query, id: int) {
    q.Query? && ReturnsAny(db, q.first, id) && forall other <- q.others :: ReturnsAny(db, other, id)
  }

  /** The union of the i-th term. */
  function Union(s: Search, i: nat): seq<Stmt>
    requires i < |s.terms|
  {
    TermStmts(s, s.terms[i], Categories(s.scope))
  }

  /** The unions of the terms after the first, up to the n-th. */
  function Others(s: Search, n: nat): (r: seq<seq<Stmt>>)
    requires n < |s.terms|
  {
    if n == 0 then [] else Others(s, n - 1) + [Union(s, n)]
  }

  /** The statements of all terms, or a failure when there is no term or no weighted field. */
  function Assembled(s: Search): Query {
    if s.terms == [] || Union(s, 0) == [] then Failed else Query(Union(s, 0), Others(s, |s.terms| - 1))
  }

  /** The dictionary holds the union of each of these terms that has statements, and nothing else. */
  ghost predicate Holds(s: Search, unions: map<string, seq<Stmt>>, terms: seq<string>) {
    && (forall t <- terms :: TermStmts(s, t, Categories(s.scope)) != [] ==> t in unions)
    && (forall t <- unions :: unions[t] == TermStmts(s, t, Categories(s.scope)) && unions[t] != [])
  }

  lemma HoldsNext(s: Search, unions: map<string, seq<Stmt>>, terms: seq<string>, term: string)
    requires Holds(s, unions, terms)
    ensures var stmts := TermStmts(s, term, Categories(s.scope));
            Holds(s, if stmts == [] then unions else unions[term := stmts], terms + [term])
  {
  }

  /** When the first term has a union, all have. */
  lemma AllHeld(s: Search, unions: map<string, seq<Stmt>>)
    requires s.terms != [] && Holds(s, unions, s.terms) && s.terms[0] in unions
    ensures forall t <- s.terms :: t in unions
  {
    forall t | t in s.terms ensures t in unions { SameShape(s, s.terms[0], t, Categories(s.scope)); }
  }

  /** The nested loops of the factory. */
  method BuildQuery(s: Search) returns (q: Query)
    ensures q == Assembled(s)
  {
    if s.terms == [] {
      return Failed;
    }
    var unions := TermLoop(s);
    assert s.terms[0] in s.terms;
    if s.terms[0] !in unions {
      return Failed;
    }
    AllHeld(s, unions);
    var others := OtherUnions(s, unions);
    q := Query(unions[s.terms[0]], others);
  }

  method TermLoop(s: Search) returns (unions: map<string, seq<Stmt>>)
    ensures Holds(s, unions, s.terms)
  {
    unions := map[];
    for i := 0 to |s.terms|
      invariant Holds(s, unions, s.terms[..i])
    {
      ghost var before := unions;
      unions := AddTerm(s, s.terms[i], unions);
      assert s.terms[..i + 1] == s.terms[..i] + [s.terms[i]];
      HoldsNext(s, before, s.terms[..i], s.terms[i]);
    }
    assert s.terms[..|s.terms|] == s.terms;
  }

  method OtherUnions(s: Search, unions: map<string, seq<Stmt>>) returns (others: seq<seq<Stmt>>)
    requires s.terms != [] && Holds(s, unions, s.terms) && forall t <- s.terms :: t in unions
    ensures others == Others(s, |s.terms| - 1)
  {
    others := [];
    for i := 1 to |s.terms|
      invariant others == Others(s, i - 1)
    {
      assert s.terms[i] in s.terms;
      others := others + [unions[s.terms[i]]];
    }
  }

  /** The loop over the categories: the union is put into the dictionary again after each of them. */
  method AddTerm(s: Search, term: string, before: map<string, seq<Stmt>>) returns (unions: map<string, seq<Stmt>>)
    ensures var stmts := TermStmts(s, term, Categories(s.scope));
            unions == if stmts == [] then before else before[term := stmts]
  {
    var categories := Categories(s.scope);
    var queries: seq<Stmt> := [];
    unions := before;
    for c := 0 to |categories|
      invariant queries == TermStmts(s, term, categories[..c])
      invariant unions == if queries == [] then before else before[term := queries]
    {
      assert categories[..c + 1][..c] == categories[..c];
      var more := CategoryLoop(s, term, categories[c]);
      queries := queries + more;
      if queries != [] {
        unions := unions[term := queries];
      }
    }
    assert categories[..|categories|] == categories;
  }

  method CategoryLoop(s: Search, term: string, category: Category) returns (queries: seq<Stmt>)
    requires PlanFor(s.scope, category).Some?
    ensures queries == CategoryStmts(s, term, category, FieldsOf(category))
  {
    var fields := FieldsOf(category);
    queries := [];
    for f := 0 to |fields|
      invariant queries == CategoryStmts(s, term, category, fields[..f])
    {
      assert fields[..f + 1][..f] == fields[..f];
      if (category, fields[f]) in s.weights {
        queries := queries + [FilterStmt(s.scope, category, fields[f], term, s.caseSensitive).value];
      }
    }
    assert fields[..|fields|] == fields;
  }

  /** Whether a term has statements at all depends on the weights only. */
  lemma {:induction false} SameShape(s: Search, t: string, u: string, categories: seq<Category>)
    requires Planned(s.scope, categories)
    ensures |TermStmts(s, t, categories)| == |TermStmts(s, u, categories)|
  {
    if categories != [] {
      SameShape(s, t, u, categories[..|categories| - 1]);
      var last := categories[|categories| - 1];
      SameFields(s, t, u, last, FieldsOf(last));
    }
  }

  lemma {:induction false} SameFields(s: Search, t: string, u: string, category: Category, fields: seq<string>)
    requires PlanFor(s.scope, category).Some?
    ensures |CategoryStmts(s, t, category, fields)| == |CategoryStmts(s, u, category, fields)|
  {
    if fields != [] { SameFields(s, t, u, category, fields[..|fields| - 1]); }
  }

  // ---------------------------------------------------------------- the query means what it should

  /** Some weighted field of some category of the scope meets the term. */
  ghost predicate TermMeets(db: Db, s: Search, categories: seq<Category>, term: string, root: int) {
    exists c, f :: c in categories && f in FieldsOf(c) && (c, f) in s.weights
                   && FieldMeets(db, s.scope, root, c, f, term, s.caseSensitive)
  }

  /** Some weighted field of this category meets the term. */
  ghost predicate CategoryMeets(db: Db, s: Search, category: Category, term: string, root: int) {
    exists f :: f in FieldsOf(category) && (category, f) in s.weights
                && FieldMeets(db, s.scope, root, category, f, term, s.caseSensitive)
  }

  lemma {:induction false} CategoryMeans(db: Db, s: Search, term: string, category: Category, fields: seq<string>,
                                         root: int)
    requires PlanFor(s.scope, category).Some?
    ensures ReturnsAny(db, CategoryStmts(s, term, category, fields), root) <==>
            exists f :: f in fields && (category, f) in s.weights
                && FieldMeets(db, s.scope, root, category, f, term, s.caseSensitive)
  {
    if fields != [] {
      var before, field := fields[..|fields| - 1], fields[|fields| - 1];
      CategoryMeans(db, s, term, category, before, root);
      StmtMeans(db, s.scope, category, field, term, s.caseSensitive, root);
      assert fields == before + [field];
      UnionSplits(db, CategoryStmts(s, term, category, before),
                  if (category, field) in s.weights
                  then [FilterStmt(s.scope, category, field, term, s.caseSensitive).value] else [], root);
    }
  }

  lemma UnionSplits(db: Db, a: seq<Stmt>, b: seq<Stmt>, root: int)
    ensures ReturnsAny(db, a + b, root) <==> ReturnsAny(db, a, root) || ReturnsAny(db, b, root)
    ensures |b| == 1 ==> (ReturnsAny(db, b, root) <==> Returns(db, b[0], root))
  {
    if ReturnsAny(db, a + b, root) {
      var st :| st in a + b && Returns(db, st, root);
      assert st in a || st in b;
    }
    assert forall st <- a :: st in a + b;
    assert forall st <- b :: st in a + b;
    if |b| == 1 { assert b == [b[0]] && b[0] in b; }
  }

  /** The last category of the list, or one before it. */
  lemma TermMeetsNext(db: Db, s: Search, before: seq<Category>, last: Category, term: string, root: int)
    ensures TermMeets(db, s, before + [last], term, root) <==>
            TermMeets(db, s, before, term, root) || CategoryMeets(db, s, last, term, root)
  {
    if c, f :| c in before + [last] && f in FieldsOf(c) && (c, f) in s.weights
               && FieldMeets(db, s.scope, root, c, f, term, s.caseSensitive) {
      assert c in before || c == last;
    }
    if c, f :| c in before && f in FieldsOf(c) && (c, f) in s.weights
               && FieldMeets(db, s.scope, root, c, f, term, s.caseSensitive) {
      assert c in before + [last];
    }
    if CategoryMeets(db, s, last, term, root) { assert last in before + [last]; }
  }

  lemma {:induction false} TermMeans(db: Db, s: Search, term: string, categories: seq<Category>, root: int)
    requires Planned(s.scope, categories)
    ensures ReturnsAny(db, TermStmts(s, term, categories), root) <==> TermMeets(db, s, categories, term, root)
  {
    if categories != [] {
      var before, last := categories[..|categories| - 1], categories[|categories| - 1];
      assert categories == before + [last];
      TermMeans(db, s, term, before, root);
      CategoryMeans(db, s, term, last, FieldsOf(last), root);
      UnionSplits(db, TermStmts(s, term, before), CategoryStmts(s, term, last, FieldsOf(last)), root);
      TermMeetsNext(db, s, before, last, term, root);
    }
  }

  lemma {:induction false} SomeWeightSomeStmt(s: Search, term: string, categories: seq<Category>, c: Category,
                                              f: string)
    requires Planned(s.scope, categories) && c in categories && f in FieldsOf(c) && (c, f) in s.weights
    ensures TermStmts(s, term, categories) != []
  {
    var before, last := categories[..|categories| - 1], categories[|categories| - 1];
    if last == c {
      SomeFieldSomeStmt(s, term, c, FieldsOf(c), f);
    } else {
      SomeWeightSomeStmt(s, term, before, c, f);
    }
  }

  lemma {:induction false} SomeFieldSomeStmt(s: Search, term: string, c: Category, fields: seq<string>, f: string)
    requires PlanFor(s.scope, c).Some? && f in fields && (c, f) in s.weights
    ensures CategoryStmts(s, term, c, fields) != []
  {
    if fields[|fields| - 1] != f { SomeFieldSomeStmt(s, term, c, fields[..|fields| - 1], f); }
  }

  lemma {:induction false} OthersAt(s: Search, n: nat, j: nat)
    requires j < n < |s.terms|
    ensures |Others(s, n)| == n && Others(s, n)[j] == Union(s, j + 1)
  {
    OthersLength(s, n - 1);
    if j < n - 1 { OthersAt(s, n - 1, j); }
  }

  lemma {:induction false} OthersLength(s: Search, n: nat)
    requires n < |s.terms|
    ensures |Others(s, n)| == n
  {
    if n > 0 { OthersLength(s, n - 1); }
  }

  lemma FoundByEvery(db: Db, s: Search, root: int, i: nat)
    requires i < |s.terms| && Finds(db, Assembled(s), root)
    ensures ReturnsAny(db, Union(s, i), root)
  {
    if i > 0 {
      OthersAt(s, |s.terms| - 1, i - 1);
      assert Union(s, i) in Assembled(s).others;
    }
  }

  lemma EveryIsEnough(db: Db, s: Search, root: int)
    requires s.terms != [] && Union(s, 0) != []
    requires forall i :: 0 <= i < |s.terms| ==> ReturnsAny(db, Union(s, i), root)
    ensures Finds(db, Assembled(s), root)
  {
    OthersReturn(db, s, root, |s.terms| - 1);
  }

  lemma {:induction false} OthersReturn(db: Db, s: Search, root: int, n: nat)
    requires n < |s.terms| && forall i :: 0 <= i <= n ==> ReturnsAny(db, Union(s, i), root)
    ensures forall other <- Others(s, n) :: ReturnsAny(db, other, root)
  {
    if n > 0 { OthersReturn(db, s, root, n - 1); }
  }

  lemma FindsEvery(db: Db, s: Search, root: int)
    requires s.terms != [] && Union(s, 0) != []
    ensures Finds(db, Assembled(s), root) <==> forall i :: 0 <= i < |s.terms| ==> ReturnsAny(db, Union(s, i), root)
  {
    if Finds(db, Assembled(s), root) {
      forall i | 0 <= i < |s.terms| ensures ReturnsAny(db, Union(s, i), root) { FoundByEvery(db, s, root, i); }
    } else if forall i :: 0 <= i < |s.terms| ==> ReturnsAny(db, Union(s, i), root) {
      EveryIsEnough(db, s, root);
    }
  }

  /** For distinct terms and at least one weighted field, the query returns exactly the entities of
      the scope for which every term meets some weighted field along the scope's join path. */
  lemma QueryMeans(db: Db, s: Search, root: int, c: Category, f: string)
    requires s.terms != [] && (forall i, j :: 0 <= i < j < |s.terms| ==> s.terms[i] != s.terms[j])
    requires c in Categories(s.scope) && f in FieldsOf(c) && (c, f) in s.weights
    ensures Finds(db, Assembled(s), root) <==> forall t <- s.terms :: TermMeets(db, s, Categories(s.scope), t, root)
  {
    SomeWeightSomeStmt(s, s.terms[0], Categories(s.scope), c, f);
    forall i | 0 <= i < |s.terms|
      ensures ReturnsAny(db, Union(s, i), root) <==> TermMeets(db, s, Categories(s.scope), s.terms[i], root)
    {
      TermMeans(db, s, s.terms[i], Categories(s.scope), root);
    }
    FindsEvery(db, s, root);
  }

  /** Some row that belongs to the entity meets the term in a field that has a weight. */
  ghost predicate MeetsSomewhere(db: Db, s: Search, term: string, root: int) {
    exists c, f, row ::
      && f in FieldsOf(c) && (c, f) in s.weights && Belongs(db, s.scope, root, c, row) && Exists(db, c, row)
      && Meets(db, s.caseSensitive, term, FieldAt(db, c, row, f))
  }

  /** Some field of some category of the scope has a weight. */
  ghost predicate SomeWeight(s: Search) {
    exists c, f :: PlanFor(s.scope, c).Some? && f in FieldsOf(c) && (c, f) in s.weights
  }

  lemma MeetsInScope(db: Db, s: Search, term: string, root: int)
    ensures MeetsSomewhere(db, s, term, root) <==> TermMeets(db, s, Categories(s.scope), term, root)
    ensures MeetsSomewhere(db, s, term, root) ==> SomeWeight(s)
  {
    if c, f, row :| f in FieldsOf(c) && (c, f) in s.weights && Belongs(db, s.scope, root, c, row) && Exists(db, c, row)
                    && Meets(db, s.caseSensitive, term, FieldAt(db, c, row, f)) {
      assert PlanFor(s.scope, c).Some? && c in Categories(s.scope);
      assert FieldMeets(db, s.scope, root, c, f, term, s.caseSensitive);
    }
  }

  lemma {:induction false} NoWeightNoStmts(s: Search, term: string, categories: seq<Category>)
    requires Planned(s.scope, categories) && !SomeWeight(s)
    ensures TermStmts(s, term, categories) == []
  {
    if categories != [] {
      NoWeightNoStmts(s, term, categories[..|categories| - 1]);
      var last := categories[|categories| - 1];
      assert last in categories;
      NoWeightNoField(s, term, last, FieldsOf(last));
    }
  }

  lemma {:induction false} NoWeightNoField(s: Search, term: string, c: Category, fields: seq<string>)
    requires PlanFor(s.scope, c).Some? && !SomeWeight(s) && forall f <- fields :: f in FieldsOf(c)
    ensures CategoryStmts(s, term, c, fields) == []
  {
    if fields != [] {
      assert fields[|fields| - 1] in fields;
      NoWeightNoField(s, term, c, fields[..|fields| - 1]);
    }
  }

  /** The factory fails exactly when there is no term, or no field of the scope has a weight. */
  lemma FailsExactly(s: Search)
    ensures Assembled(s) == Failed <==> s.terms == [] || !SomeWeight(s)
  {
    if s.terms != [] {
      if c, f :| PlanFor(s.scope, c).Some? && f in FieldsOf(c) && (c, f) in s.weights {
        SomeWeightSomeStmt(s, s.terms[0], Categories(s.scope), c, f);
      } else {
        NoWeightNoStmts(s, s.terms[0], Categories(s.scope));
      }
    }
  }

  /** For distinct terms, the query returns exactly the entities of the scope for which every term is
      met somewhere, whatever categories the scope lists and whatever has a weight. */
  lemma SearchFinds(db: Db, s: Search, root: int)
    requires s.terms != [] && (forall i, j :: 0 <= i < j < |s.terms| ==> s.terms[i] != s.terms[j])
    ensures Finds(db, Assembled(s), root) <==> forall t <- s.terms :: MeetsSomewhere(db, s, t, root)
  {
    forall t | t in s.terms
      ensures MeetsSomewhere(db, s, t, root) <==> TermMeets(db, s, Categories(s.scope), t, root)
    {
      MeetsInScope(db, s, t, root);
    }
    FailsExactly(s);
    if c, f :| PlanFor(s.scope, c).Some? && f in FieldsOf(c) && (c, f) in s.weights {
      QueryMeans(db, s, root, c, f);
    } else {
      MeetsInScope(db, s, s.terms[0], root);
      assert s.terms[0] in s.terms;
    }
  }

  // ---------------------------------------------------------------- a plain term is a substring

  predicate Special(c: char) { c == '%' || c == '_' || c == '\\' }

  predicate Plain(term: string) { forall i :: 0 <= i < |term| ==> !Special(term[i]) }

  predicate Contains(s: string, part: string) { exists i :: 0 <= i <= |s| && part <= s[i..] }

  lemma {:induction false} AnythingGoes(s: string)
    ensures Like("%", s)
  {
    assert "%"[1..] == [];
    if s != [] { AnythingGoes(s[1..]); }
  }

  lemma {:induction false} PlainPrefix(term: string, s: string)
    requires Plain(term)
    ensures Like(term + "%", s) <==> term <= s
  {
    var pattern := term + "%";
    if term == [] {
      assert pattern == "%";
      AnythingGoes(s);
    } else {
      assert pattern[1..] == term[1..] + "%";
      if s != [] {
        PlainPrefix(term[1..], s[1..]);
        assert term[0] in term;
      }
    }
  }

  /** LIKE '%term%' without wildcards in the term asks for a substring. */
  lemma {:induction false} PlainSubstring(term: string, s: string)
    requires Plain(term)
    ensures Like(Pattern(term), s) <==> Contains(s, term)
  {
    assert Pattern(term)[1..] == term + "%";
    PlainPrefix(term, s);
    assert s[0..] == s;
    if s != [] {
      PlainSubstring(term, s[1..]);
      if i :| 0 <= i <= |s[1..]| && term <= s[1..][i..] { assert s[1..][i..] == s[i + 1..]; }
      if i :| 0 < i <= |s| && term <= s[i..] { assert s[i..] == s[1..][i - 1..]; }
    }
  }

  /** Folding keeps the characters that are special in patterns, and makes no others special. */
  ghost predicate KeepsSpecials(fold: char -> char) {
    forall c :: if Special(c) then fold(c) == c else !Special(fold(c))
  }

  lemma FoldedPattern(term: string, fold: char -> char)
    requires KeepsSpecials(fold) && Plain(term)
    ensures Folded(Pattern(term), fold) == Pattern(Folded(term, fold)) && Plain(Folded(term, fold))
  {
    assert fold('%') == '%';
  }

  /** What LIKE and ILIKE ask of a field for a term without wildcards: that it contains the term, and
      that its folding contains the term's folding. */
  lemma PlainTermMeets(db: Db, caseSensitive: bool, term: string, value: Option<string>)
    requires Plain(term) && KeepsSpecials(db.fold)
    ensures Meets(db, caseSensitive, term, value) <==>
            && value.Some?
            && (if caseSensitive then Contains(value.value, term)
                else Contains(Folded(value.value, db.fold), Folded(term, db.fold)))
  {
    if value.Some? {
      PlainSubstring(term, value.value);
      FoldedPattern(term, db.fold);
      PlainSubstring(Folded(term, db.fold), Folded(value.value, db.fold));
    }
  }
}
