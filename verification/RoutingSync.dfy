/** The background crawl that fills the routing map: page by page, each page's
    rows and the cursor behind them in one transaction, so that a job can be
    taken up again wherever it was left. */
module RoutingSync {
  import opened Option
  import opened Paging
  import opened Adapters
  import opened Unique

  datatype Route = Route(provider: string, company: string)

  datatype Status = PENDING | RUNNING | DONE | FAILED

  datatype Job = Job(status: Status, cursor: Option<string>, progress: nat)

  type JobId = string
  type WorkerId = nat

  /** A worker between two of its awaits. */
  datatype Worker =
    | Idle
    | Crawling(job: JobId, cursor: Option<string>, total: nat)
    | Fetched(job: JobId, cursor: Option<string>, total: nat, page: Fetch)
    | Finishing(job: JobId, total: nat)

  type Table = map<Sim, Route>

  datatype System = System(table: Table, jobs: map<JobId, Job>, workers: map<WorkerId, Worker>)

  const INITIAL := System(map[], map[], map[])

  /** What is crawled: a provider of a company, and its answers for batches of 500.
      `contested` are the SIMs of the list that others route too: imports, lookups
      and the crawls of other companies. */
  datatype Source = Source(route: Route, list: Stream, fetch: Option<string> -> Fetch, contested: set<Sim>)

  const BATCH := 500

  /** The adapter pages through a stable list. */
  ghost predicate Pages(src: Source) {
    forall c | OnTrack(src.list, At(c)) :: Meets(src.list, c, BATCH, src.fetch(c))
  }

  /** Where a fresh crawl starts. */
  ghost predicate IsStart(src: Source, first: Option<string>) {
    OnTrack(src.list, At(first)) && src.list.pos(first) == 0
  }

  // ---------- One page ----------

  /** `INSERT ... ON CONFLICT DO UPDATE` */
  function Upsert(table: Table, rows: seq<Sim>, route: Route): Table {
    if rows == [] then table else Upsert(table, rows[..|rows| - 1], route)[rows[|rows| - 1] := route]
  }

  /** The SIM has no ICCID, or a route: this source's, unless others route it too. */
  predicate Mapped(table: Table, src: Source, sim: Sim) {
    sim == "" || (sim in table && (table[sim] == src.route || sim in src.contested))
  }

  predicate MappedUpTo(table: Table, src: Source, n: int) {
    forall i | 0 <= i < n && i < |src.list.items| :: Mapped(table, src, src.list.items[i])
  }

  predicate AllMapped(table: Table, src: Source) {
    forall sim | sim in src.list.items :: Mapped(table, src, sim)
  }

  lemma {:induction false} UpsertMaps(table: Table, rows: seq<Sim>, route: Route)
    ensures forall sim :: sim in rows ==> sim in Upsert(table, rows, route) && Upsert(table, rows, route)[sim] == route
    ensures forall sim | sim !in rows ::
              (sim in Upsert(table, rows, route) <==> sim in table)
              && (sim in table ==> Upsert(table, rows, route)[sim] == table[sim])
  {
    if rows != [] {
      UpsertMaps(table, rows[..|rows| - 1], route);
      assert rows == rows[..|rows| - 1] + [rows[|rows| - 1]];
    }
  }

  /** A page's rows extend the mapped part of the list by the page. */
  lemma {:induction false} PageMaps(table: Table, src: Source, cursor: Option<string>, page: Fetch)
    requires OnTrack(src.list, At(cursor)) && Meets(src.list, cursor, BATCH, page)
    requires MappedUpTo(table, src, src.list.pos(cursor))
    ensures MappedUpTo(Upsert(table, NonEmpty(page.items), src.route), src, src.list.pos(cursor) + |page.items|)
  {
    var from, items := src.list.pos(cursor), src.list.items;
    UpsertMaps(table, NonEmpty(page.items), src.route);
    NonEmptyFacts(page.items);
    forall i | from <= i < from + |page.items|
      ensures Mapped(Upsert(table, NonEmpty(page.items), src.route), src, items[i])
    {
      assert items[i] == page.items[i - from];
      assert page.items[i - from] in page.items;
    }
  }

  // ---------- One step ----------

  /** Steps of the workers, and what may happen beside them: jobs are created and
      given up, and others write routes: any route of a contested SIM or of one
      that is not in this list, and the same route of every SIM. */
  datatype Event =
    | Create(job: JobId)
    | GiveUp(job: JobId)
    | Others(sim: Sim, route: Route)
    | Begin(worker: WorkerId, job: JobId, first: Option<string>)
    | FetchPage(worker: WorkerId)
    | Commit(worker: WorkerId)
    | Finish(worker: WorkerId)
    | Fail(worker: WorkerId)
    | Die(worker: WorkerId)

  function WorkerAt(s: System, w: WorkerId): Worker { if w in s.workers then s.workers[w] else Idle }

  ghost predicate Allowed(src: Source, s: System, e: Event) {
    match e
    case Create(job) => job !in s.jobs
    case GiveUp(job) => job in s.jobs
    case Others(sim, route) => sim !in src.list.items || route == src.route || sim in src.contested
    case Begin(w, job, first) => WorkerAt(s, w).Idle? && job in s.jobs && IsStart(src, first)
    case FetchPage(w) => WorkerAt(s, w).Crawling?
    case Commit(w) => WorkerAt(s, w).Fetched?
    case Finish(w) => WorkerAt(s, w).Finishing?
    case Fail(w) => !WorkerAt(s, w).Idle?
    case Die(w) => !WorkerAt(s, w).Idle?
  }

  function WithStatus(jobs: map<JobId, Job>, id: JobId, status: Status): map<JobId, Job> {
    if id in jobs then jobs[id := jobs[id].(status := status)] else jobs
  }

  /** The transaction of a page, SIMs without an ICCID left out; nothing is
      written when no row is left. */
  function Committed(src: Source, s: System, w: WorkerId): System
    requires WorkerAt(s, w).Fetched? && WorkerAt(s, w).page.Page?
  {
    var Fetched(id, cursor, total, page) := WorkerAt(s, w);
    var rows := NonEmpty(page.items);
    var after :=
      if page.next.None? then Finishing(id, total + |rows|) else Crawling(id, page.next, total + |rows|);
    if rows == [] || id !in s.jobs then s.(workers := s.workers[w := after])
    else
      System(Upsert(s.table, rows, src.route),
             s.jobs[id := s.jobs[id].(cursor := page.next, progress := total + |rows|)],
             s.workers[w := after])
  }

  function Step(src: Source, s: System, e: Event): System {
    match e
    case Create(job) => s.(jobs := s.jobs[job := Job(PENDING, None, 0)])
    case GiveUp(job) => s.(jobs := WithStatus(s.jobs, job, FAILED))
    case Others(sim, route) => s.(table := s.table[sim := route])
    case Begin(w, job, first) =>
      if job !in s.jobs then s
      else
        var cursor := if s.jobs[job].cursor.None? then first else s.jobs[job].cursor;
        s.(jobs := WithStatus(s.jobs, job, RUNNING), workers := s.workers[w := Crawling(job, cursor, 0)])
    case FetchPage(w) =>
      (match WorkerAt(s, w)
       case Crawling(job, cursor, total) =>
         s.(workers := s.workers[w := Fetched(job, cursor, total, src.fetch(cursor))])
       case _ => s)
    case Commit(w) =>
      if WorkerAt(s, w).Fetched? && WorkerAt(s, w).page.Page? then Committed(src, s, w) else s
    case Finish(w) =>
      if !WorkerAt(s, w).Finishing? || WorkerAt(s, w).job !in s.jobs then s
      else
        s.(jobs := s.jobs[WorkerAt(s, w).job := Job(DONE, None, WorkerAt(s, w).total)],
           workers := s.workers[w := Idle])
    case Fail(w) =>
      if WorkerAt(s, w).Idle? then s
      else s.(jobs := WithStatus(s.jobs, WorkerAt(s, w).job, FAILED), workers := s.workers[w := Idle])
    case Die(w) => s.(workers := s.workers[w := Idle])
  }

  // ---------- What every step keeps ----------

  ghost predicate JobOk(src: Source, table: Table, job: Job) {
    && (job.cursor.Some? ==> OnTrack(src.list, At(job.cursor)) && MappedUpTo(table, src, src.list.pos(job.cursor)))
    && (job.status.DONE? ==> AllMapped(table, src))
  }

  ghost predicate WorkerOk(src: Source, s: System, w: Worker) {
    match w
    case Idle => true
    case Crawling(job, cursor, _) =>
      job in s.jobs && OnTrack(src.list, At(cursor)) && MappedUpTo(s.table, src, src.list.pos(cursor))
    case Fetched(job, cursor, _, page) =>
      job in s.jobs && OnTrack(src.list, At(cursor)) && MappedUpTo(s.table, src, src.list.pos(cursor))
      && Meets(src.list, cursor, BATCH, page)
    case Finishing(job, _) => job in s.jobs && AllMapped(s.table, src)
  }

  ghost predicate Inv(src: Source, s: System) {
    && (forall id | id in s.jobs :: JobOk(src, s.table, s.jobs[id]))
    && (forall w :: WorkerOk(src, s, WorkerAt(s, w)))
  }

  /** What is mapped for this source stays mapped. */
  predicate Grows(src: Source, before: Table, after: Table) {
    forall sim | sim in src.list.items && Mapped(before, src, sim) :: Mapped(after, src, sim)
  }

  lemma GrowthKeepsWorker(src: Source, s: System, t: System, w: Worker)
    requires WorkerOk(src, s, w) && Grows(src, s.table, t.table) && s.jobs.Keys <= t.jobs.Keys
    ensures WorkerOk(src, t, w)
  {
  }

  lemma GrowthKeepsJob(src: Source, before: Table, after: Table, job: Job)
    requires JobOk(src, before, job) && Grows(src, before, after)
    ensures JobOk(src, after, job)
  {
  }

  lemma StepGrows(src: Source, s: System, e: Event)
    requires Allowed(src, s, e)
    ensures Grows(src, s.table, Step(src, s, e).table) && s.jobs.Keys <= Step(src, s, e).jobs.Keys
  {
    if e.Commit? && WorkerAt(s, e.worker).page.Page? {
      UpsertMaps(s.table, NonEmpty(WorkerAt(s, e.worker).page.items), src.route);
    }
  }

  lemma CommitKeepsInv(src: Source, s: System, w: WorkerId)
    requires Pages(src) && Inv(src, s) && WorkerAt(s, w).Fetched?
    ensures var t := Step(src, s, Commit(w));
            WorkerOk(src, t, WorkerAt(t, w)) && forall id | id in t.jobs :: JobOk(src, t.table, t.jobs[id])
  {
    var Fetched(job, cursor, total, page) := WorkerAt(s, w);
    assert WorkerOk(src, s, WorkerAt(s, w));
    var t := Step(src, s, Commit(w));
    var rows := NonEmpty(page.items);
    PageMaps(s.table, src, cursor, page);
    if rows == [] { assert Upsert(s.table, rows, src.route) == s.table; }
    StepGrows(src, s, Commit(w));
    var end := src.list.pos(cursor) + |page.items|;
    assert MappedUpTo(t.table, src, end);
    if page.next.None? { EverythingMapped(t.table, src, end); }
    forall id | id in t.jobs ensures JobOk(src, t.table, t.jobs[id]) {
      GrowthKeepsJob(src, s.table, t.table, s.jobs[id]);
    }
  }

  lemma EverythingMapped(table: Table, src: Source, n: int)
    requires MappedUpTo(table, src, n) && n == |src.list.items|
    ensures AllMapped(table, src)
  {
  }

  lemma StepKeepsInv(src: Source, s: System, e: Event)
    requires Pages(src) && Inv(src, s) && Allowed(src, s, e)
    ensures Inv(src, Step(src, s, e))
  {
    var t := Step(src, s, e);
    StepGrows(src, s, e);
    if e.Commit? { CommitKeepsInv(src, s, e.worker); }
    forall w ensures WorkerOk(src, t, WorkerAt(t, w)) {
      assert WorkerOk(src, s, WorkerAt(s, w));
      GrowthKeepsWorker(src, s, t, WorkerAt(s, w));
    }
    forall id | id in t.jobs ensures JobOk(src, t.table, t.jobs[id]) {
      if id in s.jobs { GrowthKeepsJob(src, s.table, t.table, s.jobs[id]); }
      if e.Finish? { assert WorkerOk(src, s, WorkerAt(s, e.worker)); }
    }
  }

  // ---------- Runs ----------

  function Run(src: Source, es: seq<Event>): System {
    if es == [] then INITIAL else Step(src, Run(src, es[..|es| - 1]), es[|es| - 1])
  }

  ghost predicate Legal(src: Source, es: seq<Event>) {
    es != [] ==> Legal(src, es[..|es| - 1]) && Allowed(src, Run(src, es[..|es| - 1]), es[|es| - 1])
  }

  lemma {:induction false} RunKeepsInv(src: Source, es: seq<Event>)
    requires Pages(src) && Legal(src, es)
    ensures Inv(src, Run(src, es))
  {
    if es != [] {
      RunKeepsInv(src, es[..|es| - 1]);
      StepKeepsInv(src, Run(src, es[..|es| - 1]), es[|es| - 1]);
    }
  }

  /** Whatever crashes, restarts and overlaps: all before a persisted cursor is
      mapped, and a job that is done has every SIM with an ICCID mapped: to its
      provider and company, unless others route that very SIM. */
  lemma {:induction false} CursorsAreSafeAndDoneIsComplete(src: Source, es: seq<Event>, id: JobId)
    requires Pages(src) && Legal(src, es) && id in Run(src, es).jobs
    ensures var s, job := Run(src, es), Run(src, es).jobs[id];
            (job.cursor.Some? ==> forall i | 0 <= i < src.list.pos(job.cursor) && i < |src.list.items| ::
                                    Mapped(s.table, src, src.list.items[i]))
            && (job.status.DONE? ==> forall sim | sim in src.list.items && sim != "" ::
                                       sim in s.table && (s.table[sim] == src.route || sim in src.contested))
  {
    RunKeepsInv(src, es);
    assert JobOk(src, Run(src, es).table, Run(src, es).jobs[id]);
  }

  /** What is mapped stays mapped, also after the job's row has moved on. */
  lemma {:induction false} MappedForGood(src: Source, es: seq<Event>, m: nat, sim: Sim)
    requires Pages(src) && Legal(src, es) && m <= |es| && sim in src.list.items
    requires Mapped(Run(src, es[..m]).table, src, sim)
    ensures Mapped(Run(src, es).table, src, sim)
  {
    if m == |es| {
      assert es[..m] == es;
    } else {
      var n := |es| - 1;
      assert es[..n][..m] == es[..m];
      MappedForGood(src, es[..n], m, sim);
      StepGrows(src, Run(src, es[..n]), es[n]);
    }
  }

  // ---------- Where a job goes on ----------

  /** What a worker has fetched is the page at its cursor. */
  ghost predicate FetchedHere(src: Source, w: Worker) { w.Fetched? ==> w.page == src.fetch(w.cursor) }

  lemma {:induction false} PagesAreFetched(src: Source, es: seq<Event>, w: WorkerId)
    ensures FetchedHere(src, WorkerAt(Run(src, es), w))
  {
    if es != [] { PagesAreFetched(src, es[..|es| - 1], w); }
  }

  /** A worker that has fetched has the page at its cursor, for a job that there is. */
  lemma {:induction false} FetchedPage(src: Source, es: seq<Event>, w: WorkerId)
    requires Pages(src) && Legal(src, es) && WorkerAt(Run(src, es), w).Fetched?
    ensures var at := WorkerAt(Run(src, es), w);
            at.job in Run(src, es).jobs && at.page == src.fetch(at.cursor)
            && OnTrack(src.list, At(at.cursor)) && Meets(src.list, at.cursor, BATCH, at.page)
  {
    RunKeepsInv(src, es);
    PagesAreFetched(src, es, w);
    assert WorkerOk(src, Run(src, es), WorkerAt(Run(src, es), w));
  }

  /** A commit puts the page's rows, and nothing else, into the table. */
  lemma {:induction false} CommitStoresPage(src: Source, es: seq<Event>, n: nat, sim: Sim)
    requires Pages(src) && n < |es| && Legal(src, es[..n]) && es[n].Commit?
    requires WorkerAt(Run(src, es[..n]), es[n].worker).Fetched?
    ensures src.fetch(WorkerAt(Run(src, es[..n]), es[n].worker).cursor).Page?
    ensures var s, t := Run(src, es[..n]), Run(src, es[..n + 1]);
            var rows := NonEmpty(src.fetch(WorkerAt(s, es[n].worker).cursor).items);
            if sim in rows then sim in t.table && t.table[sim] == src.route
            else (sim in t.table <==> sim in s.table) && (sim in t.table ==> t.table[sim] == s.table[sim])
  {
    var s := Run(src, es[..n]);
    assert es[..n + 1][..n] == es[..n];
    FetchedPage(src, es[..n], es[n].worker);
    UpsertMaps(s.table, NonEmpty(WorkerAt(s, es[n].worker).page.items), src.route);
  }

  /** With them it moves the job's cursor behind the page, and counts them; without
      a row the job stays. The worker goes on behind the page. */
  lemma {:induction false} CommitMovesOn(src: Source, es: seq<Event>, n: nat)
    requires Pages(src) && n < |es| && Legal(src, es[..n]) && es[n].Commit?
    requires WorkerAt(Run(src, es[..n]), es[n].worker).Fetched?
    ensures var w := WorkerAt(Run(src, es[..n]), es[n].worker);
            src.fetch(w.cursor).Page? && w.job in Run(src, es[..n]).jobs && w.job in Run(src, es[..n + 1]).jobs
    ensures var s, t := Run(src, es[..n]), Run(src, es[..n + 1]);
            var w := WorkerAt(s, es[n].worker);
            var page, before := src.fetch(w.cursor), s.jobs[w.job];
            var rows := |NonEmpty(page.items)|;
            t.jobs[w.job] == (if rows == 0 then before
                              else Job(before.status, page.next, w.total + rows))
            && (if page.next.None? then WorkerAt(t, es[n].worker) == Finishing(w.job, w.total + rows)
                else WorkerAt(t, es[n].worker) == Crawling(w.job, page.next, w.total + rows)
                     && src.list.pos(page.next) == src.list.pos(w.cursor) + |page.items|)
  {
    assert es[..n + 1][..n] == es[..n];
    FetchedPage(src, es[..n], es[n].worker);
  }

  /** The worker that has committed the last page marks its job done; one that fails
      marks it failed; a job that is given up is failed, a new one has not begun. */
  lemma {:induction false} JobsBeginAndEnd(src: Source, es: seq<Event>, n: nat)
    requires Pages(src) && n < |es| && Legal(src, es[..n]) && Allowed(src, Run(src, es[..n]), es[n])
    ensures var s, t := Run(src, es[..n]), Run(src, es[..n + 1]);
            match es[n]
            case Create(id) => id in t.jobs && t.jobs[id] == Job(PENDING, None, 0)
            case GiveUp(id) => id in t.jobs && t.jobs[id].status.FAILED?
            case Finish(w) =>
              var f := WorkerAt(s, w);
              f.Finishing? && f.job in t.jobs && t.jobs[f.job] == Job(DONE, None, f.total) && WorkerAt(t, w).Idle?
            case Fail(w) =>
              !WorkerAt(s, w).Idle? && WorkerAt(s, w).job in t.jobs && t.jobs[WorkerAt(s, w).job].status.FAILED?
              && WorkerAt(t, w).Idle?
            case FetchPage(w) =>
              var c := WorkerAt(s, w);
              c.Crawling? && WorkerAt(t, w) == Fetched(c.job, c.cursor, c.total, src.fetch(c.cursor))
            case _ => true
  {
    var s := Run(src, es[..n]);
    assert es[..n + 1][..n] == es[..n];
    RunKeepsInv(src, es[..n]);
    if es[n].Finish? || es[n].Fail? { assert WorkerOk(src, s, WorkerAt(s, es[n].worker)); }
  }

  /** The step creates the job, or is a commit or the end of one of its workers. */
  predicate Touches(s: System, e: Event, id: JobId) {
    if e.Create? then e.job == id
    else (e.Commit? || e.Finish?) && !WorkerAt(s, e.worker).Idle? && WorkerAt(s, e.worker).job == id
  }

  /** No other step moves a job's cursor or its progress, but for the one that
      creates it and the one that is done with it; a worker takes the job up at its
      cursor, or at the start if it has none. */
  lemma {:induction false} OnlyCommitsMoveCursors(src: Source, es: seq<Event>, n: nat, id: JobId)
    requires n < |es| && id in Run(src, es[..n]).jobs && !Touches(Run(src, es[..n]), es[n], id)
    ensures var s, t := Run(src, es[..n]), Run(src, es[..n + 1]);
            id in t.jobs && t.jobs[id].cursor == s.jobs[id].cursor && t.jobs[id].progress == s.jobs[id].progress
            && (es[n].Begin? && es[n].job == id ==>
                  t.jobs[id].status.RUNNING?
                  && WorkerAt(t, es[n].worker) ==
                       Crawling(id, if s.jobs[id].cursor.None? then es[n].first else s.jobs[id].cursor, 0))
  {
    assert es[..n + 1][..n] == es[..n];
  }

  /** The job that a step is about. */
  function JobOf(s: System, e: Event): Option<JobId> {
    match e
    case Create(job) => Some(job)
    case GiveUp(job) => Some(job)
    case Begin(_, job, _) => Some(job)
    case Others(_, _) => None
    case _ => if WorkerAt(s, e.worker).Idle? then None else Some(WorkerAt(s, e.worker).job)
  }

  /** A step leaves other workers and other jobs alone, and the table too unless it is
      a commit or a write of others; a worker that dies leaves everything. */
  lemma {:induction false} StepsKeepToTheirOwn(src: Source, es: seq<Event>, n: nat, v: WorkerId, id: JobId)
    requires n < |es|
    ensures var s, t, e := Run(src, es[..n]), Run(src, es[..n + 1]), es[n];
            (e.Create? || e.GiveUp? || e.Others? || e.worker != v ==> WorkerAt(t, v) == WorkerAt(s, v))
            && (JobOf(s, e) != Some(id) ==>
                  (id in t.jobs <==> id in s.jobs) && (id in s.jobs ==> t.jobs[id] == s.jobs[id]))
            && (e.Others? ==> t.table == s.table[e.sim := e.route] && t.jobs == s.jobs)
            && (!e.Others? && !e.Commit? ==> t.table == s.table)
            && (e.Die? ==> WorkerAt(t, e.worker).Idle? && t.jobs == s.jobs)
  {
    assert es[..n + 1][..n] == es[..n];
  }

  // ---------- The three providers ----------

  lemma KiteCanBeCrawled(list: seq<Sim>, route: Route, contested: set<Sim>)
    ensures var src := Source(route, OffsetStream(list), c => KitePage(list, c, BATCH), contested);
            Pages(src) && IsStart(src, None)
  {
    StartOfDecimal(0);
    forall c | OnTrack(OffsetStream(list), At(c))
      ensures Meets(OffsetStream(list), c, BATCH, KitePage(list, c, BATCH))
    {
      KiteMeets(list, c, BATCH);
    }
  }

  lemma MoabitsCanBeCrawled(list: seq<Sim>, route: Route, contested: set<Sim>)
    ensures var src := Source(route, OffsetStream(list), c => MoabitsPage(list, c, BATCH), contested);
            Pages(src) && IsStart(src, None)
  {
    StartOfDecimal(0);
    forall c | OnTrack(OffsetStream(list), At(c))
      ensures Meets(OffsetStream(list), c, BATCH, MoabitsPage(list, c, BATCH))
    {
      MoabitsMeets(list, c, BATCH);
    }
  }

  /** The crawl gives Tele2 its window in the cursor; its batches are cut to 50,
      always the same size, so the page numbers add up. */
  lemma Tele2CanBeCrawled(list: seq<Sim>, route: Route, contested: set<Sim>, since: string, till: string,
                          defaultTill: string -> string)
    requires NoBar(since) && since != "" && NoBar(till) && forall s :: NoBar(defaultTill(s))
    ensures var w := Window(None, None, defaultTill);
            var src := Source(route, Tele2Stream(list, w, 50), c => Tele2Page(list, w, c, BATCH), contested);
            Pages(src) && IsStart(src, Some(FormatCursor(1, since, till)))
  {
    var w := Window(None, None, defaultTill);
    CursorFieldsOfFormat(1, since, till);
    forall c | OnTrack(Tele2Stream(list, w, 50), At(c))
      ensures Meets(Tele2Stream(list, w, 50), c, BATCH, Tele2Page(list, w, c, BATCH))
    {
      Tele2Meets(list, w, c, BATCH);
    }
  }

  // ---------- The crawl as it runs ----------

  lemma {:induction false} UpsertConcat(table: Table, a: seq<Sim>, b: seq<Sim>, route: Route)
    ensures Upsert(table, a + b, route) == Upsert(Upsert(table, a, route), b, route)
  {
    if b == [] {
      assert a + b == a;
    } else {
      UpsertConcat(table, a, b[..|b| - 1], route);
      assert (a + b)[..|a + b| - 1] == a + b[..|b| - 1];
    }
  }

  /** What one page adds to the crawled part of the list. */
  lemma {:induction false} PageAdds(table: Table, src: Source, start: nat, cursor: Option<string>, page: Fetch)
    requires OnTrack(src.list, At(cursor)) && Meets(src.list, cursor, BATCH, page) && start <= src.list.pos(cursor)
    ensures var from, end, items := src.list.pos(cursor), src.list.pos(cursor) + |page.items|, src.list.items;
            NonEmpty(items[start..end]) == NonEmpty(items[start..from]) + NonEmpty(page.items)
            && Upsert(table, NonEmpty(items[start..end]), src.route)
               == Upsert(Upsert(table, NonEmpty(items[start..from]), src.route), NonEmpty(page.items), src.route)
  {
    var from, end, items := src.list.pos(cursor), src.list.pos(cursor) + |page.items|, src.list.items;
    assert items[start..end] == items[start..from] + page.items;
    NonEmptyConcat(items[start..from], page.items);
    UpsertConcat(table, NonEmpty(items[start..from]), NonEmpty(page.items), src.route);
  }

  /** A crawl that began at `start` with the table `before` has got to `end`. */
  ghost predicate Progress(src: Source, before: Table, start: int, end: int, table: Table, job: Job, total: nat) {
    && 0 <= start <= end <= |src.list.items|
    && table == Upsert(before, NonEmpty(src.list.items[start..end]), src.route)
    && total == |NonEmpty(src.list.items[start..end])|
    && MappedUpTo(table, src, end) && JobOk(src, table, job) && job.status.RUNNING?
  }

  /** Every row from a cursor on went into the table. */
  ghost predicate Crawled(src: Source, cursor: Option<string>, before: Table, after: Table, total: nat) {
    var start, items := src.list.pos(cursor), src.list.items;
    && 0 <= start <= |items| && after == Upsert(before, NonEmpty(items[start..]), src.route)
    && total == |NonEmpty(items[start..])|
  }

  lemma ProgressStarts(src: Source, table: Table, first: Option<string>, job: Job)
    requires OnTrack(src.list, At(first)) && MappedUpTo(table, src, src.list.pos(first))
    requires JobOk(src, table, job) && job.status.RUNNING?
    ensures Progress(src, table, src.list.pos(first), src.list.pos(first), table, job, 0)
  {
    assert NonEmpty(src.list.items[src.list.pos(first)..src.list.pos(first)]) == [];
  }

  lemma ProgressIsCrawl(src: Source, before: Table, first: Option<string>, table: Table, job: Job, total: nat)
    requires OnTrack(src.list, At(first))
    requires Progress(src, before, src.list.pos(first), |src.list.items|, table, job, total)
    ensures Crawled(src, first, before, table, total) && AllMapped(table, src)
  {
    EverythingMapped(table, src, |src.list.items|);
    assert src.list.items[src.list.pos(first)..|src.list.items|] == src.list.items[src.list.pos(first)..];
  }

  /** The row of the job once a page is through. */
  function JobAfter(job: Job, page: Fetch, total: nat): Job
    requires page.Page?
  {
    if NonEmpty(page.items) == [] then job else job.(cursor := page.next, progress := total + |NonEmpty(page.items)|)
  }

  lemma {:induction false} PageKeepsJob(src: Source, cursor: Option<string>, table: Table, job: Job, total: nat)
    requires Pages(src) && OnTrack(src.list, At(cursor)) && MappedUpTo(table, src, src.list.pos(cursor))
    requires JobOk(src, table, job) && job.status.RUNNING?
    ensures var page := src.fetch(cursor);
            var after := Upsert(table, NonEmpty(page.items), src.route);
            Meets(src.list, cursor, BATCH, page)
            && MappedUpTo(after, src, src.list.pos(cursor) + |page.items|)
            && JobOk(src, after, JobAfter(job, page, total)) && JobAfter(job, page, total).status.RUNNING?
  {
    var page := src.fetch(cursor);
    assert Meets(src.list, cursor, BATCH, page);
    var rows := NonEmpty(page.items);
    PageMaps(table, src, cursor, page);
    UpsertMaps(table, rows, src.route);
    GrowthKeepsJob(src, table, Upsert(table, rows, src.route), job);
  }

  lemma {:induction false} PageIsProgress(src: Source, before: Table, start: int, cursor: Option<string>,
                                          table: Table, job: Job, total: nat)
    requires Pages(src) && OnTrack(src.list, At(cursor))
    requires Progress(src, before, start, src.list.pos(cursor), table, job, total)
    ensures var page := src.fetch(cursor);
            Meets(src.list, cursor, BATCH, page)
            && Progress(src, before, start, src.list.pos(cursor) + |page.items|,
                        Upsert(table, NonEmpty(page.items), src.route), JobAfter(job, page, total),
                        total + |NonEmpty(page.items)|)
  {
    PageKeepsJob(src, cursor, table, job, total);
    PageAdds(before, src, start, cursor, src.fetch(cursor));
  }

  // ---------- Where a crawl is left ----------

  /** The crawl goes on from a cursor, or there is none and it is at the end. */
  function Then(next: Option<string>): Live { if next.Some? then At(next) else Done }

  /** Where a crawl stands after k pages. */
  function AfterPages(src: Source, first: Option<string>, k: nat): Live {
    if k == 0 then At(first)
    else
      var live := AfterPages(src, first, k - 1);
      if live.Done? then Done else After(src.fetch(live.cursor))
  }

  ghost function PlaceOf(src: Source, live: Live): int {
    if live.Done? then |src.list.items| else src.list.pos(live.cursor)
  }

  /** The row of the job, as it was when a crawl began, once the crawl has got to a
      place: untouched as long as no row went in; then it counts the rows, and its
      cursor stands behind the last page that had one. */
  ghost predicate Saved(src: Source, start: int, place: int, was: Job, job: Job)
    requires 0 <= start <= place <= |src.list.items|
  {
    var items := src.list.items;
    var rows := NonEmpty(items[start..place]);
    if rows == [] then job.cursor == was.cursor && job.progress == was.progress
    else
      && job.progress == |rows|
      && var end := PlaceOf(src, Then(job.cursor)); start <= end <= place && NonEmpty(items[end..place]) == []
  }

  /** How a crawl leaves table and job that fails after k pages: every row of them
      is in the table. */
  ghost predicate Left(src: Source, first: Option<string>, k: nat, was: Job, job: Job, before: Table, table: Table) {
    var start := src.list.pos(first);
    exists place :: place == PlaceOf(src, AfterPages(src, first, k))
                    && job.status.FAILED? && 0 <= start <= place <= |src.list.items|
                    && table == Upsert(before, NonEmpty(src.list.items[start..place]), src.route)
                    && Saved(src, start, place, was, job)
  }

  /** A page without rows leaves the cursor behind the last one that had some. */
  lemma {:induction false} SavedOverGap(src: Source, start: int, from: int, place: int, was: Job, job: Job)
    requires 0 <= start <= from <= place <= |src.list.items| && NonEmpty(src.list.items[from..place]) == []
    requires Saved(src, start, from, was, job)
    ensures Saved(src, start, place, was, job)
  {
    var items := src.list.items;
    RowsAdd(items, start, from, place);
    if NonEmpty(items[start..from]) != [] { RowsAdd(items, PlaceOf(src, Then(job.cursor)), from, place); }
  }

  /** A page with rows moves it behind itself. */
  lemma {:induction false} SavedByPage(src: Source, start: int, from: int, place: int, was: Job, job: Job)
    requires 0 <= start <= from <= place <= |src.list.items| && NonEmpty(src.list.items[from..place]) != []
    requires PlaceOf(src, Then(job.cursor)) == place
    requires job.progress == |NonEmpty(src.list.items[start..from])| + |NonEmpty(src.list.items[from..place])|
    ensures Saved(src, start, place, was, job)
  {
    RowsAdd(src.list.items, start, from, place);
    assert src.list.items[place..place] == [];
  }

  lemma {:induction false} SavedAfterPage(src: Source, start: int, cursor: Option<string>, was: Job, job: Job)
    requires Pages(src) && OnTrack(src.list, At(cursor)) && 0 <= start <= src.list.pos(cursor)
    requires Saved(src, start, src.list.pos(cursor), was, job)
    ensures var page := src.fetch(cursor);
            var place := src.list.pos(cursor) + |page.items|;
            var total := |NonEmpty(src.list.items[start..src.list.pos(cursor)])|;
            place <= |src.list.items| && Saved(src, start, place, was, JobAfter(job, page, total))
  {
    var page, from := src.fetch(cursor), src.list.pos(cursor);
    assert Meets(src.list, cursor, BATCH, page);
    var place := from + |page.items|;
    assert page.items == src.list.items[from..place];
    if NonEmpty(page.items) == [] {
      SavedOverGap(src, start, from, place, was, job);
    } else {
      SavedByPage(src, start, from, place, was, JobAfter(job, page, |NonEmpty(src.list.items[start..from])|));
    }
  }

  lemma {:induction false} RowsAdd(items: seq<Sim>, a: nat, b: nat, c: nat)
    requires a <= b <= c <= |items|
    ensures NonEmpty(items[a..c]) == NonEmpty(items[a..b]) + NonEmpty(items[b..c])
  {
    assert items[a..c] == items[a..b] + items[b..c];
    NonEmptyConcat(items[a..b], items[b..c]);
  }

  lemma NothingSaved(src: Source, first: Option<string>, job: Job)
    requires OnTrack(src.list, At(first))
    ensures Saved(src, src.list.pos(first), src.list.pos(first), job, job)
  {
    assert src.list.items[src.list.pos(first)..src.list.pos(first)] == [];
  }

  lemma {:induction false} RowsWithoutGap(items: seq<Sim>, start: nat, end: nat, place: nat, table: Table, route: Route)
    requires start <= end <= place <= |items| && NonEmpty(items[end..place]) == []
    ensures |NonEmpty(items[start..place])| + |NonEmpty(items[end..])| == |NonEmpty(items[start..])|
    ensures Upsert(Upsert(table, NonEmpty(items[start..place]), route), NonEmpty(items[end..]), route)
         == Upsert(table, NonEmpty(items[start..]), route)
  {
    RowsAdd(items, start, end, place);
    RowsAdd(items, start, end, |items|);
    assert items[start..|items|] == items[start..] && items[end..|items|] == items[end..];
    assert NonEmpty(items[start..end]) + [] == NonEmpty(items[start..end]);
    UpsertConcat(table, NonEmpty(items[start..end]), NonEmpty(items[end..]), route);
  }

  /** A failed crawl that is taken up again and goes through reads no row twice: the
      rows that it counted before it failed and those of the second crawl together
      are the rows of the list. */
  lemma {:induction false} ResumeReadsTheRest(src: Source, first: Option<string>, k: nat, was: Job, job: Job,
                                              before: Table, table: Table, after: Table, total: nat)
    requires Left(src, first, k, was, job, before, table) && job.cursor.Some?
    requires 0 <= src.list.pos(first) <= PlaceOf(src, AfterPages(src, first, k)) <= |src.list.items|
    requires NonEmpty(src.list.items[src.list.pos(first)..PlaceOf(src, AfterPages(src, first, k))]) != []
    requires Crawled(src, job.cursor, table, after, total)
    ensures var rows := NonEmpty(src.list.items[src.list.pos(first)..]);
            job.progress + total == |rows| && after == Upsert(before, rows, src.route)
  {
    var place := PlaceOf(src, AfterPages(src, first, k));
    RowsWithoutGap(src.list.items, src.list.pos(first), src.list.pos(job.cursor), place, before, src.route);
  }

  /** A crawl that began at `start` has got to `live`, and all that it has read is
      in the table and counted in its job's row. */
  ghost predicate Reached(src: Source, before: Table, was: Job, start: int, live: Live, table: Table, job: Job,
                          total: nat)
  {
    exists place :: place == PlaceOf(src, live) && Progress(src, before, start, place, table, job, total)
                    && Saved(src, start, place, was, job)
  }

  lemma {:induction false} PageReaches(src: Source, before: Table, was: Job, start: int, cursor: Option<string>,
                                       table: Table, job: Job, total: nat)
    requires Pages(src) && OnTrack(src.list, At(cursor))
    requires Reached(src, before, was, start, At(cursor), table, job, total)
    ensures var page := src.fetch(cursor);
            Meets(src.list, cursor, BATCH, page)
            && Reached(src, before, was, start, After(page), Upsert(table, NonEmpty(page.items), src.route),
                       JobAfter(job, page, total), total + |NonEmpty(page.items)|)
  {
    PageIsProgress(src, before, start, cursor, table, job, total);
    SavedAfterPage(src, start, cursor, was, job);
  }

  lemma {:induction false} CrawlStarts(src: Source, table: Table, first: Option<string>, job: Job)
    requires OnTrack(src.list, At(first)) && MappedUpTo(table, src, src.list.pos(first))
    requires JobOk(src, table, job) && job.status.RUNNING?
    ensures Reached(src, table, job, src.list.pos(first), At(first), table, job, 0)
  {
    ProgressStarts(src, table, first, job);
    NothingSaved(src, first, job);
  }

  lemma {:induction false} FailureLeaves(src: Source, first: Option<string>, k: nat, before: Table, was: Job,
                                         table: Table, job: Job, total: nat)
    requires Reached(src, before, was, src.list.pos(first), AfterPages(src, first, k), table, job, total)
    ensures JobOk(src, table, job.(status := FAILED))
    ensures Left(src, first, k, was, job.(status := FAILED), before, table)
  {
  }

  class Database {
    var table: Table
    var job: Job

    /** One transaction. */
    method CommitPage(rows: seq<Sim>, route: Route, next: Option<string>, total: nat)
      modifies this
      ensures table == Upsert(old(table), rows, route)
      ensures job == old(job).(cursor := next, progress := total)
    {
      for k := 0 to |rows|
        invariant table == Upsert(old(table), rows[..k], route) && job == old(job)
      {
        assert rows[..k + 1][..k] == rows[..k];
        table := table[rows[k] := route];
      }
      assert rows[..|rows|] == rows;
      job := job.(cursor := next, progress := total);
    }

    /** One turn of the loop: fetch a page and commit its rows. */
    method CrawlPage(src: Source, cursor: Option<string>, total: nat, ghost before: Table, ghost was: Job,
                     ghost start: int)
      returns (next: Option<string>, newTotal: nat)
      requires Pages(src) && OnTrack(src.list, At(cursor))
      requires Reached(src, before, was, start, At(cursor), table, job, total)
      modifies this
      ensures Then(next) == After(src.fetch(cursor)) && OnTrack(src.list, Then(next))
      ensures Reached(src, before, was, start, Then(next), table, job, newTotal)
      ensures Remaining(src.list, Then(next)) < Remaining(src.list, At(cursor))
    {
      var page := src.fetch(cursor);
      PageReaches(src, before, was, start, cursor, table, job, total);
      var rows := NonEmpty(page.items);
      newTotal := total + |rows|;
      if rows != [] { CommitPage(rows, src.route, page.next, newTotal); }
      next := page.next;
    }

    /** The last transaction. */
    method MarkDone(src: Source, first: Option<string>, total: nat, ghost before: Table, ghost was: Job)
      requires OnTrack(src.list, At(first))
      requires Reached(src, before, was, src.list.pos(first), Done, table, job, total)
      modifies this`job
      ensures job == Job(DONE, None, total) && JobOk(src, table, job) && Crawled(src, first, before, table, total)
    {
      ProgressIsCrawl(src, before, first, table, job, total);
      job := job.(status := DONE, progress := total, cursor := None);
    }

    /** `_persist_job_failure`, after k pages. */
    method MarkFailed(ghost src: Source, ghost first: Option<string>, ghost k: nat, ghost before: Table,
                      ghost was: Job, ghost total: nat)
      requires Reached(src, before, was, src.list.pos(first), AfterPages(src, first, k), table, job, total)
      modifies this`job
      ensures job == old(job).(status := FAILED) && JobOk(src, table, job)
      ensures Left(src, first, k, was, job, before, table)
    {
      FailureLeaves(src, first, k, before, was, table, job, total);
      job := job.(status := FAILED);
    }

    /** Crawl from a cursor to the end, or to the first step that raises: step k is
        page k and its transaction, or the last transaction once there is no page
        left. Whatever had been read by then is in the table. */
    method CrawlFrom(src: Source, first: Option<string>, raises: nat -> bool) returns (total: nat, ghost steps: nat)
      requires Pages(src) && OnTrack(src.list, At(first)) && MappedUpTo(table, src, src.list.pos(first))
      requires JobOk(src, table, job) && job.status.RUNNING?
      modifies this
      ensures JobOk(src, table, job) && (job.status.DONE? || job.status.FAILED?)
      ensures forall k | 0 <= k < steps :: !raises(k)
      ensures job.status.FAILED? <==> raises(steps)
      ensures if job.status.FAILED? then Left(src, first, steps, old(job), job, old(table), table)
              else job == Job(DONE, None, total) && Crawled(src, first, old(table), table, total)
                   && AfterPages(src, first, steps).Done?
    {
      var cursor, calls, done := first, 0, false;
      total, steps := 0, 0;
      ghost var before, was, start, live := table, job, src.list.pos(first), At(first);
      CrawlStarts(src, table, first, job);
      while !done
        invariant steps == calls && live == AfterPages(src, first, steps) && forall k | 0 <= k < steps :: !raises(k)
        invariant live == if done then Done else At(cursor)
        invariant OnTrack(src.list, live) && Reached(src, before, was, start, live, table, job, total)
        decreases Remaining(src.list, live), !done
      {
        if raises(calls) {
          MarkFailed(src, first, steps, before, was, total);
          return;
        }
        calls, steps := calls + 1, steps + 1;
        var next;
        next, total := CrawlPage(src, cursor, total, before, was, start);
        live := Then(next);
        if next.None? { done := true; } else { cursor := next; }
      }
      if raises(calls) {
        MarkFailed(src, first, steps, before, was, total);
        return;
      }
      MarkDone(src, first, total, before, was);
    }

    /** Take the job up where it was left. Done or failed, it can be taken up
        again; done means that every row from the starting point on went in. */
    method Crawl(src: Source, first: Option<string>, raises: nat -> bool) returns (total: nat, ghost steps: nat)
      requires Pages(src) && IsStart(src, first) && JobOk(src, table, job)
      modifies this
      ensures JobOk(src, table, job) && (job.status.DONE? || job.status.FAILED?)
      ensures forall k | 0 <= k < steps :: !raises(k)
      ensures job.status.FAILED? <==> raises(steps)
      ensures var cursor := if old(job).cursor.None? then first else old(job).cursor;
              if job.status.FAILED? then Left(src, cursor, steps, old(job), job, old(table), table)
              else job == Job(DONE, None, total) && Crawled(src, cursor, old(table), table, total)
                   && AllMapped(table, src)
    {
      var cursor := if job.cursor.None? then first else job.cursor;
      job := job.(status := RUNNING);
      total, steps := CrawlFrom(src, cursor, raises);
    }
  }
}
