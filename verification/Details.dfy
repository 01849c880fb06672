/** Details for a batch of ICCIDs over several providers: who is asked for what,
    and where every ICCID of the request ends up. */
module Details {
  import opened Option
  import opened Unique

  type Iccid = string

  /** Looking up who has an ICCID: unknown, an unexpected error, or a route, with
      the SIM itself if it was found by asking around. */
  datatype Route = Route(provider: string, iccid: Iccid)
  datatype Resolution = Unknown | Breaks | Found(route: Route, prefetched: Option<Route>)

  datatype Status = OK | NOT_FOUND | TIMEOUT | RATE_LIMITED | ERROR

  datatype Item = Item(provider: string, status: Status)

  datatype Summary = Summary(ok: nat, notFound: nat, timeout: nat, rateLimited: nat, error: nat, total: nat)

  datatype Response =
    | EmptyBatch
    | BatchTooLarge
    | Broken
    | Details(results: map<Iccid, Item>, summary: Summary, unresolved: seq<Iccid>, filteredOut: seq<Iccid>)

  /** The world outside: routing, the providers that cannot be set up and how
      that reads, and what fetching a SIM comes to. */
  datatype World = World(
    resolve: Iccid -> Resolution,
    setupError: string -> Option<Status>,
    fetch: Route -> Status)

  datatype Request = Request(iccids: seq<Iccid>, providers: set<string>)

  // ---------- Sorting the request ----------

  datatype Class = ToUnresolved | ToFilteredOut | ToResults(route: Route)

  /** Where an ICCID belongs. */
  function Classify(world: World, providers: set<string>, iccid: Iccid): Class
    requires !world.resolve(iccid).Breaks?
  {
    match world.resolve(iccid)
    case Unknown => ToUnresolved
    case Found(route, prefetched) =>
      if providers != {} && route.provider !in providers then ToFilteredOut
      else ToResults(if prefetched.Some? then prefetched.value else route)
  }

  predicate Works(world: World, iccids: seq<Iccid>) { forall i | i in iccids :: !world.resolve(i).Breaks? }

  function ItemFor(world: World, route: Route): Item {
    var error := world.setupError(route.provider);
    Item(route.provider, if error.Some? then error.value else world.fetch(route))
  }

  function Select(world: World, providers: set<string>, iccids: seq<Iccid>, wanted: Class -> bool): seq<Iccid>
    requires Works(world, iccids)
  {
    if iccids == [] then []
    else
      var n := |iccids| - 1;
      Select(world, providers, iccids[..n], wanted) +
      if wanted(Classify(world, providers, iccids[n])) then [iccids[n]] else []
  }

  lemma {:induction false} SelectFacts(world: World, providers: set<string>, iccids: seq<Iccid>, wanted: Class -> bool)
    requires Works(world, iccids)
    ensures var r := Select(world, providers, iccids, wanted);
            (forall i :: i in r <==> i in iccids && wanted(Classify(world, providers, i)))
            && (NoRepeats(iccids) ==> NoRepeats(r))
  {
    if iccids != [] {
      SelectFacts(world, providers, iccids[..|iccids| - 1], wanted);
      assert iccids == iccids[..|iccids| - 1] + [iccids[|iccids| - 1]];
    }
  }

  function Results(world: World, providers: set<string>, iccids: seq<Iccid>): map<Iccid, Item>
    requires Works(world, iccids)
  {
    map i | i in iccids && Classify(world, providers, i).ToResults? ::
      ItemFor(world, Classify(world, providers, i).route)
  }

  // ---------- Counting ----------

  function With(results: map<Iccid, Item>, among: set<Iccid>, status: Status): set<Iccid> {
    set i | i in among && i in results && results[i].status == status
  }

  function Counted(results: map<Iccid, Item>, among: set<Iccid>, total: nat): Summary {
    Summary(|With(results, among, OK)|, |With(results, among, NOT_FOUND)|, |With(results, among, TIMEOUT)|,
            |With(results, among, RATE_LIMITED)|, |With(results, among, ERROR)|, total)
  }

  /** `setattr(summary, item.status, ... + 1)` */
  function Bump(s: Summary, status: Status): Summary {
    match status
    case OK => s.(ok := s.ok + 1)
    case NOT_FOUND => s.(notFound := s.notFound + 1)
    case TIMEOUT => s.(timeout := s.timeout + 1)
    case RATE_LIMITED => s.(rateLimited := s.rateLimited + 1)
    case ERROR => s.(error := s.error + 1)
  }

  lemma WithOneMore(results: map<Iccid, Item>, among: set<Iccid>, i: Iccid, status: Status)
    requires i in results && i !in among
    ensures |With(results, among + {i}, status)|
            == |With(results, among, status)| + if results[i].status == status then 1 else 0
  {
    if results[i].status == status {
      assert With(results, among + {i}, status) == With(results, among, status) + {i};
    } else {
      assert With(results, among + {i}, status) == With(results, among, status);
    }
  }

  lemma CountedOneMore(results: map<Iccid, Item>, among: set<Iccid>, i: Iccid, total: nat)
    requires i in results && i !in among
    ensures Counted(results, among + {i}, total) == Bump(Counted(results, among, total), results[i].status)
  {
    WithOneMore(results, among, i, OK);
    WithOneMore(results, among, i, NOT_FOUND);
    WithOneMore(results, among, i, TIMEOUT);
    WithOneMore(results, among, i, RATE_LIMITED);
    WithOneMore(results, among, i, ERROR);
  }

  function Sum(s: Summary): nat { s.ok + s.notFound + s.timeout + s.rateLimited + s.error }

  /** Every result has one of the five statuses. */
  lemma {:induction false} CountsSum(results: map<Iccid, Item>, among: set<Iccid>)
    requires among <= results.Keys
    ensures Sum(Counted(results, among, |results|)) == |among|
    decreases |among|
  {
    if among != {} {
      var i :| i in among;
      CountsSum(results, among - {i});
      CountedOneMore(results, among - {i}, i, |results|);
      assert among == among - {i} + {i};
    }
  }

  // ---------- The whole request ----------

  function Respond(world: World, maxBatch: nat, request: Request): Response {
    if request.iccids == [] then EmptyBatch
    else if |request.iccids| > maxBatch then BatchTooLarge
    else
      var iccids := Dedupe(request.iccids);
      if !Works(world, iccids) then Broken
      else
        var results := Results(world, request.providers, iccids);
        Details(results, Counted(results, results.Keys, |results|),
                Select(world, request.providers, iccids, (c: Class) => c.ToUnresolved?),
                Select(world, request.providers, iccids, (c: Class) => c.ToFilteredOut?))
  }

  /** Which of the four answers comes: an empty request, one of more than the
      largest batch, repeats counted, and one with an ICCID whose lookup breaks are
      answered with an error; every other request with the details. */
  lemma WhichAnswerComes(world: World, maxBatch: nat, request: Request)
    ensures var r := Respond(world, maxBatch, request);
            (r.EmptyBatch? <==> |request.iccids| == 0)
            && (r.BatchTooLarge? <==> |request.iccids| > 0 && |request.iccids| > maxBatch)
            && (r.Broken? <==> 0 < |request.iccids| <= maxBatch
                               && exists i :: i in request.iccids && world.resolve(i).Breaks?)
            && (r.Details? <==> 0 < |request.iccids| <= maxBatch
                                && forall i | i in request.iccids :: !world.resolve(i).Breaks?)
  {
    DedupeFacts(request.iccids);
  }

  /** Each of the counts is the number of results with its status. */
  lemma CountsAreOfTheirStatus(world: World, maxBatch: nat, request: Request)
    requires Respond(world, maxBatch, request).Details?
    ensures var r := Respond(world, maxBatch, request);
            r.summary.ok == |set i | i in r.results && r.results[i].status == OK|
            && r.summary.notFound == |set i | i in r.results && r.results[i].status == NOT_FOUND|
            && r.summary.timeout == |set i | i in r.results && r.results[i].status == TIMEOUT|
            && r.summary.rateLimited == |set i | i in r.results && r.results[i].status == RATE_LIMITED|
            && r.summary.error == |set i | i in r.results && r.results[i].status == ERROR|
  {
    var r := Respond(world, maxBatch, request);
    assert With(r.results, r.results.Keys, OK) == set i | i in r.results && r.results[i].status == OK;
    assert With(r.results, r.results.Keys, NOT_FOUND) == set i | i in r.results && r.results[i].status == NOT_FOUND;
    assert With(r.results, r.results.Keys, TIMEOUT) == set i | i in r.results && r.results[i].status == TIMEOUT;
    assert With(r.results, r.results.Keys, RATE_LIMITED)
        == set i | i in r.results && r.results[i].status == RATE_LIMITED;
    assert With(r.results, r.results.Keys, ERROR) == set i | i in r.results && r.results[i].status == ERROR;
  }

  /** `part` is left of `whole` when some elements are taken out: it keeps the order. */
  ghost predicate InOrder(part: seq<Iccid>, whole: seq<Iccid>) {
    if part == [] then true
    else whole != [] && if part[|part| - 1] == whole[|whole| - 1] then InOrder(part[..|part| - 1], whole[..|whole| - 1])
                        else InOrder(part, whole[..|whole| - 1])
  }

  lemma {:induction false} SelectInOrder(world: World, providers: set<string>, iccids: seq<Iccid>,
                                         wanted: Class -> bool)
    requires Works(world, iccids) && NoRepeats(iccids)
    ensures InOrder(Select(world, providers, iccids, wanted), iccids)
  {
    if iccids != [] {
      var n := |iccids| - 1;
      var r := Select(world, providers, iccids, wanted);
      SelectInOrder(world, providers, iccids[..n], wanted);
      SelectFacts(world, providers, iccids[..n], wanted);
      if wanted(Classify(world, providers, iccids[n])) {
        assert r[..|r| - 1] == Select(world, providers, iccids[..n], wanted);
      } else {
        assert r == Select(world, providers, iccids[..n], wanted);
        if r != [] { assert r[|r| - 1] in iccids[..n]; }
      }
    }
  }

  /** Both lists keep the order of the request. */
  lemma ListedInOrder(world: World, maxBatch: nat, request: Request)
    requires Respond(world, maxBatch, request).Details?
    ensures var r := Respond(world, maxBatch, request);
            InOrder(r.unresolved, Dedupe(request.iccids)) && InOrder(r.filteredOut, Dedupe(request.iccids))
  {
    DedupeFacts(request.iccids);
    SelectInOrder(world, request.providers, Dedupe(request.iccids), (c: Class) => c.ToUnresolved?);
    SelectInOrder(world, request.providers, Dedupe(request.iccids), (c: Class) => c.ToFilteredOut?);
  }

  /** An ICCID of the request ends up in exactly one of the results, the
      unresolved and the filtered out; any other ICCID in none of them. */
  lemma IccidEndsUpOnce(world: World, maxBatch: nat, request: Request, i: Iccid)
    requires Respond(world, maxBatch, request).Details?
    ensures var r := Respond(world, maxBatch, request);
            var places := (if i in r.results then 1 else 0) + (if i in r.unresolved then 1 else 0)
                          + if i in r.filteredOut then 1 else 0;
            places == if i in request.iccids then 1 else 0
  {
    DedupeFacts(request.iccids);
    SelectFacts(world, request.providers, Dedupe(request.iccids), (c: Class) => c.ToUnresolved?);
    SelectFacts(world, request.providers, Dedupe(request.iccids), (c: Class) => c.ToFilteredOut?);
  }

  /** Nothing is listed twice. */
  lemma ListedOnce(world: World, maxBatch: nat, request: Request)
    requires Respond(world, maxBatch, request).Details?
    ensures var r := Respond(world, maxBatch, request); NoRepeats(r.unresolved) && NoRepeats(r.filteredOut)
  {
    DedupeFacts(request.iccids);
    SelectFacts(world, request.providers, Dedupe(request.iccids), (c: Class) => c.ToUnresolved?);
    SelectFacts(world, request.providers, Dedupe(request.iccids), (c: Class) => c.ToFilteredOut?);
  }

  lemma SameSize(results: map<Iccid, Item>)
    ensures |results.Keys| == |results|
  {
  }

  /** The five counts add up to the number of results. */
  lemma {:induction false} CountsAddUp(world: World, maxBatch: nat, request: Request)
    requires Respond(world, maxBatch, request).Details?
    ensures var r := Respond(world, maxBatch, request); Sum(r.summary) == r.summary.total == |r.results|
  {
    SummaryIsCounted(world, maxBatch, request);
    SumOfSummary(Respond(world, maxBatch, request).results);
  }

  lemma SummaryIsCounted(world: World, maxBatch: nat, request: Request)
    requires Respond(world, maxBatch, request).Details?
    ensures var r := Respond(world, maxBatch, request);
            r.summary == Counted(r.results, r.results.Keys, |r.results|) && r.summary.total == |r.results|
  {
  }

  lemma SumOfSummary(results: map<Iccid, Item>)
    ensures Sum(Counted(results, results.Keys, |results|)) == |results|
  {
    CountsSum(results, results.Keys);
    SameSize(results);
  }

  /** Why it ends up there. A provider that cannot be set up, or a fetch that
      fails, gives its own SIMs a failure status and leaves the others alone. */
  lemma WhereAnIccidEndsUp(world: World, maxBatch: nat, request: Request, i: Iccid)
    requires Respond(world, maxBatch, request).Details? && i in request.iccids
    ensures var r, found := Respond(world, maxBatch, request), world.resolve(i);
            !found.Breaks?
            && (i in r.unresolved <==> found.Unknown?)
            && (i in r.filteredOut <==>
                  found.Found? && request.providers != {} && found.route.provider !in request.providers)
            && (i in r.results ==>
                  found.Found?
                  && var route := if found.prefetched.Some? then found.prefetched.value else found.route;
                     var error := world.setupError(route.provider);
                     r.results[i] == Item(route.provider, if error.Some? then error.value else world.fetch(route)))
  {
    var iccids := Dedupe(request.iccids);
    DedupeFacts(request.iccids);
    SelectFacts(world, request.providers, iccids, (c: Class) => c.ToUnresolved?);
    SelectFacts(world, request.providers, iccids, (c: Class) => c.ToFilteredOut?);
  }

  // ---------- The handler as it runs ----------

  datatype Target = Target(requested: Iccid, route: Route)

  /** The first loop: sort the request. */
  method SortRequest(world: World, providers: set<string>, iccids: seq<Iccid>)
    returns (broken: bool, targets: seq<Target>, unresolved: seq<Iccid>, filteredOut: seq<Iccid>)
    ensures broken == !Works(world, iccids)
    ensures !broken ==>
              unresolved == Select(world, providers, iccids, (c: Class) => c.ToUnresolved?)
              && filteredOut == Select(world, providers, iccids, (c: Class) => c.ToFilteredOut?)
              && Targets(world, providers, iccids, targets)
  {
    broken, targets, unresolved, filteredOut := false, [], [], [];
    for k := 0 to |iccids|
      invariant Works(world, iccids[..k])
      invariant unresolved == Select(world, providers, iccids[..k], (c: Class) => c.ToUnresolved?)
      invariant filteredOut == Select(world, providers, iccids[..k], (c: Class) => c.ToFilteredOut?)
      invariant Targets(world, providers, iccids[..k], targets)
    {
      var iccid := iccids[k];
      assert iccids[..k + 1][..k] == iccids[..k] && iccids[..k + 1] == iccids[..k] + [iccid];
      match world.resolve(iccid) {
        case Breaks =>
          assert iccid in iccids;
          return true, [], [], [];
        case Unknown =>
          unresolved := unresolved + [iccid];
        case Found(route, prefetched) =>
          if providers != {} && route.provider !in providers {
            filteredOut := filteredOut + [iccid];
          } else if prefetched.Some? {
            targets := targets + [Target(iccid, prefetched.value)];
          } else {
            targets := targets + [Target(iccid, route)];
          }
      }
    }
    assert iccids[..|iccids|] == iccids;
  }

  /** The targets are the ICCIDs that go to the results, with their routes. */
  ghost predicate Targets(world: World, providers: set<string>, iccids: seq<Iccid>, targets: seq<Target>)
    requires Works(world, iccids)
  {
    && (forall t | t in targets ::
          t.requested in iccids && Classify(world, providers, t.requested) == ToResults(t.route))
    && (forall i | i in iccids && Classify(world, providers, i).ToResults? ::
          Target(i, Classify(world, providers, i).route) in targets)
  }

  /** The fetches and the dictionary of results. */
  method FetchAll(world: World, targets: seq<Target>) returns (results: map<Iccid, Item>)
    requires forall s, t | s in targets && t in targets && s.requested == t.requested :: s == t
    ensures forall t | t in targets :: t.requested in results && results[t.requested] == ItemFor(world, t.route)
    ensures forall i | i in results :: exists t :: t in targets && t.requested == i
  {
    results := map[];
    for k := 0 to |targets|
      invariant forall j | 0 <= j < k ::
                  targets[j].requested in results && results[targets[j].requested] == ItemFor(world, targets[j].route)
      invariant forall i | i in results :: exists j :: 0 <= j < k && targets[j].requested == i
    {
      assert targets[k] in targets;
      var error := world.setupError(targets[k].route.provider);
      var status := if error.Some? then error.value else world.fetch(targets[k].route);
      results := results[targets[k].requested := Item(targets[k].route.provider, status)];
    }
  }

  /** The summary loop. */
  method Summarize(results: map<Iccid, Item>) returns (summary: Summary)
    ensures summary == Counted(results, results.Keys, |results|)
  {
    summary := Summary(0, 0, 0, 0, 0, |results|);
    var todo := results.Keys;
    assert results.Keys - todo == {};
    while todo != {}
      invariant todo <= results.Keys && summary == Counted(results, results.Keys - todo, |results|)
      decreases |todo|
    {
      var i :| i in todo;
      CountedOneMore(results, results.Keys - todo, i, |results|);
      assert results.Keys - (todo - {i}) == results.Keys - todo + {i};
      summary := Bump(summary, results[i].status);
      todo := todo - {i};
    }
    assert results.Keys - todo == results.Keys;
  }

  method GetSimDetailsBatch(world: World, maxBatch: nat, request: Request) returns (r: Response)
    ensures r == Respond(world, maxBatch, request)
  {
    if request.iccids == [] { return EmptyBatch; }
    if |request.iccids| > maxBatch { return BatchTooLarge; }
    var iccids := Dedupe(request.iccids);
    var broken, targets, unresolved, filteredOut := SortRequest(world, request.providers, iccids);
    if broken { return Broken; }
    var results := FetchAll(world, targets);
    assert results == Results(world, request.providers, iccids);
    var summary := Summarize(results);
    return Details(results, summary, unresolved, filteredOut);
  }
}
