/** Write requests under an idempotency key: claim, provider call, release or
    mark, and one row of audit. Every transaction is one step; between any two
    steps any other request may take its own, or a process may die. */
module Idempotency {

  datatype Key = Key(company: string, key: string)

  /** A request; `keys` tells which key it carries. */
  type Request = nat

  datatype Row = Processing | Processed

  datatype Outcome = REPLAYED | SUCCESS | ERROR

  datatype Audit = Audit(request: Request, outcome: Outcome)

  /** Where a request has got to. `normal` tells whether the handler goes on
      after the audit or raises. */
  datatype Place =
    | Fresh
    | Replaying
    | Claimed
    | Calling
    | Releasing
    | Auditing(outcome: Outcome, normal: bool)
    | Marking
    | Over

  datatype Event =
    | Claim(who: Request)
    | SetupFails(who: Request)
    | CallProvider(who: Request)
    | Return(who: Request)
    | Raise(who: Request)
    | Cancel(who: Request)
    | Release(who: Request)
    | ReleaseFails(who: Request)
    | WriteAudit(who: Request)
    | Mark(who: Request)
    | Crash(who: Request)

  datatype System = System(table: map<Key, Row>, audit: seq<Audit>, places: map<Request, Place>)

  const INITIAL := System(map[], [], map[])

  function At(s: System, i: Request): Place { if i in s.places then s.places[i] else Fresh }

  // ---------- The table ----------

  /** `INSERT ... ON CONFLICT DO NOTHING`. */
  function WithClaim(table: map<Key, Row>, k: Key): map<Key, Row> {
    if k in table then table else table[k := Processing]
  }

  function WithMark(table: map<Key, Row>, k: Key): map<Key, Row> {
    if k in table then table[k := Processed] else table
  }

  function WithoutClaim(table: map<Key, Row>, k: Key): map<Key, Row> {
    if k in table && table[k].Processing? then table - {k} else table
  }

  // ---------- One step ----------

  predicate Allowed(s: System, e: Event) {
    var p := At(s, e.who);
    match e
    case Claim(_) => p.Fresh?
    case SetupFails(_) => p.Claimed?
    case CallProvider(_) => p.Claimed?
    case Return(_) => p.Calling?
    case Raise(_) => p.Calling?
    case Cancel(_) => p.Calling?
    case Release(_) => p.Releasing?
    case ReleaseFails(_) => p.Releasing?
    case WriteAudit(_) => p.Replaying? || p.Auditing?
    case Mark(_) => p.Marking?
    case Crash(_) => !p.Over?
  }

  function NextPlace(s: System, k: Key, e: Event): Place {
    match e
    case Claim(_) => if k in s.table then Replaying else Claimed
    case SetupFails(_) => Over
    case CallProvider(_) => Calling
    case Return(_) => Auditing(SUCCESS, true)
    case Raise(_) => Releasing
    case Cancel(_) => Auditing(SUCCESS, false)
    case Release(_) => Auditing(ERROR, false)
    case ReleaseFails(_) => Auditing(ERROR, false)
    case WriteAudit(i) => if At(s, i).Auditing? && At(s, i).normal then Marking else Over
    case Mark(_) => Over
    case Crash(_) => Over
  }

  function NextTable(table: map<Key, Row>, k: Key, e: Event): map<Key, Row> {
    match e
    case Claim(_) => WithClaim(table, k)
    case Release(_) => WithoutClaim(table, k)
    case Mark(_) => WithMark(table, k)
    case _ => table
  }

  function RowFor(p: Place): Outcome { if p.Auditing? then p.outcome else REPLAYED }

  function Step(keys: Request -> Key, s: System, e: Event): System {
    var k := keys(e.who);
    System(
      NextTable(s.table, k, e),
      if e.WriteAudit? then s.audit + [Audit(e.who, RowFor(At(s, e.who)))] else s.audit,
      s.places[e.who := NextPlace(s, k, e)])
  }

  // ---------- Runs ----------

  function Run(keys: Request -> Key, es: seq<Event>): System {
    if es == [] then INITIAL else Step(keys, Run(keys, es[..|es| - 1]), es[|es| - 1])
  }

  predicate Legal(keys: Request -> Key, es: seq<Event>) {
    es != [] ==> Legal(keys, es[..|es| - 1]) && Allowed(Run(keys, es[..|es| - 1]), es[|es| - 1])
  }

  // ---------- One call at a time ----------

  /** The request may still call the provider, or release its key. */
  predicate Open(p: Place) { p.Claimed? || p.Calling? || p.Releasing? }

  /** Its row in the table is its own. */
  predicate Owns(p: Place) { Open(p) || p.Marking? || (p.Auditing? && (p.outcome.SUCCESS? || p.normal)) }

  ghost predicate Inv(keys: Request -> Key, s: System) {
    && (forall i | Owns(At(s, i)) :: keys(i) in s.table && s.table[keys(i)].Processing?)
    && (forall i, j | Owns(At(s, i)) && Owns(At(s, j)) && keys(i) == keys(j) :: i == j)
  }

  lemma StepKeepsInv(keys: Request -> Key, s: System, e: Event)
    requires Inv(keys, s) && Allowed(s, e)
    ensures Inv(keys, Step(keys, s, e))
  {
    var t := Step(keys, s, e);
    assert forall i | i != e.who :: At(t, i) == At(s, i);
    assert Owns(At(t, e.who)) ==> Owns(At(s, e.who)) || (e.Claim? && keys(e.who) !in s.table);
  }

  lemma {:induction false} RunKeepsInv(keys: Request -> Key, es: seq<Event>)
    requires Legal(keys, es)
    ensures Inv(keys, Run(keys, es))
  {
    if es != [] {
      RunKeepsInv(keys, es[..|es| - 1]);
      StepKeepsInv(keys, Run(keys, es[..|es| - 1]), es[|es| - 1]);
    }
  }

  /** However requests interleave and die, a key never has two provider calls
      in flight. */
  lemma {:induction false} OneCallInFlight(keys: Request -> Key, es: seq<Event>, i: Request, j: Request)
    requires Legal(keys, es) && keys(i) == keys(j)
    requires At(Run(keys, es), i).Calling? && At(Run(keys, es), j).Calling?
    ensures i == j
  {
    RunKeepsInv(keys, es);
  }

  // ---------- At most one normal return ----------

  /** The key is taken, and nobody is left who could release it or call. */
  ghost predicate Settled(keys: Request -> Key, s: System, k: Key) {
    k in s.table && forall i | keys(i) == k :: !Open(At(s, i))
  }

  lemma StepKeepsSettled(keys: Request -> Key, s: System, e: Event, k: Key)
    requires Allowed(s, e) && Settled(keys, s, k)
    ensures Settled(keys, Step(keys, s, e), k)
  {
    var t := Step(keys, s, e);
    assert forall i | i != e.who :: At(t, i) == At(s, i);
  }

  /** The step ends a request that held its key, and leaves the key taken: a
      normal return, and also a cancelled call, a failed setup, a failed
      release, or a crash after the claim. */
  predicate Seals(s: System, e: Event) {
    e.Return? || e.Cancel? || e.SetupFails? || e.ReleaseFails? || (e.Crash? && Open(At(s, e.who)))
  }

  lemma SealSettles(keys: Request -> Key, s: System, e: Event)
    requires Inv(keys, s) && Allowed(s, e) && Seals(s, e)
    ensures Settled(keys, Step(keys, s, e), keys(e.who))
  {
    var t := Step(keys, s, e);
    assert forall i | i != e.who :: At(t, i) == At(s, i);
    assert Owns(At(s, e.who));
  }

  lemma {:induction false} PrefixIsLegal(keys: Request -> Key, es: seq<Event>, m: nat)
    requires Legal(keys, es) && m <= |es|
    ensures Legal(keys, es[..m])
  {
    if m == |es| {
      assert es[..m] == es;
    } else {
      PrefixIsLegal(keys, es[..|es| - 1], m);
      assert es[..|es| - 1][..m] == es[..m];
    }
  }

  /** Each step of a legal run is allowed where it happens. */
  lemma {:induction false} StepOfRun(keys: Request -> Key, es: seq<Event>, m: nat)
    requires Legal(keys, es) && m < |es|
    ensures Legal(keys, es[..m]) && Allowed(Run(keys, es[..m]), es[m])
    ensures Run(keys, es[..m + 1]) == Step(keys, Run(keys, es[..m]), es[m])
  {
    PrefixIsLegal(keys, es, m + 1);
    assert es[..m + 1][..m] == es[..m];
  }

  lemma {:induction false} SealIsPermanent(keys: Request -> Key, es: seq<Event>, k: nat, m: nat)
    requires Legal(keys, es) && k < m <= |es| && Seals(Run(keys, es[..k]), es[k])
    ensures Settled(keys, Run(keys, es[..m]), keys(es[k].who))
  {
    if m == k + 1 {
      StepOfRun(keys, es, k);
      RunKeepsInv(keys, es[..k]);
      SealSettles(keys, Run(keys, es[..k]), es[k]);
    } else {
      SealIsPermanent(keys, es, k, m - 1);
      StepOfRun(keys, es, m - 1);
      StepKeepsSettled(keys, Run(keys, es[..m - 1]), es[m - 1], keys(es[k].who));
    }
  }

  /** Once a call has returned normally, every later claim of the key fails and
      the provider is never called under it again. */
  lemma {:induction false} NothingAfterSeal(keys: Request -> Key, es: seq<Event>, k: nat, m: nat)
    requires Legal(keys, es) && k < m < |es| && Seals(Run(keys, es[..k]), es[k])
    requires keys(es[m].who) == keys(es[k].who)
    ensures !es[m].CallProvider? && !es[m].Return?
    ensures es[m].Claim? ==> At(Run(keys, es[..m + 1]), es[m].who).Replaying?
  {
    SealIsPermanent(keys, es, k, m);
    StepOfRun(keys, es, m);
  }

  /** A key has at most one call that ever returns normally. */
  lemma {:induction false} OneReturn(keys: Request -> Key, es: seq<Event>, k: nat, m: nat)
    requires Legal(keys, es) && k < |es| && m < |es| && es[k].Return? && es[m].Return?
    requires keys(es[k].who) == keys(es[m].who)
    ensures k == m
  {
    if k < m { NothingAfterSeal(keys, es, k, m); }
    if m < k { NothingAfterSeal(keys, es, m, k); }
  }

  // ---------- Rows of the table ----------

  ghost predicate IsProcessed(table: map<Key, Row>, k: Key) { k in table && table[k].Processed? }

  lemma StepKeepsProcessed(keys: Request -> Key, s: System, e: Event, k: Key)
    requires IsProcessed(s.table, k)
    ensures IsProcessed(Step(keys, s, e).table, k)
  {
  }

  lemma MarkMakesProcessed(keys: Request -> Key, s: System, e: Event)
    requires Inv(keys, s) && Allowed(s, e) && e.Mark?
    ensures IsProcessed(Step(keys, s, e).table, keys(e.who))
  {
    assert Owns(At(s, e.who));
  }

  /** Once a request has marked its key, the row says processed for good. */
  lemma {:induction false} MarkedIsProcessed(keys: Request -> Key, es: seq<Event>, k: nat, m: nat)
    requires Legal(keys, es) && k < m <= |es| && es[k].Mark?
    ensures IsProcessed(Run(keys, es[..m]).table, keys(es[k].who))
  {
    StepOfRun(keys, es, m - 1);
    if m == k + 1 {
      RunKeepsInv(keys, es[..k]);
      MarkMakesProcessed(keys, Run(keys, es[..k]), es[k]);
    } else {
      MarkedIsProcessed(keys, es, k, m - 1);
      StepKeepsProcessed(keys, Run(keys, es[..m - 1]), es[m - 1], keys(es[k].who));
    }
  }

  /** Only four steps touch the table, and only at the request's own key: a claim of
      a free key makes a processing row, a release removes one, a mark turns it into
      a processed one. A claim of a taken key is a replay and leaves it alone. */
  lemma {:induction false} TableChangesIff(keys: Request -> Key, es: seq<Event>, n: nat, k: Key)
    requires Legal(keys, es) && n < |es|
    ensures var s, t := Run(keys, es[..n]), Run(keys, es[..n + 1]);
            var e := es[n];
            if k == keys(e.who) && e.Claim? && k !in s.table
            then k in t.table && t.table[k].Processing? && At(t, e.who).Claimed?
            else if k == keys(e.who) && e.Release? then k in s.table && k !in t.table
            else if k == keys(e.who) && e.Mark?
            then k in s.table && s.table[k].Processing? && k in t.table && t.table[k].Processed?
            else (k in t.table <==> k in s.table) && (k in s.table ==> t.table[k] == s.table[k])
    ensures es[n].Claim? && keys(es[n].who) in Run(keys, es[..n]).table ==>
              At(Run(keys, es[..n + 1]), es[n].who).Replaying?
  {
    StepOfRun(keys, es, n);
    RunKeepsInv(keys, es[..n]);
    assert Owns(At(Run(keys, es[..n]), es[n].who)) ==>
             keys(es[n].who) in Run(keys, es[..n]).table && Run(keys, es[..n]).table[keys(es[n].who)].Processing?;
  }

  // ---------- Release and retry ----------

  /** A failed call frees its key: releasing deletes the request's own row, so
      the next claim succeeds. It never deletes a processed row. */
  lemma {:induction false} ReleaseFreesKey(keys: Request -> Key, es: seq<Event>, i: Request, j: Request)
    requires Legal(keys, es) && At(Run(keys, es), i).Releasing? && At(Run(keys, es), j).Fresh? && keys(i) == keys(j)
    ensures keys(i) in Run(keys, es).table && Run(keys, es).table[keys(i)].Processing?
    ensures At(Run(keys, es + [Release(i), Claim(j)]), j).Claimed?
  {
    RunKeepsInv(keys, es);
    var fs := es + [Release(i), Claim(j)];
    assert Owns(At(Run(keys, es), i));
    assert fs[..|es| + 1] == es + [Release(i)] && (es + [Release(i)])[..|es|] == es;
  }

  // ---------- Audit ----------

  /** The audit rows of one request. */
  function RowsOf(audit: seq<Audit>, i: Request): seq<Outcome> {
    if audit == [] then []
    else RowsOf(audit[..|audit| - 1], i) + if audit[|audit| - 1].request == i then [audit[|audit| - 1].outcome] else []
  }

  lemma {:induction false} RowsOfSnoc(audit: seq<Audit>, row: Audit, i: Request)
    ensures RowsOf(audit + [row], i) == RowsOf(audit, i) + if row.request == i then [row.outcome] else []
  {
    assert (audit + [row])[..|audit|] == audit;
  }

  /** What has happened to a request. */
  datatype Facts = Facts(returned: bool, raised: bool, cancelled: bool, setupFailed: bool, crashed: bool)

  function FactsOf(es: seq<Event>, i: Request): Facts {
    Facts(Return(i) in es, Raise(i) in es, Cancel(i) in es, SetupFails(i) in es, Crash(i) in es)
  }

  function More(f: Facts, e: Event): Facts {
    Facts(f.returned || e.Return?, f.raised || e.Raise?, f.cancelled || e.Cancel?,
          f.setupFailed || e.SetupFails?, f.crashed || e.Crash?)
  }

  lemma FactsOfSnoc(es: seq<Event>, e: Event, i: Request)
    ensures FactsOf(es + [e], i) == if e.who == i then More(FactsOf(es, i), e) else FactsOf(es, i)
  {
  }

  /** What a request's audit row says, if it gets one. */
  function Verdict(f: Facts): Outcome {
    if f.returned || f.cancelled then SUCCESS else if f.raised then ERROR else REPLAYED
  }

  /** How a request's place, its audit rows and what has happened to it fit. */
  predicate Story(p: Place, rows: seq<Outcome>, f: Facts) {
    var called := f.returned || f.raised || f.cancelled;
    match p
    case Fresh => rows == [] && f == Facts(false, false, false, false, false)
    case Replaying => rows == [] && f == Facts(false, false, false, false, false)
    case Claimed => rows == [] && f == Facts(false, false, false, false, false)
    case Calling => rows == [] && f == Facts(false, false, false, false, false)
    case Releasing => rows == [] && f == Facts(false, true, false, false, false)
    case Auditing(outcome, normal) =>
      rows == [] && called && !f.setupFailed && !f.crashed && outcome == Verdict(f) && normal == f.returned
    case Marking => rows == [SUCCESS] && f.returned && !f.setupFailed && !f.crashed
    case Over =>
      (rows == [] || rows == [Verdict(f)]) && (f.setupFailed ==> !called)
      && (!f.setupFailed && !f.crashed ==> rows != [])
  }

  ghost predicate Told(s: System, es: seq<Event>, i: Request) {
    Story(At(s, i), RowsOf(s.audit, i), FactsOf(es, i))
  }

  lemma OwnStep(s: System, k: Key, e: Event, rows: seq<Outcome>, f: Facts)
    requires Allowed(s, e) && Story(At(s, e.who), rows, f)
    ensures Story(NextPlace(s, k, e), rows + if e.WriteAudit? then [RowFor(At(s, e.who))] else [], More(f, e))
  {
  }

  lemma {:induction false} StepRows(keys: Request -> Key, s: System, e: Event, i: Request)
    ensures RowsOf(Step(keys, s, e).audit, i)
            == RowsOf(s.audit, i) + if e.WriteAudit? && e.who == i then [RowFor(At(s, i))] else []
  {
    if e.WriteAudit? { RowsOfSnoc(s.audit, Audit(e.who, RowFor(At(s, e.who))), i); }
  }

  lemma {:induction false} RunTellsStory(keys: Request -> Key, es: seq<Event>, i: Request)
    requires Legal(keys, es)
    ensures Told(Run(keys, es), es, i)
  {
    if es != [] {
      var n := |es| - 1;
      var s, e := Run(keys, es[..n]), es[n];
      RunTellsStory(keys, es[..n], i);
      assert es == es[..n] + [e];
      FactsOfSnoc(es[..n], e, i);
      StepRows(keys, s, e, i);
      if e.who == i { OwnStep(s, keys(i), e, RowsOf(s.audit, i), FactsOf(es[..n], i)); }
    }
  }

  /** A request that is over, was not killed, and failed its claim or reached the
      provider, has exactly one audit row. */
  lemma {:induction false} OneAuditRow(keys: Request -> Key, es: seq<Event>, i: Request)
    requires Legal(keys, es) && At(Run(keys, es), i).Over? && Crash(i) !in es && SetupFails(i) !in es
    ensures RowsOf(Run(keys, es).audit, i) == [Verdict(FactsOf(es, i))]
  {
    RunTellsStory(keys, es, i);
  }

  /** Crash, cancellation and all: never two rows, and never one that
      contradicts the verdict. */
  lemma {:induction false} AtMostOneAuditRow(keys: Request -> Key, es: seq<Event>, i: Request)
    requires Legal(keys, es)
    ensures RowsOf(Run(keys, es).audit, i) == [] || RowsOf(Run(keys, es).audit, i) == [Verdict(FactsOf(es, i))]
  {
    RunTellsStory(keys, es, i);
  }

  /** An audit row says "success" exactly for a call that returned normally or
      was cancelled in flight: without cancellation, exactly for a normal return. */
  lemma {:induction false} SuccessRowIff(keys: Request -> Key, es: seq<Event>, i: Request)
    requires Legal(keys, es) && RowsOf(Run(keys, es).audit, i) != []
    ensures SUCCESS in RowsOf(Run(keys, es).audit, i) <==> Return(i) in es || Cancel(i) in es
  {
    AtMostOneAuditRow(keys, es, i);
  }

  lemma {:induction false} OneMoreStep(keys: Request -> Key, es: seq<Event>, e: Event)
    requires Legal(keys, es) && Allowed(Run(keys, es), e)
    ensures Legal(keys, es + [e]) && Run(keys, es + [e]) == Step(keys, Run(keys, es), e)
  {
    assert (es + [e])[..|es|] == es;
  }

  /** A cancelled call, once its handler is over. */
  function CancelAndAudit(es: seq<Event>, i: Request): seq<Event> { es + [Cancel(i)] + [WriteAudit(i)] }

  lemma {:induction false} CancelledCallEnds(keys: Request -> Key, es: seq<Event>, i: Request)
    requires Legal(keys, es) && At(Run(keys, es), i).Calling?
    ensures var fs := CancelAndAudit(es, i);
            Legal(keys, fs) && At(Run(keys, fs), i).Over? && Settled(keys, Run(keys, fs), keys(i))
  {
    var s := Run(keys, es);
    RunKeepsInv(keys, es);
    OneMoreStep(keys, es, Cancel(i));
    SealSettles(keys, s, Cancel(i));
    var t := Step(keys, s, Cancel(i));
    OneMoreStep(keys, es + [Cancel(i)], WriteAudit(i));
    StepKeepsSettled(keys, t, WriteAudit(i), keys(i));
  }

  /** Its row says "success", though nothing was returned, and the key stays taken. */
  lemma {:induction false} CancelledCallAuditsSuccess(keys: Request -> Key, es: seq<Event>, i: Request)
    requires Legal(keys, es) && At(Run(keys, es), i).Calling?
    ensures var fs := CancelAndAudit(es, i);
            Legal(keys, fs) && RowsOf(Run(keys, fs).audit, i) == [SUCCESS] && Return(i) !in fs
            && Settled(keys, Run(keys, fs), keys(i))
  {
    RunTellsStory(keys, es, i);
    CancelledCallEnds(keys, es, i);
    FactsOfSnoc(es, Cancel(i), i);
    FactsOfSnoc(es + [Cancel(i)], WriteAudit(i), i);
    OneAuditRow(keys, CancelAndAudit(es, i), i);
  }

  // ---------- The table and the handler ----------

  /** How the provider call of a handler ends, when nothing interrupts it. */
  datatype Answer = Fine | Failure

  class Store {
    const keys: Request -> Key
    var table: map<Key, Row>
    var audit: seq<Audit>
    ghost var places: map<Request, Place>
    ghost var trace: seq<Event>

    ghost predicate Valid()
      reads this
    {
      Legal(keys, trace) && System(table, audit, places) == Run(keys, trace)
    }

    ghost function State(): System
      reads this
    {
      System(table, audit, places)
    }

    constructor (keys: Request -> Key)
      ensures Valid() && trace == [] && this.keys == keys
    {
      this.keys := keys;
      table, audit, places, trace := map[], [], map[], [];
    }

    ghost method Note(e: Event)
      requires Legal(keys, trace) && Allowed(Run(keys, trace), e)
      requires System(table, audit, Step(keys, Run(keys, trace), e).places) == Step(keys, Run(keys, trace), e)
      modifies this`places, this`trace
      ensures Valid() && trace == old(trace) + [e]
      ensures At(State(), e.who) == NextPlace(Run(keys, old(trace)), keys(e.who), e)
    {
      OneMoreStep(keys, trace, e);
      places := Step(keys, Run(keys, trace), e).places;
      trace := trace + [e];
    }

    method ClaimKey(i: Request) returns (claimed: bool)
      requires Valid() && Allowed(State(), Claim(i))
      modifies this
      ensures Valid() && trace == old(trace) + [Claim(i)]
      ensures At(State(), i) == NextPlace(Run(keys, old(trace)), keys(i), Claim(i))
      ensures claimed == (keys(i) !in old(table))
    {
      claimed := keys(i) !in table;
      if claimed { table := table[keys(i) := Processing]; }
      Note(Claim(i));
    }

    method MarkProcessed(i: Request)
      requires Valid() && Allowed(State(), Mark(i))
      modifies this
      ensures Valid() && trace == old(trace) + [Mark(i)]
      ensures At(State(), i) == NextPlace(Run(keys, old(trace)), keys(i), Mark(i))
    {
      if keys(i) in table { table := table[keys(i) := Processed]; }
      Note(Mark(i));
    }

    method ReleaseKey(i: Request)
      requires Valid() && Allowed(State(), Release(i))
      modifies this
      ensures Valid() && trace == old(trace) + [Release(i)]
      ensures At(State(), i) == NextPlace(Run(keys, old(trace)), keys(i), Release(i))
    {
      if keys(i) in table && table[keys(i)] == Processing { table := table - {keys(i)}; }
      Note(Release(i));
    }

    method WriteRow(i: Request, outcome: Outcome)
      requires Valid() && Allowed(State(), WriteAudit(i)) && outcome == RowFor(At(State(), i))
      modifies this
      ensures Valid() && trace == old(trace) + [WriteAudit(i)]
      ensures At(State(), i) == NextPlace(Run(keys, old(trace)), keys(i), WriteAudit(i))
    {
      audit := audit + [Audit(i, outcome)];
      Note(WriteAudit(i));
    }

    /** The `try` statement of a handler and what follows it. */
    method CallAndRecord(i: Request, answer: Answer)
      requires Valid() && At(State(), i).Claimed?
      modifies this
      ensures Valid()
      ensures trace == old(trace) +
                if answer.Fine? then [CallProvider(i), Return(i), WriteAudit(i), Mark(i)]
                else [CallProvider(i), Raise(i), Release(i), WriteAudit(i)]
    {
      Note(CallProvider(i));
      if answer == Fine { CallReturns(i); } else { CallRaises(i); }
    }

    method CallReturns(i: Request)
      requires Valid() && At(State(), i).Calling?
      modifies this
      ensures Valid() && trace == old(trace) + [Return(i), WriteAudit(i), Mark(i)]
    {
      Note(Return(i));
      WriteRow(i, SUCCESS);
      MarkProcessed(i);
    }

    method CallRaises(i: Request)
      requires Valid() && At(State(), i).Calling?
      modifies this
      ensures Valid() && trace == old(trace) + [Raise(i), Release(i), WriteAudit(i)]
    {
      Note(Raise(i));
      ReleaseKey(i);
      WriteRow(i, ERROR);
    }

    /** `set_status` and `purge_sim`, undisturbed. */
    method Handle(i: Request, setupWorks: bool, answer: Answer)
      requires Valid() && At(State(), i).Fresh?
      modifies this
      ensures Valid()
      ensures trace == old(trace) + [Claim(i)] +
                if keys(i) in old(table) then [WriteAudit(i)]
                else if !setupWorks then [SetupFails(i)]
                else if answer.Fine? then [CallProvider(i), Return(i), WriteAudit(i), Mark(i)]
                else [CallProvider(i), Raise(i), Release(i), WriteAudit(i)]
    {
      var claimed := ClaimKey(i);
      if !claimed {
        WriteRow(i, REPLAYED);
      } else if !setupWorks {
        Note(SetupFails(i));
      } else {
        CallAndRecord(i, answer);
      }
    }
  }
}
