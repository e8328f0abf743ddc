/** Recurring rules, their occurrences, and the drafts that occurrences become. */
module Planning {
  import opened Common
  import opened Ledger
  import opened History
  import Transactions
  import Runs

  datatype Rule = Rule(
    account: nat,
    kind: Kind,
    amount: int,
    currency: Currency,
    category: Option<nat>,
    nextDueAt: Time,
    autoDraft: bool,
    active: bool,
    version: nat)

  datatype OccurrenceStatus = Due | DraftCreated | Recorded | Skipped

  datatype Occurrence = Occurrence(rule: nat, scheduledFor: Time, status: OccurrenceStatus, transaction: Option<nat>)

  datatype Plan = Plan(ledger: State, rules: seq<Rule>, occurrences: seq<Occurrence>)

  /** The next due time of a rule in its time zone, and the catalogue checks on the draft of a rule. */
  type Advance = (Rule, Time) -> Time
  type Checks = nat -> Option<Error>

  // ---- The invariant ----

  /** An occurrence carries a draft exactly while it is marked so, and once recorded its transaction was posted. */
  predicate OccurrenceFits(p: Plan, o: Occurrence) {
    && o.rule < |p.rules|
    && (o.transaction.Some? <==> o.status == DraftCreated || o.status == Recorded)
    && (o.transaction.Some? ==> o.transaction.value < |p.ledger.movements|)
    && (o.status == DraftCreated ==> p.ledger.movements[o.transaction.value].status == Status.Draft)
    && (o.status == Recorded ==> AffectsBalance(p.ledger.movements[o.transaction.value].status))
  }

  predicate OneEach(os: seq<Occurrence>) {
    forall i, j :: 0 <= i < j < |os| ==>
      && !(os[i].rule == os[j].rule && os[i].scheduledFor == os[j].scheduledFor)
      && (os[i].transaction.Some? ==> os[i].transaction != os[j].transaction)
  }

  ghost predicate PlanSound(p: Plan) {
    OneEach(p.occurrences) && forall i :: 0 <= i < |p.occurrences| ==> OccurrenceFits(p, p.occurrences[i])
  }

  // ---- Processing what is due ----

  predicate HasOccurrence(os: seq<Occurrence>, rule: nat, at: Time) {
    exists i :: 0 <= i < |os| && os[i].rule == rule && os[i].scheduledFor == at
  }

  function DraftOf(rule: Rule, at: Time): Transactions.DraftFields {
    Transactions.DraftFields(rule.account, rule.kind, rule.amount, rule.currency, at, rule.category)
  }

  /** Adds the occurrence of a rule, with its draft when the rule asks for one. */
  function AddOccurrence(p: Plan, r: nat, at: Time, check: Option<Error>): Result<Plan>
    requires r < |p.rules|
  {
    if p.rules[r].autoDraft then
      var ledger :- Transactions.CreateDraft(p.ledger, DraftOf(p.rules[r], at), check);
      Ok(p.(ledger := ledger,
            occurrences := p.occurrences + [Occurrence(r, at, DraftCreated, Some(|p.ledger.movements|))]))
    else Ok(p.(occurrences := p.occurrences + [Occurrence(r, at, Due, None)]))
  }

  function Advanced(p: Plan, r: nat, advance: Advance): Plan
    requires r < |p.rules|
  {
    var rule := p.rules[r];
    p.(rules := p.rules[r := rule.(nextDueAt := advance(rule, rule.nextDueAt), version := rule.version + 1)])
  }

  function ProcessRule(p: Plan, r: nat, advance: Advance, checks: Checks): Result<Plan> {
    var _ :- Need(r < |p.rules|, RecurringRuleNotFound);
    var at := p.rules[r].nextDueAt;
    if HasOccurrence(p.occurrences, r, at) then Ok(Advanced(p, r, advance)) else
    var added :- AddOccurrence(p, r, at, checks(r));
    if r < |added.rules| then Ok(Advanced(added, r, advance)) else Err(RecurringRuleNotFound)
  }

  function ProcessRules(p: Plan, due: seq<nat>, advance: Advance, checks: Checks): Result<Plan>
    decreases |due|
  {
    if |due| == 0 then Ok(p) else
    var next :- ProcessRule(p, due[0], advance, checks);
    ProcessRules(next, due[1..], advance, checks)
  }

  lemma ProcessNext(p: Plan, due: seq<nat>, k: nat, advance: Advance, checks: Checks)
    requires k < |due|
    ensures ProcessRules(p, due[k..], advance, checks)
         == match ProcessRule(p, due[k], advance, checks)
            case Ok(next) => ProcessRules(next, due[k + 1..], advance, checks)
            case Err(e) => Err(e)
  {
    assert due[k..][1..] == due[k + 1..];
  }

  /** A row that the query for due rules may return; rows that are locked elsewhere are skipped. */
  predicate IsDue(p: Plan, r: nat, now: Time) { r < |p.rules| && p.rules[r].active && p.rules[r].nextDueAt <= now }

  // ---- Recording, skipping, posting, editing ----

  function RecordOccurrence(p: Plan, o: nat, check: Option<Error>): Result<Plan> {
    var _ :- Need(o < |p.occurrences|, OccurrenceNotFound);
    var occurrence := p.occurrences[o];
    if occurrence.status == DraftCreated then Ok(p) else
    var _ :- Need(occurrence.status == Due, OccurrenceNotRecordable);
    var _ :- Need(occurrence.rule < |p.rules|, RecurringRuleNotFound);
    var ledger :- Transactions.CreateDraft(p.ledger, DraftOf(p.rules[occurrence.rule], occurrence.scheduledFor), check);
    var drafted := occurrence.(status := DraftCreated, transaction := Some(|p.ledger.movements|));
    Ok(p.(ledger := ledger, occurrences := p.occurrences[o := drafted]))
  }

  function SkipOccurrence(p: Plan, o: nat): Result<Plan> {
    var _ :- Need(o < |p.occurrences|, OccurrenceNotFound);
    var _ :- Need(p.occurrences[o].status == Due, OccurrenceNotSkippable);
    Ok(p.(occurrences := p.occurrences[o := p.occurrences[o].(status := Skipped)]))
  }

  predicate Waits(o: Occurrence, id: nat) { o.transaction == Some(id) && o.status == DraftCreated }

  /** The draft's occurrence becomes recorded. */
  function Linked(os: seq<Occurrence>, id: nat): seq<Occurrence> {
    seq(|os|, i requires 0 <= i < |os| => if Waits(os[i], id) then os[i].(status := Recorded) else os[i])
  }

  function PostLinked(p: Plan, now: Time, id: nat, version: nat, details: Option<Error>): Result<Plan> {
    var ledger :- Transactions.Post(p.ledger, now, id, version, details);
    Ok(p.(ledger := ledger, occurrences := Linked(p.occurrences, id)))
  }

  function AddRule(p: Plan, rule: Rule, check: Option<Error>): Result<Plan> {
    var _ :- Transactions.NoError(check);
    Ok(p.(rules := p.rules + [rule.(active := true, version := 1)]))
  }

  /** Any field but the kind may change, the next due time backwards too. */
  function EditRule(p: Plan, r: nat, version: nat, target: Rule, check: Option<Error>): Result<Plan> {
    var _ :- Need(r < |p.rules|, RecurringRuleNotFound);
    var _ :- Need(p.rules[r].version == version, VersionConflict);
    var _ :- Transactions.NoError(check);
    Ok(p.(rules := p.rules[r := target.(kind := p.rules[r].kind, version := version + 1)]))
  }

  class Planner {
    var ledger: State
    var rules: seq<Rule>
    var occurrences: seq<Occurrence>

    constructor ()
      ensures Tables() == Plan(EMPTY, [], []) && PlanSound(Tables())
    {
      ledger, rules, occurrences := EMPTY, [], [];
    }

    function Tables(): Plan
      reads this
    {
      Plan(ledger, rules, occurrences)
    }

    /** One occurrence for each rule that is due, none of them twice. */
    method ProcessDue(now: Time, due: seq<nat>, advance: Advance, checks: Checks) returns (r: Result<Unit>)
      requires PlanSound(Tables()) && forall i :: 0 <= i < |due| ==> IsDue(Tables(), due[i], now)
      modifies this
      ensures PlanSound(Tables())
      ensures match ProcessRules(old(Tables()), due, advance, checks)
              case Ok(p) => r.Ok? && Tables() == p
              case Err(e) => r == Err(e) && Tables() == old(Tables())
    {
      ghost var begun := Tables();
      var ledger0, rules0, occurrences0 := ledger, rules, occurrences;
      for k := 0 to |due|
        invariant PlanSound(Tables()) && |rules| == |begun.rules|
        invariant ProcessRules(Tables(), due[k..], advance, checks) == ProcessRules(begun, due, advance, checks)
      {
        ProcessNext(Tables(), due, k, advance, checks);
        ProcessKeepsPlan(Tables(), due[k], advance, checks);
        var processed := ProcessOne(due[k], advance, checks);
        if processed.Err? {
          ledger, rules, occurrences := ledger0, rules0, occurrences0;
          return processed;
        }
      }
      r := Ok(Unit);
    }

    /** One turn of the loop: the occurrence that is due, with its draft if the rule asks for one, and the next date. */
    method ProcessOne(id: nat, advance: Advance, checks: Checks) returns (r: Result<Unit>)
      requires id < |rules|
      modifies this
      ensures match ProcessRule(old(Tables()), id, advance, checks)
              case Ok(p) => r.Ok? && Tables() == p
              case Err(e) => r == Err(e)
    {
      var rule := rules[id];
      var scheduled := rule.nextDueAt;
      if !HasOccurrence(occurrences, id, scheduled) {
        var occurrence := Occurrence(id, scheduled, Due, None);
        if rule.autoDraft {
          var drafted := Transactions.CreateDraft(ledger, DraftOf(rule, scheduled), checks(id));
          if drafted.Err? {
            return Err(drafted.error);
          }
          occurrence := occurrence.(transaction := Some(|ledger.movements|));
          occurrence := occurrence.(status := DraftCreated);
          ledger := drafted.value;
        }
        occurrences := occurrences + [occurrence];
      }
      rule := rule.(nextDueAt := advance(rule, scheduled));
      rule := rule.(version := rule.version + 1);
      rules := rules[id := rule];
      r := Ok(Unit);
    }

    method Record(o: nat, check: Option<Error>) returns (r: Result<Unit>)
      requires PlanSound(Tables())
      modifies this
      ensures PlanSound(Tables())
      ensures match RecordOccurrence(old(Tables()), o, check)
              case Ok(p) => r.Ok? && Tables() == p
              case Err(e) => r == Err(e) && Tables() == old(Tables())
    {
      RecordKeepsPlan(Tables(), o, check);
      if o >= |occurrences| {
        return Err(OccurrenceNotFound);
      }
      var occurrence := occurrences[o];
      if occurrence.status == DraftCreated {
        return Ok(Unit);
      }
      if occurrence.status != Due {
        return Err(OccurrenceNotRecordable);
      }
      if occurrence.rule >= |rules| {
        return Err(RecurringRuleNotFound);
      }
      var drafted := Transactions.CreateDraft(ledger, DraftOf(rules[occurrence.rule], occurrence.scheduledFor), check);
      if drafted.Err? {
        return Err(drafted.error);
      }
      occurrence := occurrence.(transaction := Some(|ledger.movements|));
      occurrence := occurrence.(status := DraftCreated);
      ledger := drafted.value;
      occurrences := occurrences[o := occurrence];
      r := Ok(Unit);
    }

    /** The transaction service posts a draft and, if an occurrence waits for it, records the occurrence. */
    method PostTransaction(now: Time, id: nat, version: nat, details: Option<Error>) returns (r: Result<Unit>)
      requires PlanSound(Tables())
      modifies this
      ensures PlanSound(Tables())
      ensures match PostLinked(old(Tables()), now, id, version, details)
              case Ok(p) => r.Ok? && Tables() == p
              case Err(e) => r == Err(e) && Tables() == old(Tables())
    {
      var posted := Transactions.Post(ledger, now, id, version, details);
      if posted.Err? {
        return Err(posted.error);
      }
      PostKeepsPlan(Tables(), now, id, version, details);
      ghost var before := occurrences;
      ledger := posted.value;
      if i :| 0 <= i < |occurrences| && Waits(occurrences[i], id) {
        occurrences := occurrences[i := occurrences[i].(status := Recorded)];
      }
      assert occurrences == Linked(before, id);
      r := Ok(Unit);
    }

    method Skip(o: nat) returns (r: Result<Unit>)
      requires PlanSound(Tables())
      modifies this`occurrences
      ensures PlanSound(Tables())
      ensures match SkipOccurrence(old(Tables()), o)
              case Ok(p) => r.Ok? && Tables() == p
              case Err(e) => r == Err(e) && Tables() == old(Tables())
    {
      SkipKeepsPlan(Tables(), o);
      if o >= |occurrences| {
        return Err(OccurrenceNotFound);
      }
      if occurrences[o].status != Due {
        return Err(OccurrenceNotSkippable);
      }
      occurrences := occurrences[o := occurrences[o].(status := Skipped)];
      r := Ok(Unit);
    }
  }

  // ---- Every step keeps the plan sound ----

  /** Whatever happens to the ledger, posted rows stay posted, drafts that are not touched stay drafts. */
  ghost predicate DraftsStay(before: seq<Movement>, after: seq<Movement>) {
    |before| <= |after| && forall i :: 0 <= i < |before| ==>
      && (before[i].status == Status.Draft ==> after[i].status == Status.Draft)
      && (AffectsBalance(before[i].status) ==> AffectsBalance(after[i].status))
  }

  lemma LedgerStepKeepsPlan(p: Plan, ledger: State)
    requires PlanSound(p) && DraftsStay(p.ledger.movements, ledger.movements)
    ensures PlanSound(p.(ledger := ledger))
  {
  }

  lemma ProcessKeepsPlan(p: Plan, r: nat, advance: Advance, checks: Checks)
    requires PlanSound(p)
    ensures ProcessRule(p, r, advance, checks).Ok? ==>
      && PlanSound(ProcessRule(p, r, advance, checks).value)
      && |ProcessRule(p, r, advance, checks).value.rules| == |p.rules|
  {
  }

  lemma ProcessedIsSound(p: Plan, r: nat, advance: Advance, checks: Checks)
    requires PlanSound(p) && ProcessRule(p, r, advance, checks).Ok?
    ensures PlanSound(ProcessRule(p, r, advance, checks).value)
    ensures |ProcessRule(p, r, advance, checks).value.rules| == |p.rules|
  {
  }

  lemma {:induction false} ProcessAllKeepsPlan(p: Plan, due: seq<nat>, advance: Advance, checks: Checks)
    requires PlanSound(p) && ProcessRules(p, due, advance, checks).Ok?
    ensures PlanSound(ProcessRules(p, due, advance, checks).value)
    decreases |due|
  {
    if |due| > 0 {
      ProcessedIsSound(p, due[0], advance, checks);
      ProcessAllKeepsPlan(ProcessRule(p, due[0], advance, checks).value, due[1..], advance, checks);
    }
  }

  predicate OneMore(before: seq<Occurrence>, after: seq<Occurrence>, autoDraft: bool) {
    |after| == |before| + 1 && after[|before|].status == if autoDraft then DraftCreated else Due
  }

  /** What happens to one due rule: it has its occurrence, a draft behind it if it asks for one, and the next due time;
      all other rules and all earlier occurrences are as they were, and a time that already had its occurrence gets no
      second one. */
  lemma ProcessedRule(p: Plan, r: nat, advance: Advance, checks: Checks)
    requires ProcessRule(p, r, advance, checks).Ok?
    ensures var p' := ProcessRule(p, r, advance, checks).value;
      && r < |p.rules| && |p'.rules| == |p.rules|
      && var at := p.rules[r].nextDueAt;
      && HasOccurrence(p'.occurrences, r, at)
      && p'.rules[r] == p.rules[r].(nextDueAt := advance(p.rules[r], at), version := p.rules[r].version + 1)
      && (forall i :: 0 <= i < |p.rules| && i != r ==> p'.rules[i] == p.rules[i])
      && p.occurrences <= p'.occurrences
      && (HasOccurrence(p.occurrences, r, at) ==> p'.occurrences == p.occurrences && p'.ledger == p.ledger)
      && (!HasOccurrence(p.occurrences, r, at) ==> OneMore(p.occurrences, p'.occurrences, p.rules[r].autoDraft))
  {
    var p' := ProcessRule(p, r, advance, checks).value;
    if !HasOccurrence(p.occurrences, r, p.rules[r].nextDueAt) {
      assert p'.occurrences[|p.occurrences|].rule == r;
    }
  }

  /** After processing, every rule that was due has an occurrence at the time that it was due, and has been advanced
      once. */
  lemma {:induction false} EveryDueRuleIsProcessed(p: Plan, due: seq<nat>, advance: Advance, checks: Checks, k: nat)
    requires ProcessRules(p, due, advance, checks).Ok? && k < |due|
    requires forall i, j :: 0 <= i < j < |due| ==> due[i] != due[j]
    ensures var p' := ProcessRules(p, due, advance, checks).value;
      && due[k] < |p.rules| && |p'.rules| == |p.rules|
      && HasOccurrence(p'.occurrences, due[k], p.rules[due[k]].nextDueAt)
      && p'.rules[due[k]].nextDueAt == advance(p.rules[due[k]], p.rules[due[k]].nextDueAt)
      && p'.rules[due[k]].version == p.rules[due[k]].version + 1
    decreases |due|
  {
    var next := ProcessRule(p, due[0], advance, checks).value;
    ProcessedRule(p, due[0], advance, checks);
    if k > 0 {
      EveryDueRuleIsProcessed(next, due[1..], advance, checks, k - 1);
    } else {
      OthersAreKept(next, due[1..], advance, checks, due[0]);
      var os := ProcessRules(p, due, advance, checks).value.occurrences;
      StillHasOccurrence(next.occurrences, os, due[0], p.rules[due[0]].nextDueAt);
    }
  }

  lemma {:induction false} OthersAreKept(p: Plan, due: seq<nat>, advance: Advance, checks: Checks, r: nat)
    requires ProcessRules(p, due, advance, checks).Ok? && r < |p.rules| && r !in due
    ensures var p' := ProcessRules(p, due, advance, checks).value;
      |p'.rules| == |p.rules| && p'.rules[r] == p.rules[r] && p.occurrences <= p'.occurrences
    decreases |due|
  {
    if |due| > 0 {
      ProcessedRule(p, due[0], advance, checks);
      assert due[0] in due && forall x :: x in due[1..] ==> x in due;
      OthersAreKept(ProcessRule(p, due[0], advance, checks).value, due[1..], advance, checks, r);
    }
  }

  lemma StillHasOccurrence(os: seq<Occurrence>, os': seq<Occurrence>, rule: nat, at: Time)
    requires os <= os' && HasOccurrence(os, rule, at)
    ensures HasOccurrence(os', rule, at)
  {
    var i :| 0 <= i < |os| && os[i].rule == rule && os[i].scheduledFor == at;
    assert os'[i] == os[i];
  }

  lemma RecordKeepsPlan(p: Plan, o: nat, check: Option<Error>)
    requires PlanSound(p)
    ensures RecordOccurrence(p, o, check).Ok? ==> PlanSound(RecordOccurrence(p, o, check).value)
  {
  }

  lemma SkipKeepsPlan(p: Plan, o: nat)
    requires PlanSound(p)
    ensures SkipOccurrence(p, o).Ok? ==> PlanSound(SkipOccurrence(p, o).value)
  {
  }

  lemma PostKeepsPlan(p: Plan, now: Time, id: nat, version: nat, details: Option<Error>)
    requires PlanSound(p) && PostLinked(p, now, id, version, details).Ok?
    ensures PlanSound(PostLinked(p, now, id, version, details).value)
  {
  }

  // ---- Runs ----

  /** Calls to the planning service, posting through the transaction service, and any other ledger call. */
  datatype Op =
    | Process(due: seq<nat>)
    | Record(occurrence: nat, check: Option<Error>)
    | Skip(occurrence: nat)
    | Post(id: nat, version: nat, check: Option<Error>)
    | Add(rule: Rule, check: Option<Error>)
    | Edit(edited: nat, version: nat, rule: Rule, check: Option<Error>)
    | Other(op: Runs.Op)

  datatype Call = Call(now: Time, op: Op)

  function Apply(p: Plan, call: Call, advance: Advance, checks: Checks): Result<Plan> {
    match call.op
    case Process(due) => ProcessRules(p, due, advance, checks)
    case Record(o, check) => RecordOccurrence(p, o, check)
    case Skip(o) => SkipOccurrence(p, o)
    case Post(id, version, check) => PostLinked(p, call.now, id, version, check)
    case Add(rule, check) => AddRule(p, rule, check)
    case Edit(r, version, rule, check) => EditRule(p, r, version, rule, check)
    case Other(op) =>
      if op.Post? then PostLinked(p, call.now, op.id, op.version, op.details) else
      var ledger :- Runs.Apply(p.ledger, call.now, op);
      Ok(p.(ledger := ledger))
  }

  function Next(p: Plan, call: Call, advance: Advance, checks: Checks): Plan {
    match Apply(p, call, advance, checks)
    case Ok(p') => p'
    case Err(_) => p
  }

  function Run(p: Plan, calls: seq<Call>, advance: Advance, checks: Checks): Plan {
    if |calls| == 0 then p else Next(Run(p, calls[..|calls| - 1], advance, checks), calls[|calls| - 1], advance, checks)
  }

  /** Only posting ends a draft. */
  lemma OtherStepsKeepDrafts(s: State, now: Time, op: Runs.Op)
    requires Sound(s) && Runs.Apply(s, now, op).Ok? && !op.Post?
    ensures DraftsStay(s.movements, Runs.Apply(s, now, op).value.movements)
  {
    if Runs.OnAccounts(op) {
      Runs.AccountStepIsSound(s, now, op);
    } else if Runs.OnGroups(op) {
      Runs.GroupStepPosts(s, now, op);
    } else if Runs.OnDebts(op) || Runs.OnExpenses(op) {
      Runs.DebtStepPosts(s, now, op);
    }
  }

  lemma DraftingIsSound(s: State, f: Transactions.DraftFields, details: Option<Error>)
    requires Sound(s)
    ensures Transactions.CreateDraft(s, f, details).Ok? ==> Sound(Transactions.CreateDraft(s, f, details).value)
  {
    if Transactions.CreateDraft(s, f, details).Ok? {
      Transactions.DraftsAreInvisible(s, f, details);
    }
  }

  lemma {:induction false} ProcessKeepsLedger(p: Plan, due: seq<nat>, advance: Advance, checks: Checks)
    requires Sound(p.ledger) && ProcessRules(p, due, advance, checks).Ok?
    ensures Sound(ProcessRules(p, due, advance, checks).value.ledger)
    decreases |due|
  {
    if |due| > 0 {
      var next := ProcessRule(p, due[0], advance, checks).value;
      DraftingIsSound(p.ledger, DraftOf(p.rules[due[0]], p.rules[due[0]].nextDueAt), checks(due[0]));
      ProcessKeepsLedger(next, due[1..], advance, checks);
    }
  }

  lemma StepKeepsLedger(p: Plan, call: Call, advance: Advance, checks: Checks)
    requires Sound(p.ledger) && Apply(p, call, advance, checks).Ok?
    ensures Sound(Apply(p, call, advance, checks).value.ledger)
  {
    match call.op
    case Process(due) => ProcessKeepsLedger(p, due, advance, checks);
    case Record(o, check) =>
      var occurrence := p.occurrences[o];
      if occurrence.rule < |p.rules| {
        DraftingIsSound(p.ledger, DraftOf(p.rules[occurrence.rule], occurrence.scheduledFor), check);
      }
    case Skip(_) =>
    case Post(id, version, check) => Transactions.PostShifts(p.ledger, call.now, id, version, check);
    case Add(_, _) =>
    case Edit(_, _, _, _) =>
    case Other(op) =>
      if op.Post? {
        Transactions.PostShifts(p.ledger, call.now, op.id, op.version, op.details);
      } else {
        Runs.StepIsSound(p.ledger, call.now, op);
      }
  }

  lemma StepKeepsPlan(p: Plan, call: Call, advance: Advance, checks: Checks)
    requires Sound(p.ledger) && PlanSound(p) && Apply(p, call, advance, checks).Ok?
    ensures PlanSound(Apply(p, call, advance, checks).value)
  {
    match call.op
    case Process(due) => ProcessAllKeepsPlan(p, due, advance, checks);
    case Record(o, check) => RecordKeepsPlan(p, o, check);
    case Skip(o) => SkipKeepsPlan(p, o);
    case Post(id, version, check) => PostKeepsPlan(p, call.now, id, version, check);
    case Add(_, _) => RulesDoNotMatter(p, Apply(p, call, advance, checks).value);
    case Edit(_, _, _, _) => RulesDoNotMatter(p, Apply(p, call, advance, checks).value);
    case Other(op) =>
      if op.Post? {
        PostKeepsPlan(p, call.now, op.id, op.version, op.details);
      } else {
        OtherStepsKeepDrafts(p.ledger, call.now, op);
        LedgerStepKeepsPlan(p, Runs.Apply(p.ledger, call.now, op).value);
      }
  }

  lemma RulesDoNotMatter(p: Plan, p': Plan)
    requires PlanSound(p) && p'.ledger == p.ledger && p'.occurrences == p.occurrences && |p.rules| <= |p'.rules|
    ensures PlanSound(p')
  {
  }

  /** Over any run, however rules are edited and whatever the calendar says: at most one occurrence for each rule and
      scheduled time, a linked transaction is a draft exactly while its occurrence says so, and a recorded one was
      posted. */
  lemma {:induction false} RunsKeepPlan(p: Plan, calls: seq<Call>, advance: Advance, checks: Checks)
    requires Sound(p.ledger) && PlanSound(p)
    ensures PlanSound(Run(p, calls, advance, checks)) && Sound(Run(p, calls, advance, checks).ledger)
  {
    if |calls| > 0 {
      var before, call := Run(p, calls[..|calls| - 1], advance, checks), calls[|calls| - 1];
      RunsKeepPlan(p, calls[..|calls| - 1], advance, checks);
      if Apply(before, call, advance, checks).Ok? {
        StepKeepsPlan(before, call, advance, checks);
        StepKeepsLedger(before, call, advance, checks);
      }
    }
  }

  /** In a sound plan, read from the side of the transaction. */
  lemma LinkedDrafts(p: Plan, i: nat)
    requires PlanSound(p) && i < |p.occurrences| && p.occurrences[i].transaction.Some?
    ensures var id := p.occurrences[i].transaction.value;
      && id < |p.ledger.movements|
      && (p.occurrences[i].status == DraftCreated <==> p.ledger.movements[id].status == Status.Draft)
      && (p.occurrences[i].status == Recorded <==> AffectsBalance(p.ledger.movements[id].status))
      && forall j :: 0 <= j < |p.occurrences| && p.occurrences[j].transaction == Some(id) ==> j == i
  {
  }

  // ---- The life of an occurrence ----

  /** A reminder may get a draft or be skipped, a draft may be recorded; nothing leads back, and a link is never
      changed. */
  predicate Ages(o: Occurrence, o': Occurrence) {
    && o'.rule == o.rule && o'.scheduledFor == o.scheduledFor
    && (o.transaction.Some? ==> o'.transaction == o.transaction)
    && (o.status == DraftCreated ==> o'.status == DraftCreated || o'.status == Recorded)
    && (o.status == Recorded || o.status == Skipped ==> o' == o)
  }

  ghost predicate Aged(os: seq<Occurrence>, os': seq<Occurrence>) {
    |os| <= |os'| && forall i :: 0 <= i < |os| ==> Ages(os[i], os'[i])
  }

  lemma {:induction false} ProcessAges(p: Plan, due: seq<nat>, advance: Advance, checks: Checks)
    requires ProcessRules(p, due, advance, checks).Ok?
    ensures p.occurrences <= ProcessRules(p, due, advance, checks).value.occurrences
    decreases |due|
  {
    if |due| > 0 {
      ProcessedRule(p, due[0], advance, checks);
      ProcessAges(ProcessRule(p, due[0], advance, checks).value, due[1..], advance, checks);
    }
  }

  lemma StepAges(p: Plan, call: Call, advance: Advance, checks: Checks)
    requires PlanSound(p) && Apply(p, call, advance, checks).Ok?
    ensures Aged(p.occurrences, Apply(p, call, advance, checks).value.occurrences)
  {
    forall i | 0 <= i < |p.occurrences| ensures OccurrenceFits(p, p.occurrences[i]) {
    }
    if call.op.Process? {
      ProcessAges(p, call.op.due, advance, checks);
    }
  }

  /** Over any run an occurrence that was recorded or skipped stays so, and no occurrence loses or changes its
      transaction. */
  lemma {:induction false} RunsAge(p: Plan, calls: seq<Call>, advance: Advance, checks: Checks)
    requires Sound(p.ledger) && PlanSound(p)
    ensures Aged(p.occurrences, Run(p, calls, advance, checks).occurrences)
  {
    if |calls| > 0 {
      var before, call := Run(p, calls[..|calls| - 1], advance, checks), calls[|calls| - 1];
      RunsAge(p, calls[..|calls| - 1], advance, checks);
      RunsKeepPlan(p, calls[..|calls| - 1], advance, checks);
      if Apply(before, call, advance, checks).Ok? {
        StepAges(before, call, advance, checks);
        var after := Apply(before, call, advance, checks).value;
        forall i | 0 <= i < |p.occurrences| ensures Ages(p.occurrences[i], after.occurrences[i]) {
          assert Ages(p.occurrences[i], before.occurrences[i]) && Ages(before.occurrences[i], after.occurrences[i]);
        }
      }
    }
  }

  // ---- No date is left out ----

  /** The scheduled times of a rule's occurrences, in the order in which they were made. */
  function Times(os: seq<Occurrence>, r: nat): seq<Time> {
    if |os| == 0 then [] else
    var last := os[|os| - 1];
    Times(os[..|os| - 1], r) + if last.rule == r then [last.scheduledFor] else []
  }

  /** The rule after it has been advanced `n` times. */
  function After(rule: Rule, advance: Advance, n: nat): Rule {
    if n == 0 then rule else
    var before := After(rule, advance, n - 1);
    before.(nextDueAt := advance(before, before.nextDueAt), version := before.version + 1)
  }

  /** The first `n` dates of the rule. */
  function Dates(rule: Rule, advance: Advance, n: nat): seq<Time> {
    if n == 0 then [] else Dates(rule, advance, n - 1) + [After(rule, advance, n - 1).nextDueAt]
  }

  ghost predicate Forward(advance: Advance) { forall rule, at :: at < advance(rule, at) }

  /** Every occurrence of the rule lies before the date that it is due next. */
  ghost predicate Behind(p: Plan, r: nat)
    requires r < |p.rules|
  {
    forall i :: 0 <= i < |p.occurrences| && p.occurrences[i].rule == r ==>
      p.occurrences[i].scheduledFor < p.rules[r].nextDueAt
  }

  /** Since it was `rule` with occurrences at `times`, rule `r` has had an occurrence at each of its dates. */
  ghost predicate Follows(p: Plan, r: nat, rule: Rule, times: seq<Time>, advance: Advance) {
    && r < |p.rules| && Behind(p, r)
    && p.rules[r].version >= rule.version
    && var n := p.rules[r].version - rule.version;
    && p.rules[r] == After(rule, advance, n)
    && Times(p.occurrences, r) == times + Dates(rule, advance, n)
  }

  lemma TimesOfOneMore(os: seq<Occurrence>, o: Occurrence, r: nat)
    ensures Times(os + [o], r) == Times(os, r) + if o.rule == r then [o.scheduledFor] else []
  {
    assert (os + [o])[..|os|] == os;
  }

  predicate SameSchedule(os: seq<Occurrence>, os': seq<Occurrence>) {
    && |os| == |os'|
    && forall i :: 0 <= i < |os| ==> os'[i].rule == os[i].rule && os'[i].scheduledFor == os[i].scheduledFor
  }

  lemma {:induction false} SameTimes(os: seq<Occurrence>, os': seq<Occurrence>, r: nat)
    requires SameSchedule(os, os')
    ensures Times(os', r) == Times(os, r)
  {
    if |os| > 0 {
      SameTimes(os[..|os| - 1], os'[..|os'| - 1], r);
    }
  }

  /** Steps that make no occurrence and leave the rule alone. */
  lemma QuietStepFollows(p: Plan, p': Plan, r: nat, rule: Rule, times: seq<Time>, advance: Advance)
    requires Follows(p, r, rule, times, advance)
    requires SameSchedule(p.occurrences, p'.occurrences) && r < |p'.rules| && p'.rules[r] == p.rules[r]
    ensures Follows(p', r, rule, times, advance)
  {
    SameTimes(p.occurrences, p'.occurrences, r);
  }

  /** The occurrence that processing makes. */
  lemma ProcessedOccurrence(p: Plan, x: nat, advance: Advance, checks: Checks)
    requires ProcessRule(p, x, advance, checks).Ok? && !HasOccurrence(p.occurrences, x, p.rules[x].nextDueAt)
    ensures var os, os' := p.occurrences, ProcessRule(p, x, advance, checks).value.occurrences;
            |os'| == |os| + 1 && os' == os + [os'[|os|]]
            && os'[|os|].rule == x && os'[|os|].scheduledFor == p.rules[x].nextDueAt
  {
  }

  lemma OtherRuleFollows(
      p: Plan, x: nat, advance: Advance, checks: Checks, r: nat, rule: Rule, times: seq<Time>)
    requires Follows(p, r, rule, times, advance) && x != r && ProcessRule(p, x, advance, checks).Ok?
    ensures Follows(ProcessRule(p, x, advance, checks).value, r, rule, times, advance)
  {
    ProcessedRule(p, x, advance, checks);
    if !HasOccurrence(p.occurrences, x, p.rules[x].nextDueAt) {
      var os := ProcessRule(p, x, advance, checks).value.occurrences;
      ProcessedOccurrence(p, x, advance, checks);
      TimesOfOneMore(p.occurrences, os[|p.occurrences|], r);
    }
  }

  /** The rule's next date has no occurrence yet, so it gets one, and the date after it comes next. */
  lemma ProcessedRuleFollows(p: Plan, r: nat, advance: Advance, checks: Checks, rule: Rule, times: seq<Time>)
    requires Forward(advance) && Follows(p, r, rule, times, advance) && ProcessRule(p, r, advance, checks).Ok?
    ensures Follows(ProcessRule(p, r, advance, checks).value, r, rule, times, advance)
  {
    var os, os' := p.occurrences, ProcessRule(p, r, advance, checks).value.occurrences;
    ProcessedRule(p, r, advance, checks);
    ProcessedOccurrence(p, r, advance, checks);
    TimesOfOneMore(os, os'[|os|], r);
    var n := p.rules[r].version - rule.version;
    assert After(rule, advance, n + 1).version == After(rule, advance, n).version + 1;
    assert Dates(rule, advance, n + 1) == Dates(rule, advance, n) + [p.rules[r].nextDueAt];
  }

  lemma {:induction false} ProcessFollows(
      p: Plan, due: seq<nat>, advance: Advance, checks: Checks, r: nat, rule: Rule, times: seq<Time>)
    requires Forward(advance) && Follows(p, r, rule, times, advance) && ProcessRules(p, due, advance, checks).Ok?
    ensures Follows(ProcessRules(p, due, advance, checks).value, r, rule, times, advance)
    decreases |due|
  {
    if |due| > 0 {
      if due[0] == r {
        ProcessedRuleFollows(p, r, advance, checks, rule, times);
      } else {
        OtherRuleFollows(p, due[0], advance, checks, r, rule, times);
      }
      ProcessFollows(ProcessRule(p, due[0], advance, checks).value, due[1..], advance, checks, r, rule, times);
    }
  }

  predicate Edits(call: Call, r: nat) { call.op.Edit? && call.op.edited == r }

  lemma StepIsQuiet(p: Plan, call: Call, advance: Advance, checks: Checks, r: nat)
    requires Apply(p, call, advance, checks).Ok? && r < |p.rules| && !call.op.Process? && !Edits(call, r)
    ensures var p' := Apply(p, call, advance, checks).value;
            SameSchedule(p.occurrences, p'.occurrences) && r < |p'.rules| && p'.rules[r] == p.rules[r]
  {
  }

  /** Over any run in which a rule is not edited, whatever is processed, recorded, skipped or posted, and however
      often: the rule has exactly one occurrence at each of its successive dates, in order, and none is left out. */
  lemma {:induction false} NoDateIsLeftOut(
      p: Plan, calls: seq<Call>, advance: Advance, checks: Checks, r: nat)
    requires Forward(advance) && r < |p.rules| && Behind(p, r)
    requires forall i :: 0 <= i < |calls| ==> !Edits(calls[i], r)
    ensures Follows(Run(p, calls, advance, checks), r, p.rules[r], Times(p.occurrences, r), advance)
  {
    if |calls| == 0 {
      assert Dates(p.rules[r], advance, 0) == [];
    } else {
      var before, call := Run(p, calls[..|calls| - 1], advance, checks), calls[|calls| - 1];
      NoDateIsLeftOut(p, calls[..|calls| - 1], advance, checks, r);
      if Apply(before, call, advance, checks).Ok? {
        StepFollows(before, call, advance, checks, r, p.rules[r], Times(p.occurrences, r));
      }
    }
  }

  lemma StepFollows(p: Plan, call: Call, advance: Advance, checks: Checks, r: nat, rule: Rule, times: seq<Time>)
    requires Forward(advance) && Follows(p, r, rule, times, advance)
    requires Apply(p, call, advance, checks).Ok? && !Edits(call, r)
    ensures Follows(Apply(p, call, advance, checks).value, r, rule, times, advance)
  {
    if call.op.Process? {
      ProcessFollows(p, call.op.due, advance, checks, r, rule, times);
    } else {
      StepIsQuiet(p, call, advance, checks, r);
      QuietStepFollows(p, Apply(p, call, advance, checks).value, r, rule, times, advance);
    }
  }

  /** In particular a rule that has just been added: its occurrences are its dates from the first one on. */
  lemma NewRulesHaveAllTheirDates(
      p: Plan, rule: Rule, check: Option<Error>, calls: seq<Call>, advance: Advance, checks: Checks)
    requires Forward(advance) && PlanSound(p) && AddRule(p, rule, check).Ok?
    requires forall i :: 0 <= i < |calls| ==> !Edits(calls[i], |p.rules|)
    ensures var added, r := AddRule(p, rule, check).value, |p.rules|;
            var p' := Run(added, calls, advance, checks);
            && r < |p'.rules| && p'.rules[r].version >= 1
            && Times(p'.occurrences, r) == Dates(added.rules[r], advance, p'.rules[r].version - 1)
  {
    var added, r := AddRule(p, rule, check).value, |p.rules|;
    assert forall i :: 0 <= i < |p.occurrences| ==> OccurrenceFits(p, p.occurrences[i]);
    NoTimesYet(p.occurrences, r);
    NoDateIsLeftOut(added, calls, advance, checks, r);
  }

  lemma {:induction false} NoTimesYet(os: seq<Occurrence>, r: nat)
    requires forall i :: 0 <= i < |os| ==> os[i].rule != r
    ensures Times(os, r) == []
  {
    if |os| > 0 {
      NoTimesYet(os[..|os| - 1], r);
    }
  }

  // ---- What the draft of an occurrence holds ----

  /** A fresh draft of the rule, dated as the occurrence is scheduled. */
  predicate DraftFor(m: Movement, rule: Rule, at: Time) {
    && m.account == rule.account && m.kind == rule.kind && m.amount == rule.amount && m.currency == rule.currency
    && m.category == rule.category && m.occurredAt == at
    && m.status == Status.Draft && EffectCoherent(m.kind, m.effect)
    && m.parent == None && m.reversalOf == None && m.version == 1
  }

  /** Only movements were added, at most `n` of them, and no other table of the ledger has changed. */
  ghost predicate OnlyAdded(ledger: State, ledger': State, n: nat) {
    && ledger.movements <= ledger'.movements && |ledger'.movements| <= |ledger.movements| + n
    && ledger' == ledger.(movements := ledger'.movements)
  }

  /** The occurrence and the draft that one due rule gets. */
  lemma ProcessedDraft(p: Plan, r: nat, advance: Advance, checks: Checks)
    requires ProcessRule(p, r, advance, checks).Ok? && !HasOccurrence(p.occurrences, r, p.rules[r].nextDueAt)
    ensures var p', n, k := ProcessRule(p, r, advance, checks).value, |p.ledger.movements|, |p.occurrences|;
      && p.occurrences <= p'.occurrences && |p'.occurrences| == k + 1
      && p'.occurrences[k].rule == r && p'.occurrences[k].scheduledFor == p.rules[r].nextDueAt
      && (if p.rules[r].autoDraft then
            && p'.occurrences[k].transaction == Some(n) && |p'.ledger.movements| == n + 1
            && OnlyAdded(p.ledger, p'.ledger, 1)
            && DraftFor(p'.ledger.movements[n], p.rules[r], p.rules[r].nextDueAt)
          else
            p'.occurrences[k].transaction == None && p'.ledger == p.ledger)
  {
    var at := p.rules[r].nextDueAt;
    if p.rules[r].autoDraft {
      Transactions.DraftIsCreated(p.ledger, DraftOf(p.rules[r], at), checks(r));
    }
  }

  /** The draft that a reminder gets when it is recorded. */
  lemma RecordedDraft(p: Plan, o: nat, check: Option<Error>)
    requires RecordOccurrence(p, o, check).Ok? && p.occurrences[o].status == Due
    ensures var p', n := RecordOccurrence(p, o, check).value, |p.ledger.movements|;
      && o < |p.occurrences| && p.occurrences[o].rule < |p.rules|
      && p'.rules == p.rules && |p'.occurrences| == |p.occurrences|
      && (forall i :: 0 <= i < |p.occurrences| && i != o ==> p'.occurrences[i] == p.occurrences[i])
      && p'.occurrences[o].transaction == Some(n) && p'.occurrences[o].status == DraftCreated
      && p'.occurrences[o].rule == p.occurrences[o].rule
      && p'.occurrences[o].scheduledFor == p.occurrences[o].scheduledFor
      && OnlyAdded(p.ledger, p'.ledger, 1) && |p'.ledger.movements| == n + 1
      && DraftFor(p'.ledger.movements[n], p.rules[p.occurrences[o].rule], p.occurrences[o].scheduledFor)
  {
    var occurrence := p.occurrences[o];
    Transactions.DraftIsCreated(p.ledger, DraftOf(p.rules[occurrence.rule], occurrence.scheduledFor), check);
  }

  predicate SameTermsOfRule(rule: Rule, rule': Rule) {
    && rule'.account == rule.account && rule'.kind == rule.kind && rule'.amount == rule.amount
    && rule'.currency == rule.currency && rule'.category == rule.category
  }

  /** Occurrence `i` has a transaction that it did not have before. */
  predicate NewlyLinked(p: Plan, p': Plan, i: nat) {
    && i < |p'.occurrences| && p'.occurrences[i].transaction.Some?
    && (i < |p.occurrences| ==> p.occurrences[i].transaction.None?)
  }

  /** Its transaction is a new row that holds the terms of its own rule and its own date. */
  predicate HoldsItsRule(p: Plan, p': Plan, i: nat)
    requires NewlyLinked(p, p', i)
  {
    var o, id := p'.occurrences[i], p'.occurrences[i].transaction.value;
    && o.rule < |p.rules| && |p.ledger.movements| <= id < |p'.ledger.movements|
    && DraftFor(p'.ledger.movements[id], p.rules[o.rule], o.scheduledFor)
  }

  ghost predicate MakesDrafts(p: Plan, p': Plan) { forall i: nat :: NewlyLinked(p, p', i) ==> HoldsItsRule(p, p', i) }

  /** Every new movement belongs to an occurrence that did not have it before. */
  ghost predicate OnlyDrafts(p: Plan, p': Plan) {
    forall id: nat :: |p.ledger.movements| <= id < |p'.ledger.movements| ==> IsDraftOfOne(p, p', id)
  }

  ghost predicate IsDraftOfOne(p: Plan, p': Plan, id: nat) {
    exists i: nat :: LinkedTo(p, p', i, id)
  }

  predicate LinkedTo(p: Plan, p': Plan, i: nat, id: nat) {
    NewlyLinked(p, p', i) && p'.occurrences[i].transaction == Some(id)
  }

  /** What processing has done so far: occurrences and movements were added, and the terms of no rule have changed. */
  ghost predicate Processing(p: Plan, p': Plan) {
    && p.occurrences <= p'.occurrences
    && OnlyAdded(p.ledger, p'.ledger, |p'.occurrences| - |p.occurrences|)
    && |p'.rules| == |p.rules| && (forall r :: 0 <= r < |p.rules| ==> SameTermsOfRule(p.rules[r], p'.rules[r]))
    && MakesDrafts(p, p') && OnlyDrafts(p, p')
  }

  lemma ProcessingOne(p: Plan, r: nat, advance: Advance, checks: Checks)
    requires ProcessRule(p, r, advance, checks).Ok?
    ensures Processing(p, ProcessRule(p, r, advance, checks).value)
  {
    var p', k := ProcessRule(p, r, advance, checks).value, |p.occurrences|;
    ProcessedRule(p, r, advance, checks);
    if !HasOccurrence(p.occurrences, r, p.rules[r].nextDueAt) {
      ProcessedDraft(p, r, advance, checks);
      assert p.rules[r].autoDraft ==> LinkedTo(p, p', k, |p.ledger.movements|);
    }
  }

  lemma ProcessingTransitive(p: Plan, q: Plan, r: Plan)
    requires Processing(p, q) && Processing(q, r)
    ensures Processing(p, r)
  {
    forall i: nat | NewlyLinked(p, r, i) ensures HoldsItsRule(p, r, i) {
      if i < |q.occurrences| {
        assert NewlyLinked(p, q, i) && HoldsItsRule(p, q, i);
      } else {
        assert NewlyLinked(q, r, i) && HoldsItsRule(q, r, i);
      }
    }
    forall id: nat | |p.ledger.movements| <= id < |r.ledger.movements| ensures IsDraftOfOne(p, r, id) {
      if id < |q.ledger.movements| {
        assert IsDraftOfOne(p, q, id);
        var i: nat :| LinkedTo(p, q, i, id);
        assert LinkedTo(p, r, i, id);
      } else {
        assert IsDraftOfOne(q, r, id);
        var i: nat :| LinkedTo(q, r, i, id);
        assert LinkedTo(p, r, i, id);
      }
    }
  }

  /** Whatever rules are processed together: each new draft holds the terms of the rule of its own occurrence and the
      date of that occurrence, each new movement is such a draft, and nothing else changes in the ledger. */
  lemma {:induction false} ProcessingMakesDrafts(p: Plan, due: seq<nat>, advance: Advance, checks: Checks)
    requires ProcessRules(p, due, advance, checks).Ok?
    ensures Processing(p, ProcessRules(p, due, advance, checks).value)
    decreases |due|
  {
    if |due| > 0 {
      var next := ProcessRule(p, due[0], advance, checks).value;
      ProcessingOne(p, due[0], advance, checks);
      ProcessingMakesDrafts(next, due[1..], advance, checks);
      ProcessingTransitive(p, next, ProcessRules(p, due, advance, checks).value);
    }
  }

  lemma {:induction false} StepMakesDrafts(p: Plan, call: Call, advance: Advance, checks: Checks)
    requires Apply(p, call, advance, checks).Ok?
    ensures MakesDrafts(p, Apply(p, call, advance, checks).value)
  {
    if call.op.Process? {
      ProcessingMakesDrafts(p, call.op.due, advance, checks);
    } else if call.op.Record? {
      if p.occurrences[call.op.occurrence].status == Due {
        RecordedDraft(p, call.op.occurrence, call.op.check);
      }
    } else {
      OtherStepsLinkNothing(p, call, advance, checks);
    }
  }

  lemma {:induction false} OtherStepsLinkNothing(p: Plan, call: Call, advance: Advance, checks: Checks)
    requires Apply(p, call, advance, checks).Ok? && !call.op.Process? && !call.op.Record?
    ensures forall i: nat :: !NewlyLinked(p, Apply(p, call, advance, checks).value, i)
  {
  }

  /** The `k`-th call linked occurrence `i`, with a draft that then held the terms of its rule and its date. */
  ghost predicate MadeBy(p: Plan, calls: seq<Call>, advance: Advance, checks: Checks, i: nat, k: nat) {
    && k < |calls|
    && var before, after := Run(p, calls[..k], advance, checks), Run(p, calls[..k + 1], advance, checks);
    && NewlyLinked(before, after, i) && HoldsItsRule(before, after, i)
    && i < |Run(p, calls, advance, checks).occurrences|
    && Run(p, calls, advance, checks).occurrences[i].transaction == after.occurrences[i].transaction
  }

  /** Over any run every occurrence that has come to a transaction was given it by one call, and what that call drafted
      had the account, the kind, the amount, the currency and the category that the rule had at the time, and the date
      that the occurrence is scheduled for. */
  lemma {:induction false} EveryDraftHeldItsRule(
      p: Plan, calls: seq<Call>, advance: Advance, checks: Checks, i: nat)
    returns (k: nat)
    requires Sound(p.ledger) && PlanSound(p) && NewlyLinked(p, Run(p, calls, advance, checks), i)
    ensures MadeBy(p, calls, advance, checks, i, k)
  {
    var front := calls[..|calls| - 1];
    if NewlyLinked(p, Run(p, front, advance, checks), i) {
      k := EveryDraftHeldItsRule(p, front, advance, checks, i);
      StillMade(p, calls, advance, checks, i, k);
    } else {
      k := |calls| - 1;
      MadeByTheLast(p, calls, advance, checks, i);
    }
  }

  lemma {:induction false} StillMade(
      p: Plan, calls: seq<Call>, advance: Advance, checks: Checks, i: nat, k: nat)
    requires Sound(p.ledger) && PlanSound(p)
    requires |calls| > 0 && MadeBy(p, calls[..|calls| - 1], advance, checks, i, k)
    ensures MadeBy(p, calls, advance, checks, i, k)
  {
    var front := calls[..|calls| - 1];
    assert calls[..k] == front[..k] && calls[..k + 1] == front[..k + 1];
    RunsKeepPlan(p, front, advance, checks);
    LinksStay(Run(p, front, advance, checks), calls[|calls| - 1], advance, checks, i);
  }

  lemma {:induction false} MadeByTheLast(p: Plan, calls: seq<Call>, advance: Advance, checks: Checks, i: nat)
    requires Sound(p.ledger) && PlanSound(p) && |calls| > 0
    requires NewlyLinked(p, Run(p, calls, advance, checks), i)
    requires !NewlyLinked(p, Run(p, calls[..|calls| - 1], advance, checks), i)
    ensures MadeBy(p, calls, advance, checks, i, |calls| - 1)
  {
    var front, call := calls[..|calls| - 1], calls[|calls| - 1];
    var before := Run(p, front, advance, checks);
    assert calls[..|calls|] == calls;
    RunsAge(p, front, advance, checks);
    LinkedByTheLast(p, before, Run(p, calls, advance, checks), i);
    StepMakesDrafts(before, call, advance, checks);
  }

  lemma LinkedByTheLast(p: Plan, before: Plan, after: Plan, i: nat)
    requires NewlyLinked(p, after, i) && !NewlyLinked(p, before, i) && |p.occurrences| <= |before.occurrences|
    ensures NewlyLinked(before, after, i)
  {
  }

  lemma LinksStay(p: Plan, call: Call, advance: Advance, checks: Checks, i: nat)
    requires PlanSound(p) && i < |p.occurrences| && p.occurrences[i].transaction.Some?
    ensures i < |Next(p, call, advance, checks).occurrences|
    ensures Next(p, call, advance, checks).occurrences[i].transaction == p.occurrences[i].transaction
  {
    if Apply(p, call, advance, checks).Ok? {
      StepAges(p, call, advance, checks);
      assert Ages(p.occurrences[i], Apply(p, call, advance, checks).value.occurrences[i]);
    }
  }

  // ---- Rules take the terms that were asked for ----

  lemma RuleIsAdded(p: Plan, rule: Rule, check: Option<Error>)
    requires AddRule(p, rule, check).Ok?
    ensures var p', r := AddRule(p, rule, check).value, |p.rules|;
      && |p'.rules| == r + 1 && (forall i :: 0 <= i < r ==> p'.rules[i] == p.rules[i])
      && SameTermsOfRule(rule, p'.rules[r]) && p'.rules[r].nextDueAt == rule.nextDueAt
      && p'.rules[r].autoDraft == rule.autoDraft && p'.rules[r].active && p'.rules[r].version == 1
      && p'.ledger == p.ledger && p'.occurrences == p.occurrences
  {
  }

  /** An edit changes everything that it names except the kind, and only on its own rule. */
  lemma RuleIsEdited(p: Plan, r: nat, version: nat, rule: Rule, check: Option<Error>)
    requires EditRule(p, r, version, rule, check).Ok?
    ensures var p' := EditRule(p, r, version, rule, check).value;
      && r < |p.rules| && p.rules[r].version == version && |p'.rules| == |p.rules|
      && (forall i :: 0 <= i < |p.rules| && i != r ==> p'.rules[i] == p.rules[i])
      && SameTermsOfRule(rule.(kind := p.rules[r].kind), p'.rules[r]) && p'.rules[r].nextDueAt == rule.nextDueAt
      && p'.rules[r].autoDraft == rule.autoDraft && p'.rules[r].active == rule.active
      && p'.rules[r].version == version + 1
      && p'.ledger == p.ledger && p'.occurrences == p.occurrences
  {
  }

  // ---- What is accepted ----

  /** The rule still describes a draft that its account could take at that date. */
  predicate Draftable(p: Plan, rule: Rule, at: Time) {
    && (rule.kind == Expense || rule.kind == Income) && rule.amount > 0
    && rule.account < |p.ledger.accounts| && p.ledger.accounts[rule.account].currency == rule.currency
    && p.ledger.accounts[rule.account].openedAt <= at
  }

  /** A reminder is recorded exactly while it is due and its rule describes a draft; one that has its draft already is
      left as it is. */
  lemma RecordedIff(p: Plan, o: nat)
    requires PlanSound(p) && o < |p.occurrences|
    ensures RecordOccurrence(p, o, None).Ok? <==>
      || p.occurrences[o].status == DraftCreated
      || (p.occurrences[o].status == Due
          && Draftable(p, p.rules[p.occurrences[o].rule], p.occurrences[o].scheduledFor))
    ensures p.occurrences[o].status == DraftCreated ==> RecordOccurrence(p, o, None) == Ok(p)
    ensures p.occurrences[o].status == Recorded || p.occurrences[o].status == Skipped ==>
      RecordOccurrence(p, o, None) == Err(OccurrenceNotRecordable)
  {
    assert OccurrenceFits(p, p.occurrences[o]);
  }

  /** Every reminder that is due can be skipped, and nothing else can. */
  lemma SkippedIff(p: Plan, o: nat)
    ensures SkipOccurrence(p, o).Ok? <==> o < |p.occurrences| && p.occurrences[o].status == Due
    ensures SkipOccurrence(p, o).Ok? ==>
      SkipOccurrence(p, o).value == p.(occurrences := p.occurrences[o := p.occurrences[o].(status := Skipped)])
    ensures o < |p.occurrences| && p.occurrences[o].status != Due ==>
      SkipOccurrence(p, o) == Err(OccurrenceNotSkippable)
  {
  }

  /** A rule is added or edited unless the catalogue objects, an edit only at the current version. */
  lemma RulesAreAcceptedIff(p: Plan, r: nat, version: nat, rule: Rule, check: Option<Error>)
    ensures AddRule(p, rule, check).Ok? <==> check == None
    ensures EditRule(p, r, version, rule, check).Ok? <==>
      r < |p.rules| && p.rules[r].version == version && check == None
    ensures r < |p.rules| && p.rules[r].version != version ==>
      EditRule(p, r, version, rule, check) == Err(VersionConflict)
  {
  }

  /** A due rule is processed unless it is to make a draft that its account could not take; reminders are made in any
      case. */
  lemma ProcessedIff(p: Plan, r: nat, advance: Advance)
    requires r < |p.rules|
    ensures ProcessRule(p, r, advance, _ => None).Ok? <==>
      || HasOccurrence(p.occurrences, r, p.rules[r].nextDueAt)
      || !p.rules[r].autoDraft
      || Draftable(p, p.rules[r], p.rules[r].nextDueAt)
  {
  }
}
