/** The sync-rules lifecycle: staging, activating, activation and failure of a
    candidate, with the persisted copy and restarts. Compilation and the intent
    hash are opaque. */
module RulesLifecycle {
  import opened Common

  datatype Status = Pending | Activating | Active | Failed | Retired

  datatype Activation = Activation(operation: string, layoutChange: bool, contract: string, failure: Option<string>)

  datatype Entry = Entry(version: nat, content: string, status: Status, base: Option<nat>, intent: Option<string>, activation: Option<Activation>)

  /** The file on disk. */
  datatype Persisted = Persisted(current: Entry, next: Option<Entry>, history: seq<Entry>, revision: nat)

  /** The rules in memory with their compiled plans. */
  datatype Runtime<P> = Runtime(rules: Persisted, currentPlan: P, nextPlan: Option<P>)

  datatype Request = Request(operation: string, content: string, base: Option<nat>, token: Option<string>)

  datatype Error = NoCandidate | VersionMismatch | Busy | StaleBase | MissingPlan | Invalid | DiskFailed

  /** Ok without a change, Ok with a change to persist, or refused. */
  datatype Answer = Standing(entry: Entry) | Changed(entry: Entry) | Refused(error: Error)

  type Compiler<P> = string -> Option<P>
  type Hasher = (string, Option<nat>, string, Option<string>) -> string

  const HISTORY_LIMIT: nat := 64

  function LastEntries(history: seq<Entry>): seq<Entry> {
    if |history| > HISTORY_LIMIT then history[|history| - HISTORY_LIMIT..] else history
  }

  function Pushed(history: seq<Entry>, e: Entry): seq<Entry> {
    LastEntries(history + [e])
  }

  // ------------------------------------------------------------------
  // Steps
  // ------------------------------------------------------------------

  function BaseOf(r: Persisted, req: Request): nat {
    if req.base.Some? then req.base.value else r.current.version
  }

  function IntentOf(hash: Hasher, r: Persisted, req: Request): string {
    hash(req.operation, Some(BaseOf(r, req)), req.content, req.token)
  }

  predicate SameIntent(e: Entry, intent: string, base: nat) {
    e.intent == Some(intent) && e.base == Some(base)
  }

  function Stage<P>(compile: Compiler<P>, hash: Hasher, s: Runtime<P>, req: Request): (Runtime<P>, Answer) {
    var r := s.rules;
    var base, intent := BaseOf(r, req), IntentOf(hash, r, req);
    if compile(req.content).None? then (s, Refused(Invalid))
    else if r.next.Some? then
      (s, if SameIntent(r.next.value, intent, base) then Standing(r.next.value) else Refused(Busy))
    else if SameIntent(r.current, intent, base) then (s, Standing(r.current))
    else if r.current.version != base then (s, Refused(StaleBase))
    else
      var e := Entry(r.revision + 1, req.content, Pending, Some(base), Some(intent), Some(Activation(req.operation, false, "", None)));
      (Runtime(r.(revision := e.version, next := Some(e), history := Pushed(r.history, e)), s.currentPlan, compile(req.content)), Changed(e))
  }

  function MarkActivating<P>(s: Runtime<P>, version: nat, operation: string, layout: bool, contract: string): (Runtime<P>, Answer) {
    var r := s.rules;
    if r.next.None? then (s, Refused(NoCandidate))
    else if r.next.value.version != version then (s, Refused(VersionMismatch))
    else
      var e := r.next.value.(status := Activating, activation := Some(Activation(operation, layout, contract, None)));
      (s.(rules := r.(next := Some(e), history := Pushed(r.history, e))), Changed(e))
  }

  function OperationOf(e: Entry): string {
    if e.activation.Some? then e.activation.value.operation else "activate"
  }

  /** The candidate is taken before its version is looked at. */
  function Activate<P>(s: Runtime<P>, version: nat, layout: bool, contract: string): (Runtime<P>, Answer) {
    var r := s.rules;
    if r.next.None? then (s, Refused(NoCandidate))
    else if r.next.value.version != version then (s.(rules := r.(next := None)), Refused(VersionMismatch))
    else if s.nextPlan.None? then (s.(rules := r.(next := None)), Refused(MissingPlan))
    else
      var next := r.next.value;
      var e := next.(status := Active, activation := Some(Activation(OperationOf(next), layout, contract, None)));
      var history := Pushed(Pushed(r.history, r.current.(status := Retired)), e);
      (Runtime(Persisted(e, None, history, r.revision), s.nextPlan.value, None), Changed(e))
  }

  function Fail<P>(s: Runtime<P>, version: nat, reason: string, layout: bool, contract: string): (Runtime<P>, Answer) {
    var r := s.rules;
    if r.next.None? then (s, Refused(NoCandidate))
    else if r.next.value.version != version then (s.(rules := r.(next := None)), Refused(VersionMismatch))
    else
      var next := r.next.value;
      var e := next.(status := Failed, activation := Some(Activation(OperationOf(next), layout, contract, Some(reason))));
      (Runtime(r.(next := None, history := Pushed(r.history, e)), s.currentPlan, None), Changed(e))
  }

  /** Repairs made when the file is read. */
  function Normalized(r: Persisted): Persisted {
    var current := r.current.(
      status := Active,
      activation := if r.current.activation.Some? then r.current.activation else Some(Activation("bootstrap", false, "", None)));
    var next :=
      if r.next.None? then None
      else
        var e := r.next.value;
        Some(e.(status := if e.status.Active? then Pending else e.status,
                version := if e.version == 0 then Max(r.revision, r.current.version + 1) else e.version));
    Persisted(current, next, LastEntries(r.history), r.revision)
  }

  function Load<P>(compile: Compiler<P>, disk: Persisted): Option<Runtime<P>> {
    var r := Normalized(disk);
    if compile(r.current.content).None? then None
    else if r.next.None? then Some(Runtime(r, compile(r.current.content).value, None))
    else if compile(r.next.value.content).None? then None
    else Some(Runtime(r, compile(r.current.content).value, compile(r.next.value.content)))
  }

  // ------------------------------------------------------------------
  // The service object
  // ------------------------------------------------------------------

  class RulesState<P> {
    const compile: Compiler<P>
    const hash: Hasher
    var current: Entry
    var next: Option<Entry>
    var history: seq<Entry>
    var revision: nat
    var currentPlan: P
    var nextPlan: Option<P>
    var disk: Persisted

    ghost function Value(): Runtime<P>
      reads this
    {
      Runtime(Persisted(current, next, history, revision), currentPlan, nextPlan)
    }

    ghost predicate Valid()
      reads this
    {
      Coherent(compile, Value()) && Durable(compile, disk) && disk.revision <= revision
    }

    /** A fresh installation. */
    constructor (c: Compiler<P>, h: Hasher, content: string)
      requires c(content).Some?
      ensures Valid() && compile == c && hash == h && next.None? && revision == 0
    {
      compile, hash := c, h;
      var first := Entry(0, content, Active, None, None, Some(Activation("bootstrap", false, "", None)));
      current, next, history, revision := first, None, [], 0;
      currentPlan, nextPlan := c(content).value, None;
      disk := Persisted(first, None, [], 0);
    }

    method PushHistory(e: Entry)
      modifies this`history
      ensures history == Pushed(old(history), e)
    {
      history := history + [e];
      if |history| > HISTORY_LIMIT {
        var drain := |history| - HISTORY_LIMIT;
        history := history[drain..];
      }
    }

    /** Write a temporary file and rename it over the old one; a failure leaves the old one. */
    method Write(works: bool) returns (failed: bool)
      modifies this`disk
      ensures failed == !works
      ensures disk == if works then Value().rules else old(disk)
    {
      if works {
        disk := Persisted(current, next, history, revision);
      }
      failed := !works;
    }

    /** The reply to a request that needs no new candidate, if any. */
    method StandingAnswer(base: nat, intent: string) returns (r: Option<Result<Entry, Error>>)
      ensures next.Some? ==> r == Some(if SameIntent(next.value, intent, base) then Ok(next.value) else Err(Busy))
      ensures next.None? && SameIntent(current, intent, base) ==> r == Some(Ok(current))
      ensures next.None? && !SameIntent(current, intent, base) && current.version != base ==> r == Some(Err(StaleBase))
      ensures next.None? && !SameIntent(current, intent, base) && current.version == base ==> r.None?
    {
      if next.Some? {
        return Some(if SameIntent(next.value, intent, base) then Ok(next.value) else Err(Busy));
      }
      if current.version != base {
        return Some(if SameIntent(current, intent, base) then Ok(current) else Err(StaleBase));
      }
      r := if SameIntent(current, intent, base) then Some(Ok(current)) else None;
    }

    method StageCandidate(req: Request, works: bool) returns (r: Result<Entry, Error>)
      requires Valid()
      modifies this
      ensures Valid() && Reports(Stage(compile, hash, old(Value()), req), works, r, old(disk))
      ensures (if r.Ok? then Some(r.value) else None) == Acknowledged(compile, hash, World(old(Value()), old(disk)), Stages(req, works))
    {
      StageKeepsCoherent(compile, hash, Value(), req);
      var plan := compile(req.content);
      if plan.None? {
        return Err(Invalid);
      }
      var base := if req.base.Some? then req.base.value else current.version;
      var intent := hash(req.operation, Some(base), req.content, req.token);
      var standing := StandingAnswer(base, intent);
      if standing.Some? {
        return standing.value;
      }
      var e := Entry(revision + 1, req.content, Pending, Some(base), Some(intent), Some(Activation(req.operation, false, "", None)));
      r := AdoptCandidate(e, plan, works);
    }

    method AdoptCandidate(e: Entry, plan: Option<P>, works: bool) returns (r: Result<Entry, Error>)
      modifies this
      ensures Value() == Runtime(old(Value()).rules.(revision := e.version, next := Some(e), history := Pushed(old(history), e)),
                                 old(currentPlan), plan)
      ensures if works then r == Ok(e) && disk == Value().rules else r == Err(DiskFailed) && disk == old(disk)
    {
      revision, next, nextPlan := e.version, Some(e), plan;
      PushHistory(e);
      var failed := Write(works);
      r := if failed then Err(DiskFailed) else Ok(e);
    }

    method MarkCandidateActivating(version: nat, operation: string, layout: bool, contract: string, works: bool) returns (r: Result<Entry, Error>)
      requires Valid()
      modifies this
      ensures Valid() && Reports(MarkActivating(old(Value()), version, operation, layout, contract), works, r, old(disk))
    {
      if next.None? {
        return Err(NoCandidate);
      }
      if next.value.version != version {
        return Err(VersionMismatch);
      }
      var e := next.value.(status := Activating, activation := Some(Activation(operation, layout, contract, None)));
      next := Some(e);
      PushHistory(e);
      var failed := Write(works);
      r := if failed then Err(DiskFailed) else Ok(e);
    }

    method ActivatePending(version: nat, layout: bool, contract: string, works: bool) returns (r: Result<Entry, Error>)
      requires Valid()
      modifies this
      ensures Valid() && Reports(Activate(old(Value()), version, layout, contract), works, r, old(disk))
    {
      if next.None? {
        return Err(NoCandidate);
      }
      var taken := next.value;
      next := None;
      if taken.version != version {
        return Err(VersionMismatch);
      }
      var plan := nextPlan.value;
      nextPlan := None;
      PushHistory(current.(status := Retired));
      current := taken.(status := Active, activation := Some(Activation(OperationOf(taken), layout, contract, None)));
      currentPlan := plan;
      PushHistory(current);
      var failed := Write(works);
      r := if failed then Err(DiskFailed) else Ok(current);
    }

    method MarkFailed(version: nat, reason: string, layout: bool, contract: string, works: bool) returns (r: Result<Entry, Error>)
      requires Valid()
      modifies this
      ensures Valid() && Reports(Fail(old(Value()), version, reason, layout, contract), works, r, old(disk))
    {
      if next.None? {
        return Err(NoCandidate);
      }
      var taken := next.value;
      next := None;
      if taken.version != version {
        return Err(VersionMismatch);
      }
      nextPlan := None;
      var e := taken.(status := Failed, activation := Some(Activation(OperationOf(taken), layout, contract, Some(reason))));
      PushHistory(e);
      var failed := Write(works);
      r := if failed then Err(DiskFailed) else Ok(e);
    }

    /** A new process reads the file; it never fails to load and finds nothing to repair. */
    method Restart()
      requires Valid()
      modifies this
      ensures Valid() && disk == old(disk) && Load(compile, disk) == Some(Value()) && Value().rules == disk
    {
      current, next, history, revision := disk.current, disk.next, disk.history, disk.revision;
      currentPlan := compile(current.content).value;
      nextPlan := if next.Some? then compile(next.value.content) else None;
    }

    /** The new state and the reply are those of the step; the file changes only with an acknowledged change. */
    ghost predicate Reports(step: (Runtime<P>, Answer), works: bool, r: Result<Entry, Error>, before: Persisted)
      reads this
    {
      && Value() == step.0
      && match step.1
         case Standing(e) => r == Ok(e) && disk == before
         case Refused(error) => r == Err(error) && disk == before
         case Changed(e) => if works then r == Ok(e) && disk == step.0.rules else r == Err(DiskFailed) && disk == before
    }
  }

  // ------------------------------------------------------------------
  // Invariants
  // ------------------------------------------------------------------

  /** Rules that a restart can load unchanged. */
  ghost predicate Durable<P>(compile: Compiler<P>, r: Persisted) {
    && r.current.version <= r.revision && |r.history| <= HISTORY_LIMIT
    && r.current.status.Active? && r.current.activation.Some? && compile(r.current.content).Some?
    && (r.next.Some? ==>
          && r.current.version < r.next.value.version <= r.revision
          && (r.next.value.status.Pending? || r.next.value.status.Activating?)
          && compile(r.next.value.content).Some?)
    && (r.current.base.Some? ==> r.current.base.value < r.current.version)
    && (r.next.Some? && r.next.value.base.Some? ==> r.next.value.base.value == r.current.version)
  }

  /** The active plan is the compilation of the current content, and a present
      candidate has its own compiled plan and a higher version. */
  ghost predicate Coherent<P>(compile: Compiler<P>, s: Runtime<P>) {
    && Durable(compile, s.rules)
    && compile(s.rules.current.content) == Some(s.currentPlan)
    && (s.rules.next.Some? ==> s.nextPlan.Some? && compile(s.rules.next.value.content) == s.nextPlan)
  }

  lemma StageKeepsCoherent<P>(compile: Compiler<P>, hash: Hasher, s: Runtime<P>, req: Request)
    requires Coherent(compile, s)
    ensures Coherent(compile, Stage(compile, hash, s, req).0)
  {
  }

  lemma LoadRestores<P>(compile: Compiler<P>, r: Persisted)
    requires Durable(compile, r)
    ensures Normalized(r) == r && Load(compile, r).Some? && Load(compile, r).value.rules == r
    ensures Coherent(compile, Load(compile, r).value)
  {
  }

  // ------------------------------------------------------------------
  // Runs
  // ------------------------------------------------------------------

  /** `works`: whether writing the file succeeds. */
  datatype Move =
    | Stages(req: Request, works: bool)
    | MarksActivating(version: nat, operation: string, layout: bool, contract: string, works: bool)
    | Activates(version: nat, layout: bool, contract: string, works: bool)
    | Fails(version: nat, reason: string, layout: bool, contract: string, works: bool)
    | Restarts

  datatype World<P> = World(memory: Runtime<P>, disk: Persisted)

  function Step<P>(compile: Compiler<P>, hash: Hasher, s: Runtime<P>, m: Move): (Runtime<P>, Answer)
    requires !m.Restarts?
  {
    match m
    case Stages(req, _) => Stage(compile, hash, s, req)
    case MarksActivating(version, operation, layout, contract, _) => MarkActivating(s, version, operation, layout, contract)
    case Activates(version, layout, contract, _) => Activate(s, version, layout, contract)
    case Fails(version, reason, layout, contract, _) => Fail(s, version, reason, layout, contract)
  }

  function Next<P>(compile: Compiler<P>, hash: Hasher, w: World<P>, m: Move): World<P> {
    if m.Restarts? then
      var loaded := Load(compile, w.disk);
      if loaded.Some? then w.(memory := loaded.value) else w
    else
      var (s, answer) := Step(compile, hash, w.memory, m);
      World(s, if answer.Changed? && m.works then s.rules else w.disk)
  }

  function After<P>(compile: Compiler<P>, hash: Hasher, w: World<P>, ms: seq<Move>): World<P> {
    if ms == [] then w else Next(compile, hash, After(compile, hash, w, ms[..|ms| - 1]), ms[|ms| - 1])
  }

  ghost predicate Sound<P>(compile: Compiler<P>, w: World<P>) {
    Coherent(compile, w.memory) && Durable(compile, w.disk) && w.disk.revision <= w.memory.rules.revision
  }

  lemma MoveKeepsSound<P>(compile: Compiler<P>, hash: Hasher, w: World<P>, m: Move)
    requires Sound(compile, w)
    ensures Sound(compile, Next(compile, hash, w, m))
    ensures w.disk.revision <= Next(compile, hash, w, m).disk.revision
  {
    match m
    case Restarts => LoadRestores(compile, w.disk);
    case Stages(req, _) => StageKeepsCoherent(compile, hash, w.memory, req);
    case _ =>
  }

  /** Over every interleaving of staging, activating, activation and failure,
      with version mismatches, failed writes and restarts: the active plan is
      the compilation of the current content, a present candidate has its own
      plan and a version above the current one, history stays within its limit,
      and what is on disk can always be loaded. */
  lemma {:induction false} LifecycleStaysCoherent<P>(compile: Compiler<P>, hash: Hasher, w: World<P>, ms: seq<Move>)
    requires Sound(compile, w)
    ensures Sound(compile, After(compile, hash, w, ms))
    ensures w.disk.revision <= After(compile, hash, w, ms).disk.revision
    decreases |ms|
  {
    if ms != [] {
      LifecycleStaysCoherent(compile, hash, w, ms[..|ms| - 1]);
      MoveKeepsSound(compile, hash, After(compile, hash, w, ms[..|ms| - 1]), ms[|ms| - 1]);
    }
  }

  // ------------------------------------------------------------------
  // What each call answers, adopts and records
  // ------------------------------------------------------------------

  /** An entry that was asked for with this operation, base, content and token. */
  predicate AskedFor(hash: Hasher, e: Entry, req: Request, base: nat) {
    e.base == Some(base) && e.intent == Some(hash(req.operation, Some(base), req.content, req.token))
  }

  /** What staging answers: content that does not compile is invalid; a waiting
      candidate is the answer to its own request and makes any other busy; the
      current rules answer the request they came from; a request on another
      base is stale; anything else becomes the candidate. */
  lemma StageAnswers<P>(compile: Compiler<P>, hash: Hasher, s: Runtime<P>, req: Request)
    ensures var answer, r := Stage(compile, hash, s, req).1, s.rules;
            var base := if req.base.Some? then req.base.value else r.current.version;
            var compiles := compile(req.content).Some?;
            && (answer == Refused(Invalid) <==> !compiles)
            && (answer == Refused(Busy) <==> compiles && r.next.Some? && !AskedFor(hash, r.next.value, req, base))
            && (answer == Refused(StaleBase) <==> compiles && r.next.None? && !AskedFor(hash, r.current, req, base) && base != r.current.version)
            && (answer.Standing? <==> compiles && if r.next.Some? then AskedFor(hash, r.next.value, req, base) else AskedFor(hash, r.current, req, base))
            && (answer.Standing? ==> answer.entry == if r.next.Some? then r.next.value else r.current)
            && (answer.Changed? <==> compiles && r.next.None? && !AskedFor(hash, r.current, req, base) && base == r.current.version)
  {
  }

  /** What the other calls answer: they need a candidate of the version named. */
  lemma CallAnswers<P>(compile: Compiler<P>, hash: Hasher, s: Runtime<P>, m: Move)
    requires Coherent(compile, s) && (m.MarksActivating? || m.Activates? || m.Fails?)
    ensures var answer := Step(compile, hash, s, m).1;
            && (answer == Refused(NoCandidate) <==> s.rules.next.None?)
            && (answer == Refused(VersionMismatch) <==> s.rules.next.Some? && s.rules.next.value.version != m.version)
            && (answer.Changed? <==> s.rules.next.Some? && s.rules.next.value.version == m.version)
  {
  }

  /** Two entries differ at most in status and activation. */
  predicate SameCandidate(a: Entry, b: Entry) {
    a.version == b.version && SameRules(a, b)
  }

  /** What a change leaves: staging a pending candidate of the next version,
      marking the candidate activating, activation the candidate as current
      rules, failure no candidate and the current rules as they were. */
  ghost predicate Outcome<P>(s: Runtime<P>, m: Move, s': Runtime<P>, e: Entry) {
    match m
    case Stages(req, _) =>
      && e.version == s.rules.revision + 1 && e.content == req.content && e.status.Pending?
      && e.activation == Some(Activation(req.operation, false, "", None))
      && s'.rules.next == Some(e) && s'.rules.current == s.rules.current && s'.rules.revision == e.version
    case MarksActivating(_, operation, layout, contract, _) =>
      && s.rules.next.Some? && SameCandidate(e, s.rules.next.value) && e.status.Activating?
      && e.activation == Some(Activation(operation, layout, contract, None))
      && s'.rules.next == Some(e) && s'.rules.current == s.rules.current && s'.rules.revision == s.rules.revision
    case Activates(_, layout, contract, _) =>
      && s.rules.next.Some? && SameCandidate(e, s.rules.next.value) && e.status.Active?
      && e.activation == Some(Activation(AskedOperation(s.rules.next.value, "activate"), layout, contract, None))
      && s'.rules.next.None? && s'.rules.current == e && s'.rules.revision == s.rules.revision
    case Fails(_, reason, layout, contract, _) =>
      && s.rules.next.Some? && SameCandidate(e, s.rules.next.value) && e.status.Failed?
      && e.activation == Some(Activation(AskedOperation(s.rules.next.value, "activate"), layout, contract, Some(reason)))
      && s'.rules.next.None? && s'.rules.current == s.rules.current && s'.rules.revision == s.rules.revision
    case Restarts => false
  }

  function AskedOperation(e: Entry, otherwise: string): string {
    match e.activation
    case None => otherwise
    case Some(a) => a.operation
  }

  lemma ChangeHasOutcome<P>(compile: Compiler<P>, hash: Hasher, s: Runtime<P>, m: Move)
    requires !m.Restarts? && Step(compile, hash, s, m).1.Changed?
    ensures Outcome(s, m, Step(compile, hash, s, m).0, Step(compile, hash, s, m).1.entry)
  {
  }

  /** The entries a step records: the entry it changed, and before an activated
      one the rules it retires. A refusal or standing answer records nothing. */
  function Recorded<P>(compile: Compiler<P>, hash: Hasher, s: Runtime<P>, m: Move): seq<Entry>
    requires !m.Restarts?
  {
    match Step(compile, hash, s, m).1
    case Changed(e) => if m.Activates? then [s.rules.current.(status := Retired), e] else [e]
    case _ => []
  }

  /** `h` is the newest 64 of `all`, in order. */
  predicate Newest(h: seq<Entry>, all: seq<Entry>) {
    |h| == Min(64, |all|) && forall i | 0 <= i < |h| :: h[i] == all[|all| - |h| + i]
  }

  lemma PushKeepsNewest(h: seq<Entry>, all: seq<Entry>, e: Entry)
    requires Newest(h, all)
    ensures Newest(Pushed(h, e), all + [e])
  {
  }

  lemma StepRecords<P>(compile: Compiler<P>, hash: Hasher, s: Runtime<P>, m: Move, all: seq<Entry>)
    requires !m.Restarts? && Newest(s.rules.history, all)
    ensures Newest(Step(compile, hash, s, m).0.rules.history, all + Recorded(compile, hash, s, m))
  {
    var r := s.rules;
    match Step(compile, hash, s, m).1
    case Changed(e) =>
      if m.Activates? {
        var retired := r.current.(status := Retired);
        PushKeepsNewest(r.history, all, retired);
        PushKeepsNewest(Pushed(r.history, retired), all + [retired], e);
        assert all + [retired] + [e] == all + [retired, e];
      } else {
        PushKeepsNewest(r.history, all, e);
      }
    case _ =>
      assert all + [] == all;
  }

  function RecordedBy<P>(compile: Compiler<P>, hash: Hasher, s: Runtime<P>, ms: seq<Move>): seq<Entry>
    requires forall m | m in ms :: !m.Restarts?
  {
    if ms == [] then [] else
      var front := ms[..|ms| - 1];
      RecordedBy(compile, hash, s, front) + Recorded(compile, hash, RunSteps(compile, hash, s, front), ms[|ms| - 1])
  }

  /** Over every run of calls the history is the newest 64 of the entries it
      began with and those recorded since, in order. */
  lemma {:induction false} HistoryIsNewest<P>(compile: Compiler<P>, hash: Hasher, s: Runtime<P>, ms: seq<Move>)
    requires Coherent(compile, s) && forall m | m in ms :: !m.Restarts?
    ensures Newest(RunSteps(compile, hash, s, ms).rules.history, s.rules.history + RecordedBy(compile, hash, s, ms))
    decreases |ms|
  {
    var h := s.rules.history;
    if ms == [] {
      assert h + [] == h;
    } else {
      var front := ms[..|ms| - 1];
      HistoryIsNewest(compile, hash, s, front);
      var s', more := RunSteps(compile, hash, s, front), RecordedBy(compile, hash, s, front);
      StepRecords(compile, hash, s', ms[|ms| - 1], h + more);
      Associates(h, more, Recorded(compile, hash, s', ms[|ms| - 1]));
    }
  }

  /** What loading repairs in any file: the current rules are active, a candidate
      is not and has a version, history is cut to its newest entries; nothing
      else changes, and repairing twice is repairing once. */
  lemma LoadingRepairs(r: Persisted)
    ensures var n := Normalized(r);
            && n.current.status.Active? && n.current.activation.Some? && SameCandidate(n.current, r.current)
            && (r.current.activation.Some? ==> n.current.activation == r.current.activation)
            && n.revision == r.revision && Newest(n.history, r.history) && n.next.Some? == r.next.Some?
            && (r.next.Some? ==>
                  && !n.next.value.status.Active? && (!r.next.value.status.Active? ==> n.next.value.status == r.next.value.status)
                  && n.next.value.version > 0 && (r.next.value.version > 0 ==> n.next.value.version == r.next.value.version)
                  && (r.next.value.version == 0 ==> n.next.value.version >= r.revision && n.next.value.version > r.current.version)
                  && n.next.value.content == r.next.value.content && n.next.value.activation == r.next.value.activation)
            && Normalized(n) == n
  {
  }

  // ------------------------------------------------------------------
  // Versions
  // ------------------------------------------------------------------

  /** The entry a staging call is answered Ok with: a written change, or a
      standing candidate or current rules, for which nothing is written. */
  function Acknowledged<P>(compile: Compiler<P>, hash: Hasher, w: World<P>, m: Move): Option<Entry> {
    if !m.Stages? then None else
      match Stage(compile, hash, w.memory, m.req).1
      case Standing(e) => Some(e)
      case Changed(e) => if m.works then Some(e) else None
      case Refused(_) => None
  }

  /** The version a move gives out, whether or not it can be written. */
  function Issued<P>(compile: Compiler<P>, hash: Hasher, w: World<P>, m: Move): Option<nat> {
    if !m.Stages? then None else
      match Stage(compile, hash, w.memory, m.req).1
      case Changed(e) => Some(e.version)
      case _ => None
  }

  function Revision<P>(w: World<P>): nat {
    w.memory.rules.revision
  }

  /** A restart while the revision in memory is above the one in the file. */
  predicate Forgets<P>(w: World<P>, m: Move) {
    m.Restarts? && w.disk.revision < Revision(w)
  }

  /** The revision goes down exactly when a move forgets, and otherwise up by
      exactly what is issued. */
  lemma RevisionMoves<P>(compile: Compiler<P>, hash: Hasher, w: World<P>, m: Move)
    requires Sound(compile, w)
    ensures Revision(Next(compile, hash, w, m)) < Revision(w) <==> Forgets(w, m)
    ensures !Forgets(w, m) ==>
              var issued := Issued(compile, hash, w, m);
              Revision(Next(compile, hash, w, m)) == if issued.Some? then issued.value else Revision(w)
    ensures var issued := Issued(compile, hash, w, m); issued.Some? ==> issued.value == Revision(w) + 1
    ensures var e := Acknowledged(compile, hash, w, m); e.Some? ==> e.value.version <= Revision(Next(compile, hash, w, m))
  {
    if m.Restarts? {
      LoadRestores(compile, w.disk);
    }
  }

  ghost predicate Remembers<P>(compile: Compiler<P>, hash: Hasher, w: World<P>, ms: seq<Move>) {
    ms == [] ||
    var front := ms[..|ms| - 1];
    Remembers(compile, hash, w, front) && !Forgets(After(compile, hash, w, front), ms[|ms| - 1])
  }

  /** The world before move `i` of a run. */
  ghost function At<P>(compile: Compiler<P>, hash: Hasher, w: World<P>, ms: seq<Move>, i: nat): World<P>
    requires i <= |ms|
  {
    After(compile, hash, w, ms[..i])
  }

  lemma AtNext<P>(compile: Compiler<P>, hash: Hasher, w: World<P>, ms: seq<Move>, i: nat)
    requires i < |ms|
    ensures At(compile, hash, w, ms, i + 1) == Next(compile, hash, At(compile, hash, w, ms, i), ms[i])
  {
    assert ms[..i + 1][..i] == ms[..i];
  }

  /** Some move of the run issues this version. */
  ghost predicate IssuedIn<P>(compile: Compiler<P>, hash: Hasher, w: World<P>, ms: seq<Move>, v: nat) {
    ms != [] &&
    var front := ms[..|ms| - 1];
    IssuedIn(compile, hash, w, front, v) || Issued(compile, hash, After(compile, hash, w, front), ms[|ms| - 1]) == Some(v)
  }

  lemma {:induction false} IssuedAt<P>(compile: Compiler<P>, hash: Hasher, w: World<P>, ms: seq<Move>, i: nat, v: nat)
    requires i < |ms| && Issued(compile, hash, At(compile, hash, w, ms, i), ms[i]) == Some(v)
    ensures IssuedIn(compile, hash, w, ms, v)
    decreases |ms|
  {
    var front := ms[..|ms| - 1];
    assert i < |front| ==> front[..i] == ms[..i];
    if i < |front| {
      IssuedAt(compile, hash, w, front, i, v);
    }
  }

  /** Over a run that forgets nothing, the versions issued are exactly those
      between the first revision and the last. */
  lemma {:induction false} IssuedAreConsecutive<P>(compile: Compiler<P>, hash: Hasher, w: World<P>, ms: seq<Move>, v: nat)
    requires Sound(compile, w) && Remembers(compile, hash, w, ms)
    ensures IssuedIn(compile, hash, w, ms, v) <==> Revision(w) < v <= Revision(After(compile, hash, w, ms))
    ensures Revision(w) <= Revision(After(compile, hash, w, ms))
    decreases |ms|
  {
    if ms != [] {
      var front := ms[..|ms| - 1];
      IssuedAreConsecutive(compile, hash, w, front, v);
      LifecycleStaysCoherent(compile, hash, w, front);
      RevisionMoves(compile, hash, After(compile, hash, w, front), ms[|ms| - 1]);
    }
  }

  lemma {:induction false} AcknowledgedIsIssued<P>(compile: Compiler<P>, hash: Hasher, w: World<P>, ms: seq<Move>, i: nat)
    requires Sound(compile, w) && Remembers(compile, hash, w, ms) && i < |ms|
    ensures var e := Acknowledged(compile, hash, At(compile, hash, w, ms, i), ms[i]);
            e.Some? ==> e.value.version <= Revision(After(compile, hash, w, ms))
    decreases |ms|
  {
    var front := ms[..|ms| - 1];
    LifecycleStaysCoherent(compile, hash, w, front);
    RevisionMoves(compile, hash, After(compile, hash, w, front), ms[|ms| - 1]);
    if i < |front| {
      assert front[..i] == ms[..i];
      AcknowledgedIsIssued(compile, hash, w, front, i);
    }
  }

  /** Through any calls, failed writes and restarts of which none forgets, a
      version given out lies above every version issued or acknowledged before. */
  lemma VersionsOnlyGrow<P>(compile: Compiler<P>, hash: Hasher, w: World<P>, ms: seq<Move>, m: Move, i: nat)
    requires Sound(compile, w) && Remembers(compile, hash, w, ms) && i < |ms|
    ensures var v := Issued(compile, hash, After(compile, hash, w, ms), m);
            var before := At(compile, hash, w, ms, i);
            v.Some? ==>
              && (Issued(compile, hash, before, ms[i]).Some? ==> Issued(compile, hash, before, ms[i]).value < v.value)
              && (Acknowledged(compile, hash, before, ms[i]).Some? ==> Acknowledged(compile, hash, before, ms[i]).value.version < v.value)
  {
    LifecycleStaysCoherent(compile, hash, w, ms);
    RevisionMoves(compile, hash, After(compile, hash, w, ms), m);
    AcknowledgedIsIssued(compile, hash, w, ms, i);
    var u := Issued(compile, hash, At(compile, hash, w, ms, i), ms[i]);
    if u.Some? {
      IssuedAt(compile, hash, w, ms, i, u.value);
      IssuedAreConsecutive(compile, hash, w, ms, u.value);
    }
  }

  /** A version is given out both before and after a restart if and only if the
      restart forgot - the revision in memory was above the file's - and any
      version is given out after it. */
  lemma VersionIsReusedIff<P>(compile: Compiler<P>, hash: Hasher, w: World<P>, before: seq<Move>, after: seq<Move>)
    requires Sound(compile, w) && Revision(w) == w.disk.revision && Remembers(compile, hash, w, before)
    requires Remembers(compile, hash, Next(compile, hash, After(compile, hash, w, before), Restarts), after)
    ensures var stopped := After(compile, hash, w, before);
            var started := Next(compile, hash, stopped, Restarts);
            (exists v :: IssuedIn(compile, hash, w, before, v) && IssuedIn(compile, hash, started, after, v))
            <==> Forgets(stopped, Restarts) && exists v :: IssuedIn(compile, hash, started, after, v)
  {
    var stopped := After(compile, hash, w, before);
    var started := Next(compile, hash, stopped, Restarts);
    LifecycleStaysCoherent(compile, hash, w, before);
    RestartLoads(compile, hash, stopped);
    forall v: nat
      ensures IssuedIn(compile, hash, w, before, v) <==> Revision(w) < v <= Revision(stopped)
      ensures IssuedIn(compile, hash, started, after, v) <==> stopped.disk.revision < v <= Revision(After(compile, hash, started, after))
    {
      IssuedAreConsecutive(compile, hash, w, before, v);
      IssuedAreConsecutive(compile, hash, started, after, v);
    }
    var first := stopped.disk.revision + 1;
    assert IssuedIn(compile, hash, w, before, first) <==> Forgets(stopped, Restarts);
    if v :| IssuedIn(compile, hash, started, after, v) {
      assert IssuedIn(compile, hash, started, after, first);
    }
  }

  lemma RestartLoads<P>(compile: Compiler<P>, hash: Hasher, w: World<P>)
    requires Sound(compile, w)
    ensures Sound(compile, Next(compile, hash, w, Restarts)) && Revision(Next(compile, hash, w, Restarts)) == w.disk.revision
  {
    MoveKeepsSound(compile, hash, w, Restarts);
    LoadRestores(compile, w.disk);
  }

  predicate SameRules(a: Entry, b: Entry) {
    a.content == b.content && a.base == b.base && a.intent == b.intent
  }

  /** Wherever the version of an entry stands, it stands for the entry's rules. */
  predicate Names(r: Persisted, e: Entry) {
    && (r.current.version == e.version ==> SameRules(r.current, e))
    && (r.next.Some? && r.next.value.version == e.version ==> SameRules(r.next.value, e))
  }

  /** File and memory never disagree on what a version stands for. */
  ghost predicate Agree<P>(w: World<P>) {
    Names(w.disk, w.memory.rules.current) && (w.memory.rules.next.Some? ==> Names(w.disk, w.memory.rules.next.value))
  }

  lemma MoveKeepsAgree<P>(compile: Compiler<P>, hash: Hasher, w: World<P>, m: Move)
    requires Sound(compile, w) && Agree(w)
    ensures Agree(Next(compile, hash, w, m))
    ensures var e := Acknowledged(compile, hash, w, m);
            e.Some? ==> Names(Next(compile, hash, w, m).memory.rules, e.value) && Names(Next(compile, hash, w, m).disk, e.value)
  {
    if m.Restarts? {
      LoadRestores(compile, w.disk);
    }
  }

  lemma MoveKeepsName<P>(compile: Compiler<P>, hash: Hasher, w: World<P>, m: Move, e: Entry)
    requires Sound(compile, w) && e.version <= Revision(w) && !Forgets(w, m) && Names(w.memory.rules, e) && Names(w.disk, e)
    ensures var w' := Next(compile, hash, w, m); e.version <= Revision(w') && Names(w'.memory.rules, e) && Names(w'.disk, e)
    ensures var again := Acknowledged(compile, hash, w, m);
            again.Some? && again.value.version == e.version ==> SameRules(again.value, e)
  {
    RevisionMoves(compile, hash, w, m);
    if m.Restarts? {
      LoadRestores(compile, w.disk);
    }
  }

  lemma {:induction false} RunKeepsName<P>(compile: Compiler<P>, hash: Hasher, w: World<P>, ms: seq<Move>, e: Entry)
    requires Sound(compile, w) && Remembers(compile, hash, w, ms)
    requires e.version <= Revision(w) && Names(w.memory.rules, e) && Names(w.disk, e)
    ensures var w' := After(compile, hash, w, ms); e.version <= Revision(w') && Names(w'.memory.rules, e) && Names(w'.disk, e)
    decreases |ms|
  {
    if ms != [] {
      var front := ms[..|ms| - 1];
      RunKeepsName(compile, hash, w, front, e);
      LifecycleStaysCoherent(compile, hash, w, front);
      MoveKeepsName(compile, hash, After(compile, hash, w, front), ms[|ms| - 1], e);
    }
  }

  /** Through a run that forgets nothing, two acknowledgements of one version are
      acknowledgements of the same rules. */
  lemma VersionNamesOneContent<P>(compile: Compiler<P>, hash: Hasher, w: World<P>, first: Move, between: seq<Move>, second: Move)
    requires Sound(compile, w) && Agree(w) && Remembers(compile, hash, Next(compile, hash, w, first), between)
    ensures var w1 := Next(compile, hash, w, first);
            var w2 := After(compile, hash, w1, between);
            var a, b := Acknowledged(compile, hash, w, first), Acknowledged(compile, hash, w2, second);
            a.Some? && b.Some? && a.value.version == b.value.version ==> SameRules(a.value, b.value)
  {
    var w1 := Next(compile, hash, w, first);
    var w2 := After(compile, hash, w1, between);
    var a := Acknowledged(compile, hash, w, first);
    MoveKeepsSound(compile, hash, w, first);
    if a.Some? && second.Stages? {
      MoveKeepsAgree(compile, hash, w, first);
      RevisionMoves(compile, hash, w, first);
      RunKeepsName(compile, hash, w1, between, a.value);
      LifecycleStaysCoherent(compile, hash, w1, between);
      MoveKeepsName(compile, hash, w2, second, a.value);
    }
  }

  /** A run that reuses a version: a failed write leaves candidate 1 in memory,
      its retry is acknowledged, a restart forgets it, and version 1 is then
      acknowledged for other rules. */
  lemma ForgottenVersionIsReused() returns (compile: Compiler<string>, hash: Hasher, w: World<string>, ms: seq<Move>)
    ensures && Sound(compile, w) && Agree(w) && |ms| == 4 && ms[2].Restarts?
            && var a := Acknowledged(compile, hash, At(compile, hash, w, ms, 1), ms[1]);
               var b := Acknowledged(compile, hash, At(compile, hash, w, ms, 3), ms[3]);
               a.Some? && b.Some? && a.value.version == b.value.version && a.value.content != b.value.content
  {
    compile, hash := c => Some(c), (o, b, c, t) => c;
    var start := Entry(0, "start", Active, None, None, Some(Activation("bootstrap", false, "", None)));
    var disk := Persisted(start, None, [], 0);
    w := World(Runtime(disk, "start", None), disk);
    var a, b := Request("deploy", "A", None, None), Request("deploy", "B", None, None);
    ms := [Stages(a, false), Stages(a, true), Restarts, Stages(b, true)];
    var w1 := Next(compile, hash, w, ms[0]);
    var w3 := Next(compile, hash, w1, Restarts);
    AtNext(compile, hash, w, ms, 0);
    AtNext(compile, hash, w, ms, 1);
    AtNext(compile, hash, w, ms, 2);
    assert At(compile, hash, w, ms, 1) == w1 && Next(compile, hash, w1, ms[1]) == w1;
    assert w3.memory.rules == disk;
  }

  // ------------------------------------------------------------------
  // Lost candidates and retries
  // ------------------------------------------------------------------

  /** A refused call keeps the pending candidate, except that activation and
      failure drop it whenever they name another version. */
  lemma RefusalKeepsCandidateIff<P>(compile: Compiler<P>, hash: Hasher, s: Runtime<P>, m: Move)
    requires Coherent(compile, s) && !m.Restarts? && s.rules.next.Some?
    requires Step(compile, hash, s, m).1.Refused?
    ensures Step(compile, hash, s, m).0.rules.next == s.rules.next
            <==> !((m.Activates? || m.Fails?) && m.version != s.rules.next.value.version)
  {
  }

  /** An activation that names another version is refused and takes the candidate along. */
  lemma RefusedActivationDropsCandidate() returns (compile: Compiler<string>, hash: Hasher, s: Runtime<string>, m: Move)
    ensures && Coherent(compile, s) && s.rules.next.Some? && m.Activates?
            && Step(compile, hash, s, m).1 == Refused(VersionMismatch) && Step(compile, hash, s, m).0.rules.next.None?
  {
    compile, hash := c => Some(c), (o, b, c, t) => c;
    var activation := Some(Activation("deploy", false, "", None));
    var current := Entry(0, "A", Active, None, None, activation);
    s := Runtime(Persisted(current, Some(Entry(1, "B", Pending, Some(0), Some("B"), activation)), [], 1), "A", Some("B"));
    m := Activates(2, false, "", true);
  }

  /** The request has taken effect here: as the candidate or as the current rules. */
  ghost predicate Settled<P>(hash: Hasher, s: Runtime<P>, req: Request) {
    && req.base.Some?
    && var intent := IntentOf(hash, s.rules, req);
       || (s.rules.next.Some? && SameIntent(s.rules.next.value, intent, req.base.value))
       || SameIntent(s.rules.current, intent, req.base.value)
  }

  ghost predicate AsCandidate<P>(hash: Hasher, s: Runtime<P>, req: Request) {
    s.rules.next.Some? && req.base.Some? && SameIntent(s.rules.next.value, IntentOf(hash, s.rules, req), req.base.value)
  }

  /** A move after which a settled request is no longer in effect: its
      candidate is taken away, or other rules are activated over it. */
  ghost predicate Unsettles<P>(hash: Hasher, s: Runtime<P>, req: Request, m: Move) {
    if AsCandidate(hash, s, req)
    then m.Fails? || (m.Activates? && m.version != s.rules.next.value.version)
    else m.Activates? && s.rules.next.Some? && m.version == s.rules.next.value.version
  }

  /** Staging a request that names its base settles it, and a retry while it is settled changes nothing. */
  lemma RetryChangesNothing<P>(compile: Compiler<P>, hash: Hasher, s: Runtime<P>, req: Request)
    requires Coherent(compile, s) && req.base.Some?
    ensures var r := Stage(compile, hash, s, req); !r.1.Refused? ==> Settled(hash, r.0, req)
    ensures Settled(hash, s, req) ==> Stage(compile, hash, s, req).0 == s && !Stage(compile, hash, s, req).1.Changed?
  {
  }

  /** A settled request stays settled across a move exactly when the move does not unsettle it. */
  lemma StaysSettledIff<P>(compile: Compiler<P>, hash: Hasher, s: Runtime<P>, req: Request, m: Move)
    requires Coherent(compile, s) && Settled(hash, s, req) && !m.Restarts?
    ensures Settled(hash, Step(compile, hash, s, m).0, req) <==> !Unsettles(hash, s, req, m)
  {
  }

  function RunSteps<P>(compile: Compiler<P>, hash: Hasher, s: Runtime<P>, ms: seq<Move>): Runtime<P>
    requires forall m | m in ms :: !m.Restarts?
  {
    if ms == [] then s else Step(compile, hash, RunSteps(compile, hash, s, ms[..|ms| - 1]), ms[|ms| - 1]).0
  }

  ghost predicate Undisturbed<P>(compile: Compiler<P>, hash: Hasher, s: Runtime<P>, req: Request, ms: seq<Move>)
    requires forall m | m in ms :: !m.Restarts?
  {
    ms == [] ||
    var front := ms[..|ms| - 1];
    Undisturbed(compile, hash, s, req, front) && !Unsettles(hash, RunSteps(compile, hash, s, front), req, ms[|ms| - 1])
  }

  lemma StepKeepsCoherent<P>(compile: Compiler<P>, hash: Hasher, s: Runtime<P>, m: Move)
    requires Coherent(compile, s) && !m.Restarts?
    ensures Coherent(compile, Step(compile, hash, s, m).0)
  {
  }

  /** Idempotence over runs: once staged on an explicit base, a request can be
      repeated at any later point without changing anything, through any other
      calls, its own activation included, until a call takes its candidate away
      or activates other rules. */
  lemma {:induction false} RetryIsIdempotent<P>(compile: Compiler<P>, hash: Hasher, s: Runtime<P>, req: Request, ms: seq<Move>)
    requires Coherent(compile, s) && Settled(hash, s, req) && forall m | m in ms :: !m.Restarts?
    requires Undisturbed(compile, hash, s, req, ms)
    ensures var s' := RunSteps(compile, hash, s, ms);
            Coherent(compile, s') && Settled(hash, s', req)
            && Stage(compile, hash, s', req).0 == s' && !Stage(compile, hash, s', req).1.Changed?
    decreases |ms|
  {
    if ms != [] {
      var front, last := ms[..|ms| - 1], ms[|ms| - 1];
      RetryIsIdempotent(compile, hash, s, req, front);
      StaysSettledIff(compile, hash, RunSteps(compile, hash, s, front), req, last);
      StepKeepsCoherent(compile, hash, RunSteps(compile, hash, s, front), last);
    }
    RetryChangesNothing(compile, hash, RunSteps(compile, hash, s, ms), req);
  }
}
