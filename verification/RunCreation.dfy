/**
 Creating workflow runs: the explicit route, idempotent through a check before
 and a check after admission, and the auto-use route, which has no idempotency
 key. Requests run as interleaved READ COMMITTED transactions; one event is one
 statement of one of them, and a run of the database is a sequence of events.
 */
module RunCreation {
  import opened Json

  type Id = string

  // The columns of the idempotency index; without a token nothing is deduplicated.
  datatype Key = Key(client: Id, account: Id, device: Id, token: Option<Id>)

  // What a replay is compared on.
  datatype Content = Content(safetyClass: string, intent: string, planHash: string,
                             requestKey: Option<string>, cacheKey: Option<string>)

  datatype RunRow = RunRow(key: Key, content: Content, task: Option<nat>)

  datatype TaskRow = TaskRow(run: nat)

  datatype Phase = Started | Checked | Admitted | Rechecked | RunInserted | TaskInserted | Linked

  // An open transaction: its uncommitted rows and the advisory lock it holds.
  datatype Tx = Tx(explicit: bool, key: Key, content: Content, phase: Phase, lock: Option<Id>,
                   run: nat, task: nat)

  datatype Reply = Created(run: nat) | Replayed(run: nat) | Conflict | Error

  datatype Answer = Answer(key: Key, content: Content, reply: Reply)

  // `lock` is the advisory lock a request's admission takes, if its safety class
  // is kept in the admission ledger.
  datatype Config = Config(secondCheck: bool, uniqueIndex: bool, lock: (Key, Content) -> Option<Id>)

  datatype Store = Store(runs: map<nat, RunRow>, tasks: map<nat, TaskRow>, txs: map<Id, Tx>,
                         answers: map<Id, Answer>, nextId: nat)

  const EMPTY := Store(map[], map[], map[], map[], 0)

  // `ok` is false when the statement fails or the connection is lost; `row` is
  // the row a replay query returned.
  datatype Event = Begin(tx: Id, explicit: bool, key: Key, content: Content) | Advance(tx: Id, ok: bool, row: nat)

  // ---- Statements -----------------------------------------------------------

  // The transaction is over: its answer is given, its lock and rows are gone.
  function Close(s: Store, tx: Id, reply: Reply): Store
    requires tx in s.txs
  {
    s.(txs := s.txs - {tx}, answers := s.answers[tx := Answer(s.txs[tx].key, s.txs[tx].content, reply)])
  }

  function Enter(s: Store, tx: Id, t: Tx): Store {
    s.(txs := s.txs[tx := t])
  }

  predicate Bound(s: Store, key: Key) {
    exists r | r in s.runs :: s.runs[r].key == key
  }

  // findIdempotentReplay, then the next phase if there is nothing to replay.
  function Check(s: Store, tx: Id, row: nat, next: Phase): Store
    requires tx in s.txs
  {
    var t := s.txs[tx];
    if t.key.token.None? || !Bound(s, t.key) then Enter(s, tx, t.(phase := next))
    else if row !in s.runs || s.runs[row].key != t.key then s
    else if s.runs[row].content == t.content then Close(s, tx, Replayed(row))
    else Close(s, tx, Conflict)
  }

  predicate LockHeld(s: Store, tx: Id, lock: Id) {
    exists other | other in s.txs :: other != tx && s.txs[other].lock == Some(lock)
  }

  // reserveWorkflowSafetyAdmission: an advisory lock until the transaction ends.
  function Admit(c: Config, s: Store, tx: Id): Store
    requires tx in s.txs
  {
    var t := s.txs[tx];
    var lock := c.lock(t.key, t.content);
    if lock.Some? && LockHeld(s, tx, lock.value) then s
    else Enter(s, tx, t.(phase := Admitted, lock := lock))
  }

  predicate Inserted(t: Tx) { t.phase.RunInserted? || t.phase.TaskInserted? || t.phase.Linked? }

  predicate InsertPending(s: Store, tx: Id, key: Key) {
    exists other | other in s.txs :: other != tx && Inserted(s.txs[other]) && s.txs[other].key == key
  }

  // A unique index makes an insert wait for an open transaction with the same
  // key, and fail after a committed one.
  function InsertRun(c: Config, s: Store, tx: Id): Store
    requires tx in s.txs
  {
    var t := s.txs[tx];
    if c.uniqueIndex && t.key.token.Some? && InsertPending(s, tx, t.key) then s
    else if c.uniqueIndex && t.key.token.Some? && Bound(s, t.key) then Close(s, tx, Error)
    else Enter(s, tx, t.(phase := RunInserted, run := s.nextId)).(nextId := s.nextId + 1)
  }

  function InsertTask(s: Store, tx: Id): Store
    requires tx in s.txs
  {
    Enter(s, tx, s.txs[tx].(phase := TaskInserted, task := s.nextId)).(nextId := s.nextId + 1)
  }

  function Commit(s: Store, tx: Id): Store
    requires tx in s.txs
  {
    var t := s.txs[tx];
    Close(s, tx, Created(t.run)).(runs := s.runs[t.run := RunRow(t.key, t.content, Some(t.task))],
                                  tasks := s.tasks[t.task := TaskRow(t.run)])
  }

  function Proceed(c: Config, s: Store, tx: Id, row: nat): Store
    requires tx in s.txs
  {
    var t := s.txs[tx];
    match t.phase
    case Started => if t.explicit then Check(s, tx, row, Checked) else Enter(s, tx, t.(phase := Rechecked))
    case Checked => Admit(c, s, tx)
    case Admitted => if c.secondCheck then Check(s, tx, row, Rechecked) else Enter(s, tx, t.(phase := Rechecked))
    case Rechecked => InsertRun(c, s, tx)
    case RunInserted => InsertTask(s, tx)
    case TaskInserted => Enter(s, tx, t.(phase := Linked))
    case Linked => Commit(s, tx)
  }

  // The auto-use route inserts no idempotency key.
  function Step(c: Config, s: Store, e: Event): Store {
    match e
    case Begin(tx, explicit, key, content) =>
      if tx in s.txs || tx in s.answers then s
      else Enter(s, tx, Tx(explicit, if explicit then key else key.(token := None), content, Started, None, 0, 0))
    case Advance(tx, ok, row) =>
      if tx !in s.txs then s
      else if !ok then Close(s, tx, Error)
      else Proceed(c, s, tx, row)
  }

  function Run(c: Config, s: Store, events: seq<Event>): Store
    decreases |events|
  {
    if events == [] then s else Run(c, Step(c, s, events[0]), events[1..])
  }

  // ---- Runs and tasks name each other ---------------------------------------

  predicate RunHasTask(s: Store, r: nat)
    requires r in s.runs
  {
    s.runs[r].task.Some? && s.runs[r].task.value in s.tasks && s.tasks[s.runs[r].task.value].run == r
  }

  predicate TaskHasRun(s: Store, t: nat)
    requires t in s.tasks
  {
    s.tasks[t].run in s.runs && s.runs[s.tasks[t].run].task == Some(t)
  }

  predicate LinksAgree(s: Store) {
    (forall r :: r in s.runs ==> RunHasTask(s, r)) && (forall t :: t in s.tasks ==> TaskHasRun(s, t))
  }

  predicate HasTask(t: Tx) { t.phase.TaskInserted? || t.phase.Linked? }

  // Ids of committed and pending rows are all different.
  predicate IdsFresh(s: Store) {
    && (forall r :: r in s.runs ==> r < s.nextId) && (forall t :: t in s.tasks ==> t < s.nextId)
    && (forall x :: x in s.txs && Inserted(s.txs[x]) ==> s.txs[x].run < s.nextId && s.txs[x].run !in s.runs)
    && (forall x :: x in s.txs && HasTask(s.txs[x]) ==> s.txs[x].task < s.nextId && s.txs[x].task !in s.tasks)
    && (forall x, y | x in s.txs && y in s.txs && x != y ::
          && (Inserted(s.txs[x]) && Inserted(s.txs[y]) ==> s.txs[x].run != s.txs[y].run)
          && (HasTask(s.txs[x]) && HasTask(s.txs[y]) ==> s.txs[x].task != s.txs[y].task))
  }

  // A statement of an open transaction other than its commit: nothing, an answer that created nothing, or progress.
  predicate Idles(s: Store, s': Store, tx: Id) {
    || s' == s
    || (tx in s.txs && tx in s'.answers && !s'.answers[tx].reply.Created? && s' == Close(s, tx, s'.answers[tx].reply))
    || (tx in s'.txs && s' == Enter(s, tx, s'.txs[tx]).(nextId := s'.nextId) && Progresses(s, s', tx))
  }

  // A request keeps what it asked for.
  predicate Mine(t: Tx, explicit: bool, key: Key, content: Content) {
    t.explicit == explicit && t.key == key && t.content == content
  }

  // Ids a transaction has taken stay its own, and new ones are new.
  predicate Progresses(s: Store, s': Store, tx: Id)
    requires tx in s'.txs
  {
    var t' := s'.txs[tx];
    && s.nextId <= s'.nextId
    && (tx in s.txs ==> Mine(t', s.txs[tx].explicit, s.txs[tx].key, s.txs[tx].content))
    && (Inserted(t') ==>
        (tx in s.txs && Inserted(s.txs[tx]) && t'.run == s.txs[tx].run) || s.nextId <= t'.run < s'.nextId)
    && (HasTask(t') ==>
        (tx in s.txs && HasTask(s.txs[tx]) && t'.task == s.txs[tx].task) || s.nextId <= t'.task < s'.nextId)
  }

  lemma CheckIdles(s: Store, tx: Id, row: nat, next: Phase)
    requires tx in s.txs
             && ((s.txs[tx].phase.Started? && next.Checked?) || (s.txs[tx].phase.Admitted? && next.Rechecked?))
    ensures Idles(s, Check(s, tx, row, next), tx)
  {
  }

  lemma InsertRunIdles(c: Config, s: Store, tx: Id)
    requires tx in s.txs && s.txs[tx].phase.Rechecked?
    ensures Idles(s, InsertRun(c, s, tx), tx)
  {
  }

  lemma StatementIdles(c: Config, s: Store, tx: Id, row: nat)
    requires tx in s.txs && !s.txs[tx].phase.Linked?
    ensures Idles(s, Proceed(c, s, tx, row), tx)
  {
    match s.txs[tx].phase
    case Started => CheckIdles(s, tx, row, Checked);
    case Admitted => CheckIdles(s, tx, row, Rechecked);
    case Rechecked => InsertRunIdles(c, s, tx);
    case _ =>
  }

  predicate Commits(s: Store, e: Event) {
    e.Advance? && e.ok && e.tx in s.txs && s.txs[e.tx].phase.Linked?
  }

  lemma StepIdles(c: Config, s: Store, e: Event)
    requires !Commits(s, e)
    ensures Idles(s, Step(c, s, e), e.tx)
  {
    if e.Advance? && e.tx in s.txs && e.ok { StatementIdles(c, s, e.tx, e.row); }
  }

  // Only the commit of a linked pair writes the tables, and it writes just that
  // pair: whatever else a request is answered, both tables are as they were.
  lemma OnlyCommitWrites(c: Config, s: Store, e: Event)
    requires IdsFresh(s)
    ensures var s' := Step(c, s, e);
            if !Commits(s, e) then s'.runs == s.runs && s'.tasks == s.tasks
            else
              var t := s.txs[e.tx];
              && e.tx in s'.answers && s'.answers[e.tx].reply == Created(t.run) && t.run !in s.runs
              && t.task !in s.tasks
              && s'.runs == s.runs[t.run := RunRow(t.key, t.content, Some(t.task))]
              && s'.tasks == s.tasks[t.task := TaskRow(t.run)]
  {
    if !Commits(s, e) { StepIdles(c, s, e); }
  }

  lemma CloseKeepsIds(s: Store, tx: Id, reply: Reply)
    requires IdsFresh(s) && tx in s.txs
    ensures IdsFresh(Close(s, tx, reply))
  {
  }

  lemma ProgressKeepsIds(s: Store, s': Store, tx: Id)
    requires IdsFresh(s) && tx in s'.txs && s' == Enter(s, tx, s'.txs[tx]).(nextId := s'.nextId)
             && Progresses(s, s', tx)
    ensures IdsFresh(s')
  {
  }

  lemma CommitKeepsIds(s: Store, tx: Id)
    requires IdsFresh(s) && tx in s.txs && s.txs[tx].phase.Linked?
    ensures IdsFresh(Commit(s, tx))
  {
  }

  lemma StepKeepsIds(c: Config, s: Store, e: Event)
    requires IdsFresh(s)
    ensures IdsFresh(Step(c, s, e))
  {
    var s' := Step(c, s, e);
    if Commits(s, e) {
      CommitKeepsIds(s, e.tx);
    } else {
      StepIdles(c, s, e);
      if s' != s {
        if e.tx in s'.txs { ProgressKeepsIds(s, s', e.tx); } else { CloseKeepsIds(s, e.tx, s'.answers[e.tx].reply); }
      }
    }
  }

  lemma StepKeepsLinks(c: Config, s: Store, e: Event)
    requires IdsFresh(s) && LinksAgree(s)
    ensures LinksAgree(Step(c, s, e))
  {
    OnlyCommitWrites(c, s, e);
  }

  lemma {:induction false} RunKeepsLinks(c: Config, s: Store, events: seq<Event>)
    requires IdsFresh(s) && LinksAgree(s)
    ensures IdsFresh(Run(c, s, events)) && LinksAgree(Run(c, s, events))
    decreases |events|
  {
    if events != [] {
      StepKeepsIds(c, s, events[0]);
      StepKeepsLinks(c, s, events[0]);
      RunKeepsLinks(c, Step(c, s, events[0]), events[1..]);
    }
  }

  // In every committed state of every interleaving, runs and tasks are in one to one correspondence.
  lemma RunsAndTasksCorrespond(c: Config, events: seq<Event>, r: nat, t: nat)
    ensures var s := Run(c, EMPTY, events);
            && (r in s.runs ==> RunHasTask(s, r)) && (t in s.tasks ==> TaskHasRun(s, t))
            && (r in s.runs && t in s.tasks ==> (s.runs[r].task == Some(t) <==> s.tasks[t].run == r))
  {
    RunKeepsLinks(c, EMPTY, events);
  }

  // ---- At most one run per idempotency key ----------------------------------

  predicate OnePerKey(s: Store) {
    forall q, r | q in s.runs && r in s.runs ::
      s.runs[q].key == s.runs[r].key && s.runs[q].key.token.Some? ==> q == r
  }

  // With the index: rows waiting to be committed collide with nothing.
  predicate PendingApart(s: Store) {
    && (forall x, r | x in s.txs && r in s.runs ::
          Inserted(s.txs[x]) && s.txs[x].key.token.Some? ==> s.runs[r].key != s.txs[x].key)
    && (forall x, y | x in s.txs && y in s.txs ::
          (Inserted(s.txs[x]) && Inserted(s.txs[y])
           && s.txs[x].key.token.Some? && s.txs[x].key == s.txs[y].key) ==> x == y)
  }

  // With serialising admission: a request past admission holds its key's lock
  // alone, and past the second check it still finds no run.
  predicate AdmissionHeld(c: Config, s: Store) {
    && (forall x :: x in s.txs && PastAdmission(s.txs[x]) ==> s.txs[x].lock == c.lock(s.txs[x].key, s.txs[x].content))
    && (forall x, y | x in s.txs && y in s.txs ::
          (PastAdmission(s.txs[x]) && PastAdmission(s.txs[y])
           && s.txs[x].lock.Some? && s.txs[x].lock == s.txs[y].lock) ==> x == y)
    && (forall x, r | x in s.txs && r in s.runs ::
          PastAdmission(s.txs[x]) && !s.txs[x].phase.Admitted? ==> s.runs[r].key != s.txs[x].key)
  }

  predicate PastAdmission(t: Tx) {
    t.key.token.Some? && (t.phase.Admitted? || t.phase.Rechecked? || Inserted(t))
  }

  // Only explicit requests carry a key.
  predicate KeyedExplicit(s: Store) {
    forall x :: x in s.txs && s.txs[x].key.token.Some? ==> s.txs[x].explicit
  }

  // Admission takes one lock for all requests of a key, whatever they ask for.
  ghost predicate Serialises(c: Config) {
    forall key: Key, a: Content, b: Content ::
      key.token.Some? ==> c.lock(key, a).Some? && c.lock(key, a) == c.lock(key, b)
  }

  lemma StepKeepsKeyed(c: Config, s: Store, e: Event)
    requires KeyedExplicit(s)
    ensures KeyedExplicit(Step(c, s, e))
  {
  }

  // ---- ... by the index

  // Rows become pending only past the index's own checks.
  predicate IndexGuards(c: Config, s: Store, s': Store, tx: Id) {
    tx in s'.txs && Inserted(s'.txs[tx]) && s'.txs[tx].key.token.Some? && c.uniqueIndex ==>
      && tx in s.txs && s'.txs[tx].key == s.txs[tx].key
      && (Inserted(s.txs[tx]) || (!InsertPending(s, tx, s.txs[tx].key) && !Bound(s, s.txs[tx].key)))
  }

  lemma StatementIndexGuards(c: Config, s: Store, tx: Id, row: nat)
    requires tx in s.txs && !s.txs[tx].phase.Linked?
    ensures IndexGuards(c, s, Proceed(c, s, tx, row), tx)
  {
  }

  lemma IdlesKeepsApart(c: Config, s: Store, s': Store, tx: Id)
    requires c.uniqueIndex && PendingApart(s) && Idles(s, s', tx) && IndexGuards(c, s, s', tx)
    ensures PendingApart(s')
  {
  }

  lemma IndexCommitKeepsOne(s: Store, tx: Id)
    requires OnePerKey(s) && PendingApart(s) && tx in s.txs && s.txs[tx].phase.Linked?
    ensures OnePerKey(Commit(s, tx)) && PendingApart(Commit(s, tx))
  {
  }

  lemma IndexStepKeepsOne(c: Config, s: Store, e: Event)
    requires c.uniqueIndex && OnePerKey(s) && PendingApart(s)
    ensures OnePerKey(Step(c, s, e)) && PendingApart(Step(c, s, e))
  {
    if Commits(s, e) {
      IndexCommitKeepsOne(s, e.tx);
    } else {
      StepIdles(c, s, e);
      if e.Advance? && e.ok && e.tx in s.txs { StatementIndexGuards(c, s, e.tx, e.row); }
      IdlesKeepsApart(c, s, Step(c, s, e), e.tx);
    }
  }

  // ---- ... by serialising admission and the check after it

  predicate LockGuards(c: Config, s: Store, s': Store, tx: Id) {
    tx in s'.txs && PastAdmission(s'.txs[tx]) && c.secondCheck ==>
      && tx in s.txs && s'.txs[tx].key == s.txs[tx].key && s'.txs[tx].content == s.txs[tx].content
      && (if PastAdmission(s.txs[tx]) then s'.txs[tx].lock == s.txs[tx].lock
          else s'.txs[tx].lock == c.lock(s.txs[tx].key, s.txs[tx].content)
               && (s'.txs[tx].lock.Some? ==> !LockHeld(s, tx, s'.txs[tx].lock.value)))
      && (s'.txs[tx].phase.Admitted? || (PastAdmission(s.txs[tx]) && !s.txs[tx].phase.Admitted?)
          || !Bound(s, s.txs[tx].key))
  }

  lemma StatementLockGuards(c: Config, s: Store, tx: Id, row: nat)
    requires tx in s.txs && !s.txs[tx].phase.Linked? && (s.txs[tx].key.token.Some? ==> s.txs[tx].explicit)
    ensures LockGuards(c, s, Proceed(c, s, tx, row), tx)
  {
  }

  lemma IdlesKeepsHeld(c: Config, s: Store, s': Store, tx: Id)
    requires c.secondCheck && AdmissionHeld(c, s) && Idles(s, s', tx) && LockGuards(c, s, s', tx)
    ensures AdmissionHeld(c, s')
  {
    forall x | x in s'.txs && x != tx ensures x in s.txs && s'.txs[x] == s.txs[x] {}
    forall x, y | x in s'.txs && y in s'.txs && x != y && PastAdmission(s'.txs[x]) && PastAdmission(s'.txs[y])
                  && s'.txs[x].lock.Some?
      ensures s'.txs[x].lock != s'.txs[y].lock
    {
      var other := if x == tx then y else x;
      assert other in s.txs && PastAdmission(s.txs[other]);
    }
  }

  lemma LockCommitKeepsOne(c: Config, s: Store, tx: Id)
    requires Serialises(c) && OnePerKey(s) && AdmissionHeld(c, s) && tx in s.txs && s.txs[tx].phase.Linked?
    ensures OnePerKey(Commit(s, tx)) && AdmissionHeld(c, Commit(s, tx))
  {
  }

  lemma LockStepKeepsOne(c: Config, s: Store, e: Event)
    requires c.secondCheck && Serialises(c) && KeyedExplicit(s) && OnePerKey(s) && AdmissionHeld(c, s)
    ensures OnePerKey(Step(c, s, e)) && AdmissionHeld(c, Step(c, s, e))
  {
    if Commits(s, e) {
      LockCommitKeepsOne(c, s, e.tx);
    } else {
      StepIdles(c, s, e);
      if e.Advance? && e.ok && e.tx in s.txs { StatementLockGuards(c, s, e.tx, e.row); }
      IdlesKeepsHeld(c, s, Step(c, s, e), e.tx);
    }
  }

  // ---- Answers --------------------------------------------------------------

  // A success answer names a run of the request's own key and content; a conflict
  // is there for a run of the same key that was asked for something else.
  predicate Truthful(s: Store, a: Answer) {
    match a.reply
    case Created(r) => r in s.runs && s.runs[r].key == a.key && s.runs[r].content == a.content
    case Replayed(r) => r in s.runs && s.runs[r].key == a.key && s.runs[r].content == a.content
    case Conflict =>
      a.key.token.Some? && exists r | r in s.runs :: s.runs[r].key == a.key && s.runs[r].content != a.content
    case Error => true
  }

  predicate AllTruthful(s: Store) {
    forall x :: x in s.answers ==> Truthful(s, s.answers[x])
  }

  lemma TruthfulStays(s: Store, s': Store, a: Answer)
    requires Truthful(s, a) && forall r :: r in s.runs ==> r in s'.runs && s'.runs[r] == s.runs[r]
    ensures Truthful(s', a)
  {
  }

  // Only a check answers with a run that is already there.
  lemma StatementAnswersTruly(c: Config, s: Store, tx: Id, row: nat)
    requires tx in s.txs && !s.txs[tx].phase.Linked?
    ensures var s' := Proceed(c, s, tx, row); tx in s'.answers && tx !in s'.txs ==> Truthful(s', s'.answers[tx])
  {
  }

  lemma StepKeepsTruthful(c: Config, s: Store, e: Event)
    requires AllTruthful(s) && IdsFresh(s)
    ensures AllTruthful(Step(c, s, e))
  {
    var s' := Step(c, s, e);
    OnlyCommitWrites(c, s, e);
    if !Commits(s, e) {
      StepIdles(c, s, e);
      if e.Advance? && e.ok && e.tx in s.txs { StatementAnswersTruly(c, s, e.tx, e.row); }
    }
    forall x | x in s'.answers ensures Truthful(s', s'.answers[x]) {
      if x in s.answers && s'.answers[x] == s.answers[x] { TruthfulStays(s, s', s.answers[x]); }
    }
  }

  // ---- What all interleavings keep ------------------------------------------

  // Either protection is enough.
  ghost predicate Protected(c: Config) {
    c.uniqueIndex || (c.secondCheck && Serialises(c))
  }

  ghost predicate Sound(c: Config, s: Store) {
    && IdsFresh(s) && LinksAgree(s) && KeyedExplicit(s) && OnePerKey(s) && AllTruthful(s)
    && (if c.uniqueIndex then PendingApart(s) else AdmissionHeld(c, s))
  }

  lemma StepKeepsSound(c: Config, s: Store, e: Event)
    requires Protected(c) && Sound(c, s)
    ensures Sound(c, Step(c, s, e))
  {
    StepKeepsIds(c, s, e);
    StepKeepsLinks(c, s, e);
    StepKeepsKeyed(c, s, e);
    StepKeepsTruthful(c, s, e);
    if c.uniqueIndex { IndexStepKeepsOne(c, s, e); } else { LockStepKeepsOne(c, s, e); }
  }

  lemma {:induction false} RunKeepsSound(c: Config, s: Store, events: seq<Event>)
    requires Protected(c) && Sound(c, s)
    ensures Sound(c, Run(c, s, events))
    decreases |events|
  {
    if events != [] {
      StepKeepsSound(c, s, events[0]);
      RunKeepsSound(c, Step(c, s, events[0]), events[1..]);
    }
  }

  // Over every interleaving: one committed run per idempotency key at most.
  lemma OneRunPerKey(c: Config, events: seq<Event>, q: nat, r: nat)
    requires Protected(c)
    requires var s := Run(c, EMPTY, events);
             q in s.runs && r in s.runs && s.runs[q].key == s.runs[r].key && s.runs[q].key.token.Some?
    ensures q == r
  {
    RunKeepsSound(c, EMPTY, events);
  }

  function AnsweredRun(reply: Reply): Option<nat> {
    match reply
    case Created(r) => Some(r)
    case Replayed(r) => Some(r)
    case _ => None
  }

  // All requests of one key that succeed asked for the same thing and were given
  // the same run: a differing request is never answered with a run, so created none.
  lemma SuccessesAgree(c: Config, events: seq<Event>, x: Id, y: Id)
    requires Protected(c)
    requires var s := Run(c, EMPTY, events);
             && x in s.answers && y in s.answers
             && s.answers[x].key == s.answers[y].key && s.answers[x].key.token.Some?
             && AnsweredRun(s.answers[x].reply).Some? && AnsweredRun(s.answers[y].reply).Some?
    ensures var s := Run(c, EMPTY, events);
            && AnsweredRun(s.answers[x].reply) == AnsweredRun(s.answers[y].reply)
            && s.answers[x].content == s.answers[y].content
  {
    RunKeepsSound(c, EMPTY, events);
    var s := Run(c, EMPTY, events);
    assert Truthful(s, s.answers[x]) && Truthful(s, s.answers[y]);
  }

  // Over every interleaving, a conflict is answered only where the key is bound to
  // a run of other content; where runs are unique, then, by no request that asks
  // for what the run of its key is.
  lemma ConflictMeans(c: Config, events: seq<Event>, x: Id)
    requires var s := Run(c, EMPTY, events); x in s.answers && s.answers[x].reply.Conflict?
    ensures var s := Run(c, EMPTY, events);
            var a := s.answers[x];
            && a.key.token.Some?
            && (exists r | r in s.runs :: s.runs[r].key == a.key && s.runs[r].content != a.content)
            && (Protected(c) ==> forall r | r in s.runs && s.runs[r].key == a.key :: s.runs[r].content != a.content)
  {
    RunKeepsTruthful(c, EMPTY, events);
    var s := Run(c, EMPTY, events);
    assert Truthful(s, s.answers[x]);
    if Protected(c) { RunKeepsSound(c, EMPTY, events); }
  }

  lemma {:induction false} RunKeepsTruthful(c: Config, s: Store, events: seq<Event>)
    requires AllTruthful(s) && IdsFresh(s)
    ensures AllTruthful(Run(c, s, events)) && IdsFresh(Run(c, s, events))
    decreases |events|
  {
    if events != [] {
      StepKeepsTruthful(c, s, events[0]);
      StepKeepsIds(c, s, events[0]);
      RunKeepsTruthful(c, Step(c, s, events[0]), events[1..]);
    }
  }

  // Somebody else holds the lock the request's admission needs.
  predicate LockTaken(c: Config, s: Store, tx: Id)
    requires tx in s.txs
  {
    var lock := c.lock(s.txs[tx].key, s.txs[tx].content);
    lock.Some? && exists other | other in s.txs && other != tx :: s.txs[other].lock == lock
  }

  // An error has one of two causes: the statement failed, or the unique index
  // refused a key that is bound already. Whoever waits for somebody else is not
  // answered, and is where it was.
  lemma ErrorMeans(c: Config, s: Store, tx: Id, ok: bool, row: nat)
    requires tx in s.txs && tx !in s.answers
    ensures var s', t := Step(c, s, Advance(tx, ok, row)), s.txs[tx];
            && (tx in s'.answers && s'.answers[tx].reply.Error? <==>
                  !ok || (t.phase.Rechecked? && c.uniqueIndex && t.key.token.Some? && Bound(s, t.key)
                          && !InsertPending(s, tx, t.key)))
            && (ok && t.phase.Rechecked? && c.uniqueIndex && t.key.token.Some? && InsertPending(s, tx, t.key) ==>
                s' == s)
            && (ok && t.phase.Checked? && LockTaken(c, s, tx) ==> s' == s)
  {
  }

  // ---- Without them, two runs are reachable ---------------------------------

  function Advances(tx: Id, n: nat): seq<Event> {
    if n == 0 then [] else [Advance(tx, true, 0)] + Advances(tx, n - 1)
  }

  lemma AdvanceOnce(c: Config, s: Store, tx: Id, n: nat)
    requires n > 0
    ensures Run(c, s, Advances(tx, n)) == Run(c, Step(c, s, Advance(tx, true, 0)), Advances(tx, n - 1))
  {
  }

  lemma {:induction false} RunAppend(c: Config, s: Store, a: seq<Event>, b: seq<Event>)
    ensures Run(c, s, a + b) == Run(c, Run(c, s, a), b)
    decreases |a|
  {
    if a == [] {
      assert a + b == b;
    } else {
      assert (a + b)[1..] == a[1..] + b;
      RunAppend(c, Step(c, s, a[0]), a[1..], b);
    }
  }

  // The state after an undisturbed request has written, linked and committed its rows.
  function Finished(s: Store, tx: Id): Store
    requires tx in s.txs
  {
    var t := s.txs[tx].(phase := Linked, run := s.nextId, task := s.nextId + 1);
    Commit(Enter(s, tx, t).(nextId := s.nextId + 2), tx)
  }

  lemma FinishesFromRechecked(c: Config, s: Store, tx: Id)
    requires tx in s.txs && s.txs[tx].phase.Rechecked? && !c.uniqueIndex
    ensures Run(c, s, Advances(tx, 4)) == Finished(s, tx)
  {
    var s1 := Step(c, s, Advance(tx, true, 0));
    var s2 := Step(c, s1, Advance(tx, true, 0));
    var s3 := Step(c, s2, Advance(tx, true, 0));
    var s4 := Step(c, s3, Advance(tx, true, 0));
    AdvanceOnce(c, s, tx, 4);
    AdvanceOnce(c, s1, tx, 3);
    AdvanceOnce(c, s2, tx, 2);
    AdvanceOnce(c, s3, tx, 1);
    assert s1 == Enter(s, tx, s.txs[tx].(phase := RunInserted, run := s.nextId)).(nextId := s.nextId + 1);
    assert s2 == Enter(s1, tx, s1.txs[tx].(phase := TaskInserted, task := s.nextId + 1)).(nextId := s.nextId + 2);
    var t := s.txs[tx].(phase := Linked, run := s.nextId, task := s.nextId + 1);
    assert s3 == Enter(s, tx, t).(nextId := s.nextId + 2);
  }

  // Two requests of one key past their last check, one after the other.
  lemma BothFinish(c: Config, s: Store, key: Key)
    requires !c.uniqueIndex && s.txs.Keys == {"a", "b"} && s.runs == map[]
    requires s.txs["a"].phase.Rechecked? && s.txs["b"].phase.Rechecked? && s.txs["a"].key == s.txs["b"].key == key
    ensures var s' := Run(c, s, Advances("a", 4) + Advances("b", 4));
            exists q, r | q in s'.runs && r in s'.runs :: q != r && s'.runs[q].key == s'.runs[r].key == key
  {
    RunAppend(c, s, Advances("a", 4), Advances("b", 4));
    FinishesFromRechecked(c, s, "a");
    var s1 := Finished(s, "a");
    assert "b" in s1.txs && s1.txs["b"] == s.txs["b"];
    FinishesFromRechecked(c, s1, "b");
    var s' := Finished(s1, "b");
    assert s.nextId in s'.runs && s1.nextId in s'.runs;
    assert s'.runs[s.nextId].key == s'.runs[s1.nextId].key == key;
  }

  // ---- Runs in parts

  function Flatten(parts: seq<seq<Event>>): seq<Event> {
    if parts == [] then [] else parts[0] + Flatten(parts[1..])
  }

  // A run of several parts goes through the states between them.
  lemma {:induction false} RunParts(c: Config, states: seq<Store>, parts: seq<seq<Event>>)
    requires |states| == |parts| + 1
    requires forall i :: 0 <= i < |parts| ==> Run(c, states[i], parts[i]) == states[i + 1]
    ensures Run(c, states[0], Flatten(parts)) == states[|parts|]
    decreases |parts|
  {
    if parts != [] {
      RunAppend(c, states[0], parts[0], Flatten(parts[1..]));
      assert forall i :: 0 <= i < |parts[1..]| ==> parts[1..][i] == parts[i + 1] && states[1..][i] == states[i + 1];
      RunParts(c, states[1..], parts[1..]);
    }
  }

  function Opening(key: Key, a: Content, b: Content): seq<Event> {
    [Begin("a", true, key, a), Begin("b", true, key, b)]
  }

  function Opened(key: Key, a: Content, b: Content): Store {
    EMPTY.(txs := map["a" := Tx(true, key, a, Started, None, 0, 0), "b" := Tx(true, key, b, Started, None, 0, 0)])
  }

  lemma OpensBoth(c: Config, key: Key, a: Content, b: Content)
    ensures Run(c, EMPTY, Opening(key, a, b)) == Opened(key, a, b)
  {
    var events := Opening(key, a, b);
    assert events[1..] == [events[1]] && events[1..][1..] == [];
    var s1 := Step(c, EMPTY, events[0]);
    assert Run(c, EMPTY, events) == Run(c, s1, events[1..]);
    assert Run(c, s1, events[1..]) == Run(c, Step(c, s1, events[1]), []);
    assert Step(c, s1, events[1]) == Opened(key, a, b);
  }

  // Before anything is committed, a request passes its first check at once.
  lemma ChecksFirst(c: Config, s: Store, tx: Id)
    requires tx in s.txs && s.txs[tx].phase.Started? && s.txs[tx].explicit && s.runs == map[]
    ensures Run(c, s, Advances(tx, 1)) == Enter(s, tx, s.txs[tx].(phase := Checked))
  {
  }

  // A request past admission, and past the check after it.
  function PastChecks(c: Config, s: Store, tx: Id): Store
    requires tx in s.txs
  {
    Enter(s, tx, s.txs[tx].(phase := Rechecked, lock := c.lock(s.txs[tx].key, s.txs[tx].content)))
  }

  predicate LockFree(c: Config, s: Store, tx: Id)
    requires tx in s.txs
  {
    var lock := c.lock(s.txs[tx].key, s.txs[tx].content);
    lock.Some? ==> !LockHeld(s, tx, lock.value)
  }

  // Admission while nobody else holds the lock, and the check after it passed or left out.
  lemma AdmitsAndPasses(c: Config, s: Store, tx: Id)
    requires tx in s.txs && s.txs[tx].phase.Checked? && LockFree(c, s, tx)
    requires !c.secondCheck || s.runs == map[]
    ensures Run(c, s, Advances(tx, 2)) == PastChecks(c, s, tx)
  {
    AdvanceOnce(c, s, tx, 2);
    var s1 := Step(c, s, Advance(tx, true, 0));
    assert s1 == Enter(s, tx, s.txs[tx].(phase := Admitted, lock := c.lock(s.txs[tx].key, s.txs[tx].content)));
    AdvanceOnce(c, s1, tx, 1);
  }

  // ---- ... with an unchecked second request

  function UncheckedEvents(key: Key, a: Content, b: Content): seq<seq<Event>> {
    [Opening(key, a, b), Advances("a", 1), Advances("b", 1), Advances("a", 2), Advances("a", 4), Advances("b", 2),
     Advances("b", 4)]
  }

  function UncheckedStates(c: Config, key: Key, a: Content, b: Content): (states: seq<Store>)
    ensures |states| == 8
  {
    var s0 := Opened(key, a, b);
    var s1 := Enter(s0, "a", s0.txs["a"].(phase := Checked));
    var s2 := Enter(s1, "b", s1.txs["b"].(phase := Checked));
    var s3 := PastChecks(c, s2, "a");
    var s4 := Finished(s3, "a");
    var s5 := PastChecks(c, s4, "b");
    [EMPTY, s0, s1, s2, s3, s4, s5, Finished(s5, "b")]
  }

  lemma UncheckedSteps(c: Config, key: Key, a: Content, b: Content)
    requires !c.uniqueIndex && !c.secondCheck
    ensures var states, parts := UncheckedStates(c, key, a, b), UncheckedEvents(key, a, b);
            forall i :: 0 <= i < |parts| ==> Run(c, states[i], parts[i]) == states[i + 1]
  {
    var states := UncheckedStates(c, key, a, b);
    OpensBoth(c, key, a, b);
    ChecksFirst(c, states[1], "a");
    ChecksFirst(c, states[2], "b");
    AdmitsAndPasses(c, states[3], "a");
    FinishesFromRechecked(c, states[4], "a");
    AdmitsAndPasses(c, states[5], "b");
    FinishesFromRechecked(c, states[6], "b");
  }

  // Without the check after admission, any admission lock, however strict, lets
  // two runs of one key be committed: the second request checked before the first committed.
  lemma TwoRunsWithoutSecondCheck(c: Config, key: Key, a: Content, b: Content)
    requires !c.uniqueIndex && !c.secondCheck
    ensures var s := Run(c, EMPTY, Flatten(UncheckedEvents(key, a, b)));
            exists q, r | q in s.runs && r in s.runs :: q != r && s.runs[q].key == s.runs[r].key == key
  {
    var states := UncheckedStates(c, key, a, b);
    UncheckedSteps(c, key, a, b);
    RunParts(c, states, UncheckedEvents(key, a, b));
    var q, r, s := states[4].nextId, states[6].nextId, states[7];
    assert q in s.runs && r in s.runs && q != r && s.runs[q].key == s.runs[r].key == key;
  }

  // ---- ... with requests that share no lock

  function UnserialisedEvents(key: Key, a: Content, b: Content): seq<seq<Event>> {
    [Opening(key, a, b), Advances("a", 1), Advances("a", 2), Advances("b", 1), Advances("b", 2),
     Advances("a", 4) + Advances("b", 4)]
  }

  // Both checks do not help where two requests of a key are not made to wait for
  // each other: no lock is taken, or different ones. Then the index alone protects.
  lemma TwoRunsWithoutSharedLock(c: Config, key: Key, a: Content, b: Content)
    requires !c.uniqueIndex && !(c.lock(key, a).Some? && c.lock(key, a) == c.lock(key, b))
    ensures var s := Run(c, EMPTY, Flatten(UnserialisedEvents(key, a, b)));
            exists q, r | q in s.runs && r in s.runs :: q != r && s.runs[q].key == s.runs[r].key == key
  {
    var s0 := Opened(key, a, b);
    var s1 := Enter(s0, "a", s0.txs["a"].(phase := Checked));
    var s2 := PastChecks(c, s1, "a");
    var s3 := Enter(s2, "b", s2.txs["b"].(phase := Checked));
    var s4 := PastChecks(c, s3, "b");
    var parts := UnserialisedEvents(key, a, b);
    OpensBoth(c, key, a, b);
    ChecksFirst(c, s0, "a");
    AdmitsAndPasses(c, s1, "a");
    ChecksFirst(c, s2, "b");
    AdmitsAndPasses(c, s3, "b");
    BothFinish(c, s4, key);
    RunParts(c, [EMPTY, s0, s1, s2, s3, s4, Run(c, s4, parts[5])], parts);
  }

  // ---- ... so that the protections are exactly these two

  // One run per key over every interleaving, if and only if there is the index, or
  // the check after admission and one lock for all requests of a key.
  lemma ProtectedExactly(c: Config)
    ensures (forall events :: OnePerKey(Run(c, EMPTY, events))) <==> Protected(c)
  {
    if Protected(c) {
      forall events ensures OnePerKey(Run(c, EMPTY, events)) { RunKeepsSound(c, EMPTY, events); }
    } else if !c.secondCheck {
      var key, content := Key("", "", "", Some("")), Content("", "", "", None, None);
      TwoRunsWithoutSecondCheck(c, key, content, content);
      assert !OnePerKey(Run(c, EMPTY, Flatten(UncheckedEvents(key, content, content))));
    } else {
      var key: Key, a: Content, b: Content :|
        key.token.Some? && !(c.lock(key, a).Some? && c.lock(key, a) == c.lock(key, b));
      TwoRunsWithoutSharedLock(c, key, a, b);
      assert !OnePerKey(Run(c, EMPTY, Flatten(UnserialisedEvents(key, a, b))));
    }
  }

  // ---- The routes -----------------------------------------------------------

  // What happens around one statement of a request.
  datatype Turn = Turn(others: seq<Event>, ok: bool, row: nat)

  predicate Foreign(tx: Id, e: Event) { e.tx != tx }

  lemma OtherKeepsTx(c: Config, s: Store, e: Event, tx: Id)
    requires Foreign(tx, e)
    ensures var s' := Step(c, s, e);
            && (tx in s'.txs <==> tx in s.txs) && (tx in s.txs ==> s'.txs[tx] == s.txs[tx])
            && (tx in s'.answers <==> tx in s.answers) && (tx in s.answers ==> s'.answers[tx] == s.answers[tx])
  {
    if !Commits(s, e) { StepIdles(c, s, e); }
  }

  lemma {:induction false} OthersKeepTx(c: Config, s: Store, others: seq<Event>, tx: Id)
    requires forall e :: e in others ==> Foreign(tx, e)
    ensures var s' := Run(c, s, others);
            && (tx in s'.txs <==> tx in s.txs) && (tx in s.txs ==> s'.txs[tx] == s.txs[tx])
            && (tx in s'.answers <==> tx in s.answers) && (tx in s.answers ==> s'.answers[tx] == s.answers[tx])
    decreases |others|
  {
    if others != [] {
      assert others[0] in others && forall e :: e in others[1..] ==> e in others;
      OtherKeepsTx(c, s, others[0], tx);
      OthersKeepTx(c, Step(c, s, others[0]), others[1..], tx);
    }
  }

  // ---- What a request is owed -----------------------------------------------

  predicate BoundTo(s: Store, key: Key, r: nat) {
    r in s.runs && s.runs[r].key == key
  }

  // At a statement that looks for a replay.
  predicate AtCheck(c: Config, t: Tx) {
    t.explicit && t.key.token.Some? && (t.phase.Started? || (t.phase.Admitted? && c.secondCheck))
  }

  // The answer to a request whose key is bound to run `r`.
  function Owed(s: Store, content: Content, r: nat): Reply
    requires r in s.runs
  {
    if s.runs[r].content == content then Replayed(r) else Conflict
  }

  // In any state, a check that finds its key bound answers with that run, or with
  // a conflict where it was asked for something else.
  lemma BoundCheckAnswers(c: Config, s: Store, tx: Id, r: nat)
    requires tx in s.txs && AtCheck(c, s.txs[tx]) && BoundTo(s, s.txs[tx].key, r)
    ensures var s' := Step(c, s, Advance(tx, true, r));
            tx !in s'.txs && tx in s'.answers && s'.answers[tx].reply == Owed(s, s.txs[tx].content, r)
  {
  }

  // Committed runs stay as they are.
  lemma {:induction false} RunsStay(c: Config, s: Store, events: seq<Event>, r: nat)
    requires IdsFresh(s) && r in s.runs
    ensures r in Run(c, s, events).runs && Run(c, s, events).runs[r] == s.runs[r]
    decreases |events|
  {
    if events != [] {
      OnlyCommitWrites(c, s, events[0]);
      StepKeepsIds(c, s, events[0]);
      RunsStay(c, Step(c, s, events[0]), events[1..], r);
    }
  }

  lemma RunOne(c: Config, s: Store, e: Event)
    ensures Run(c, s, [e]) == Step(c, s, e)
  {
    assert [e][1..] == [];
    assert Run(c, Step(c, s, e), []) == Step(c, s, e);
  }

  // Replays return the run: after any interleaving that committed a run for a key,
  // an explicit request of that key, whatever else happens meanwhile, is answered
  // by its first statement with that run if it asks for the same, and with a
  // conflict if not.
  lemma BoundRequestAnswered(c: Config, events: seq<Event>, tx: Id, key: Key, content: Content, others: seq<Event>,
                             r: nat)
    requires key.token.Some? && forall e :: e in others ==> Foreign(tx, e)
    requires var s := Run(c, EMPTY, events); BoundTo(s, key, r) && tx !in s.txs && tx !in s.answers
    ensures var s := Run(c, EMPTY, events);
            var s' := Run(c, s, [Begin(tx, true, key, content)] + others + [Advance(tx, true, r)]);
            tx in s'.answers && s'.answers[tx].reply == Owed(s, content, r)
  {
    var s, begin := Run(c, EMPTY, events), Begin(tx, true, key, content);
    RunKeepsLinks(c, EMPTY, events);
    var s1 := Step(c, s, begin);
    StepKeepsIds(c, s, begin);
    RunOne(c, s, begin);
    RunsStay(c, s1, others, r);
    OthersKeepTx(c, s1, others, tx);
    RunAppend(c, s, [begin], others);
    RunAppend(c, s, [begin] + others, [Advance(tx, true, r)]);
    RunOne(c, Run(c, s1, others), Advance(tx, true, r));
    BoundCheckAnswers(c, Run(c, s1, others), tx, r);
  }

  // ---- ... and while its key is free

  function RouteKey(explicit: bool, key: Key): Key {
    if explicit then key else key.(token := None)
  }

  // Nothing keeps a request from creating its run: its key is not bound, and nobody
  // else holds its admission lock or waits to commit a row of its key.
  predicate Clear(c: Config, s: Store, tx: Id, explicit: bool, key: Key, content: Content) {
    explicit ==>
      && (key.token.Some? ==> !Bound(s, key) && !InsertPending(s, tx, key))
      && (c.lock(key, content).Some? ==> !LockHeld(s, tx, c.lock(key, content).value))
  }

  // How many statements a route has after BEGIN.
  function Length(explicit: bool): nat { if explicit then 7 else 5 }

  function PhaseAfter(explicit: bool, n: nat): Phase
    requires n < Length(explicit)
  {
    var phases := if explicit then [Started, Checked, Admitted, Rechecked, RunInserted, TaskInserted, Linked]
                  else [Started, Rechecked, RunInserted, TaskInserted, Linked];
    phases[n]
  }

  // An undisturbed request after `n` of its statements.
  predicate OnItsWay(s: Store, s': Store, tx: Id, explicit: bool, key: Key, content: Content, n: nat) {
    && n < Length(explicit) && tx in s'.txs && s'.txs[tx].phase == PhaseAfter(explicit, n)
    && Mine(s'.txs[tx], explicit, RouteKey(explicit, key), content)
    && s'.runs == s.runs
    && forall other :: other != tx && other in s'.txs ==> other in s.txs && s'.txs[other] == s.txs[other]
  }

  lemma ClearStays(c: Config, s: Store, s': Store, tx: Id, explicit: bool, key: Key, content: Content, n: nat)
    requires Clear(c, s, tx, explicit, key, content) && OnItsWay(s, s', tx, explicit, key, content, n)
    ensures Clear(c, s', tx, explicit, key, content)
  {
  }

  lemma NextPhase(c: Config, s: Store, tx: Id, explicit: bool, key: Key, content: Content, n: nat, row: nat)
    requires Clear(c, s, tx, explicit, key, content) && n + 1 < Length(explicit)
    requires tx in s.txs && s.txs[tx].phase == PhaseAfter(explicit, n)
    requires Mine(s.txs[tx], explicit, RouteKey(explicit, key), content)
    ensures var s' := Step(c, s, Advance(tx, true, row));
            && tx in s'.txs && s'.txs == s.txs[tx := s'.txs[tx]] && s'.runs == s.runs
            && s'.txs[tx].phase == PhaseAfter(explicit, n + 1)
            && Mine(s'.txs[tx], explicit, RouteKey(explicit, key), content)
  {
  }

  // Each statement takes it one further, and the last one is answered with the new run.
  lemma GoesOn(c: Config, s: Store, s': Store, tx: Id, explicit: bool, key: Key, content: Content, n: nat, row: nat)
    requires Clear(c, s, tx, explicit, key, content) && OnItsWay(s, s', tx, explicit, key, content, n)
    ensures var s'' := Step(c, s', Advance(tx, true, row));
            if n + 1 < Length(explicit) then OnItsWay(s, s'', tx, explicit, key, content, n + 1)
            else tx in s''.answers && s''.answers[tx].reply.Created?
  {
    ClearStays(c, s, s', tx, explicit, key, content, n);
    if n + 1 < Length(explicit) { NextPhase(c, s', tx, explicit, key, content, n, row); }
  }

  // The events of a request's turns.
  function Interleaved(tx: Id, turns: seq<Turn>): seq<Event> {
    if turns == [] then []
    else
      var last := turns[|turns| - 1];
      Interleaved(tx, turns[..|turns| - 1]) + (last.others + [Advance(tx, last.ok, last.row)])
  }

  // One statement of a request, after what others do before it.
  function AfterTurn(c: Config, s: Store, tx: Id, turn: Turn): Store {
    Step(c, Run(c, s, turn.others), Advance(tx, turn.ok, turn.row))
  }

  function After(c: Config, s: Store, tx: Id, turns: seq<Turn>): Store
    decreases |turns|
  {
    if turns == [] then s
    else AfterTurn(c, After(c, s, tx, turns[..|turns| - 1]), tx, turns[|turns| - 1])
  }

  lemma TurnRuns(c: Config, s: Store, tx: Id, turn: Turn)
    ensures Run(c, s, turn.others + [Advance(tx, turn.ok, turn.row)]) == AfterTurn(c, s, tx, turn)
  {
    RunAppend(c, s, turn.others, [Advance(tx, turn.ok, turn.row)]);
    RunOne(c, Run(c, s, turn.others), Advance(tx, turn.ok, turn.row));
  }

  lemma {:induction false} AfterRuns(c: Config, s: Store, tx: Id, turns: seq<Turn>)
    ensures After(c, s, tx, turns) == Run(c, s, Interleaved(tx, turns))
    decreases |turns|
  {
    if turns != [] {
      var before, last := turns[..|turns| - 1], turns[|turns| - 1];
      AfterRuns(c, s, tx, before);
      RunAppend(c, s, Interleaved(tx, before), last.others + [Advance(tx, last.ok, last.row)]);
      TurnRuns(c, After(c, s, tx, before), tx, last);
    }
  }

  predicate ForeignTurns(tx: Id, turns: seq<Turn>) {
    forall i :: 0 <= i < |turns| ==> forall e :: e in turns[i].others ==> Foreign(tx, e)
  }

  predicate Undisturbed(turns: seq<Turn>) {
    forall i :: 0 <= i < |turns| ==> turns[i].others == []
  }

  predicate AllSucceed(turns: seq<Turn>) {
    forall i :: 0 <= i < |turns| ==> turns[i].ok
  }

  // ---- A request is open until it is answered

  predicate OpenOrAnswered(s: Store, tx: Id, explicit: bool, key: Key, content: Content) {
    if tx in s.txs then tx !in s.answers && Mine(s.txs[tx], explicit, RouteKey(explicit, key), content)
    else tx in s.answers && s.answers[tx].content == content
  }

  lemma TurnAnswers(c: Config, s: Store, tx: Id, turn: Turn, explicit: bool, key: Key, content: Content)
    requires OpenOrAnswered(s, tx, explicit, key, content) && forall e :: e in turn.others ==> Foreign(tx, e)
    ensures OpenOrAnswered(AfterTurn(c, s, tx, turn), tx, explicit, key, content)
    ensures tx !in s.txs ==> var s' := AfterTurn(c, s, tx, turn); tx !in s'.txs && s'.answers[tx] == s.answers[tx]
  {
    OthersKeepTx(c, s, turn.others, tx);
    var s1, e := Run(c, s, turn.others), Advance(tx, turn.ok, turn.row);
    if !Commits(s1, e) { StepIdles(c, s1, e); }
  }

  lemma {:induction false} TurnsAnswer(c: Config, s: Store, tx: Id, turns: seq<Turn>, explicit: bool, key: Key,
                                       content: Content)
    requires OpenOrAnswered(s, tx, explicit, key, content) && ForeignTurns(tx, turns)
    ensures OpenOrAnswered(After(c, s, tx, turns), tx, explicit, key, content)
    decreases |turns|
  {
    if turns != [] {
      var before := turns[..|turns| - 1];
      TurnsAnswer(c, s, tx, before, explicit, key, content);
      TurnAnswers(c, After(c, s, tx, before), tx, turns[|turns| - 1], explicit, key, content);
    }
  }

  // ---- ... with what it is owed

  lemma FirstTurnOwed(c: Config, s: Store, tx: Id, turn: Turn, r: nat)
    requires IdsFresh(s) && tx in s.txs && AtCheck(c, s.txs[tx]) && BoundTo(s, s.txs[tx].key, r)
    requires turn.ok && turn.row == r && forall e :: e in turn.others ==> Foreign(tx, e)
    ensures var s' := AfterTurn(c, s, tx, turn);
            tx !in s'.txs && tx in s'.answers && s'.answers[tx].reply == Owed(s, s.txs[tx].content, r)
  {
    OthersKeepTx(c, s, turn.others, tx);
    RunsStay(c, s, turn.others, r);
    BoundCheckAnswers(c, Run(c, s, turn.others), tx, r);
  }

  lemma {:induction false} BoundTurnsOwed(c: Config, s: Store, tx: Id, turns: seq<Turn>, key: Key, content: Content,
                                          r: nat)
    requires OpenOrAnswered(s, tx, true, key, content) && ForeignTurns(tx, turns)
    requires IdsFresh(s) && tx in s.txs && AtCheck(c, s.txs[tx]) && BoundTo(s, key, r)
    requires turns != [] && turns[0].ok && turns[0].row == r
    ensures var s' := After(c, s, tx, turns);
            tx !in s'.txs && tx in s'.answers && s'.answers[tx].reply == Owed(s, content, r)
    decreases |turns|
  {
    var before, last := turns[..|turns| - 1], turns[|turns| - 1];
    if before == [] {
      FirstTurnOwed(c, s, tx, last, r);
    } else {
      BoundTurnsOwed(c, s, tx, before, key, content, r);
      TurnsAnswer(c, s, tx, before, true, key, content);
      TurnAnswers(c, After(c, s, tx, before), tx, last, true, key, content);
    }
  }

  // ---- ... or with a new run

  lemma {:induction false} ClearTurnsCreate(c: Config, s: Store, begun: Store, tx: Id, turns: seq<Turn>,
                                            explicit: bool, key: Key, content: Content)
    requires Clear(c, s, tx, explicit, key, content) && OnItsWay(s, begun, tx, explicit, key, content, 0)
    requires OpenOrAnswered(begun, tx, explicit, key, content)
    requires Undisturbed(turns) && AllSucceed(turns)
    ensures var s' := After(c, begun, tx, turns);
            if |turns| < Length(explicit) then OnItsWay(s, s', tx, explicit, key, content, |turns|)
            else tx !in s'.txs && tx in s'.answers && s'.answers[tx].reply.Created?
    decreases |turns|
  {
    if turns != [] {
      var before, last := turns[..|turns| - 1], turns[|turns| - 1];
      ClearTurnsCreate(c, s, begun, tx, before, explicit, key, content);
      TurnsAnswer(c, begun, tx, before, explicit, key, content);
      TurnAnswers(c, After(c, begun, tx, before), tx, last, explicit, key, content);
      if |before| < Length(explicit) {
        GoesOn(c, s, After(c, begun, tx, before), tx, explicit, key, content, |before|, last.row);
      }
    }
  }

  // ---- ... and what it does to the tables

  // What a request has done so far.
  predicate Effect(s: Store, s': Store, tx: Id, explicit: bool, key: Key, content: Content) {
    if tx in s'.answers && s'.answers[tx].reply.Created? then
      var r := s'.answers[tx].reply.run;
      && r !in s.runs && r in s'.runs && s'.runs[r].content == content
      && s'.runs[r].key == RouteKey(explicit, key)
      && s'.runs[r].task.Some? && s'.runs[r].task.value !in s.tasks
      && s'.runs == s.runs[r := s'.runs[r]] && s'.tasks == s.tasks[s'.runs[r].task.value := TaskRow(r)]
    else s'.runs == s.runs && s'.tasks == s.tasks
  }

  lemma TurnEffect(c: Config, s: Store, s': Store, tx: Id, turn: Turn, explicit: bool, key: Key, content: Content)
    requires IdsFresh(s') && turn.others == [] && OpenOrAnswered(s', tx, explicit, key, content)
    requires Effect(s, s', tx, explicit, key, content)
    ensures Effect(s, AfterTurn(c, s', tx, turn), tx, explicit, key, content)
  {
    if tx in s'.txs {
      var e := Advance(tx, turn.ok, turn.row);
      OnlyCommitWrites(c, s', e);
      if !Commits(s', e) { StepIdles(c, s', e); }
    }
  }

  lemma {:induction false} TurnsEffect(c: Config, s: Store, begun: Store, tx: Id, turns: seq<Turn>,
                                       explicit: bool, key: Key, content: Content)
    requires IdsFresh(begun) && Undisturbed(turns) && OpenOrAnswered(begun, tx, explicit, key, content)
    requires Effect(s, begun, tx, explicit, key, content)
    ensures var s' := After(c, begun, tx, turns); IdsFresh(s') && Effect(s, s', tx, explicit, key, content)
    decreases |turns|
  {
    if turns != [] {
      var before, last := turns[..|turns| - 1], turns[|turns| - 1];
      TurnsEffect(c, s, begun, tx, before, explicit, key, content);
      TurnsAnswer(c, begun, tx, before, explicit, key, content);
      TurnEffect(c, s, After(c, begun, tx, before), tx, last, explicit, key, content);
      StepKeepsIds(c, After(c, begun, tx, before), Advance(tx, last.ok, last.row));
    }
  }

  // The agency database, shared by all requests.
  class Database {
    const config: Config
    var store: Store
    ghost var history: seq<Event>

    ghost predicate Valid()
      reads this
    {
      store == Run(config, EMPTY, history)
    }

    constructor (config: Config)
      ensures Valid() && this.config == config && store == EMPTY
    {
      this.config := config;
      store := EMPTY;
      history := [];
    }

    method Execute(e: Event)
      requires Valid()
      modifies this
      ensures Valid() && store == Step(config, old(store), e)
    {
      RunAppend(config, EMPTY, history, [e]);
      RunOne(config, store, e);
      store := Step(config, store, e);
      history := history + [e];
    }

    method Others(events: seq<Event>)
      requires Valid()
      modifies this
      ensures Valid() && store == Run(config, old(store), events)
    {
      ghost var start := store;
      for i := 0 to |events|
        invariant Valid() && Run(config, store, events[i..]) == Run(config, start, events)
      {
        assert events[i..][0] == events[i] && events[i..][1..] == events[i + 1..];
        Execute(events[i]);
      }
    }

    // Either route: BEGIN and its statements one by one, until it is answered or the
    // turns run out while it waits. A request whose key is bound is answered with
    // the run it is bound to, or a conflict; undisturbed, one whose key is free
    // creates its run, and only that changes the tables, by one run and one task
    // that name each other.
    method CreateRun(tx: Id, explicit: bool, key: Key, content: Content, turns: seq<Turn>)
      returns (reply: Option<Reply>, ghost n: nat)
      requires Valid() && tx !in store.txs && tx !in store.answers && ForeignTurns(tx, turns)
      modifies this
      ensures Valid()
      ensures n <= |turns| && (n == |turns| || reply.Some?)
      ensures store == Run(config, old(store), [Begin(tx, explicit, key, content)] + Interleaved(tx, turns[..n]))
      ensures reply.Some? <==> tx !in store.txs
      ensures reply.Some? ==> tx in store.answers && store.answers[tx].reply == reply.value
                              && store.answers[tx].content == content
      ensures explicit && key.token.Some? && turns != [] && turns[0].ok && BoundTo(old(store), key, turns[0].row) ==>
                reply == Some(Owed(old(store), content, turns[0].row))
      ensures Undisturbed(turns) && AllSucceed(turns) && |turns| >= Length(explicit)
              && Clear(config, old(store), tx, explicit, key, content) ==>
                reply.Some? && reply.value.Created?
      ensures Undisturbed(turns) ==> Effect(old(store), store, tx, explicit, key, content)
    {
      ghost var start := store;
      Fresh();
      Execute(Begin(tx, explicit, key, content));
      n := Follow(tx, turns);
      RouteRuns(config, start, tx, explicit, key, content, turns[..n]);
      RouteAnswers(config, start, tx, explicit, key, content, turns[..n]);
      reply := if tx in store.txs then None else Some(store.answers[tx].reply);
    }

    // The statements of an open request.
    method Follow(tx: Id, turns: seq<Turn>) returns (ghost n: nat)
      requires Valid()
      modifies this
      ensures Valid() && n <= |turns| && store == After(config, old(store), tx, turns[..n])
      ensures n == |turns| || tx !in store.txs
    {
      ghost var begun := store;
      var i := 0;
      while i < |turns| && tx in store.txs
        invariant 0 <= i <= |turns| && Valid() && store == After(config, begun, tx, turns[..i])
      {
        assert turns[..i + 1][..i] == turns[..i];
        Others(turns[i].others);
        Execute(Advance(tx, turns[i].ok, turns[i].row));
        i := i + 1;
      }
      n := i;
    }

    lemma Fresh()
      requires Valid()
      ensures IdsFresh(store) && LinksAgree(store)
    {
      RunKeepsLinks(config, EMPTY, history);
    }
  }

  function Begun(c: Config, s: Store, tx: Id, explicit: bool, key: Key, content: Content): Store {
    Step(c, s, Begin(tx, explicit, key, content))
  }

  lemma RouteRuns(c: Config, s: Store, tx: Id, explicit: bool, key: Key, content: Content, turns: seq<Turn>)
    ensures After(c, Begun(c, s, tx, explicit, key, content), tx, turns)
            == Run(c, s, [Begin(tx, explicit, key, content)] + Interleaved(tx, turns))
  {
    RunOne(c, s, Begin(tx, explicit, key, content));
    RunAppend(c, s, [Begin(tx, explicit, key, content)], Interleaved(tx, turns));
    AfterRuns(c, Begun(c, s, tx, explicit, key, content), tx, turns);
  }

  // A request that has just begun.
  lemma BegunOpens(c: Config, s: Store, tx: Id, explicit: bool, key: Key, content: Content)
    requires IdsFresh(s) && tx !in s.txs && tx !in s.answers
    ensures var begun := Begun(c, s, tx, explicit, key, content);
            && IdsFresh(begun) && begun.runs == s.runs && tx in begun.txs
            && OpenOrAnswered(begun, tx, explicit, key, content)
            && OnItsWay(s, begun, tx, explicit, key, content, 0) && Effect(s, begun, tx, explicit, key, content)
            && (explicit && key.token.Some? ==> AtCheck(c, begun.txs[tx]))
  {
    StepKeepsIds(c, s, Begin(tx, explicit, key, content));
  }

  // A whole route, from BEGIN on.
  lemma RouteAnswers(c: Config, s: Store, tx: Id, explicit: bool, key: Key, content: Content, turns: seq<Turn>)
    requires IdsFresh(s) && tx !in s.txs && tx !in s.answers && ForeignTurns(tx, turns)
    ensures var s' := After(c, Begun(c, s, tx, explicit, key, content), tx, turns);
            && OpenOrAnswered(s', tx, explicit, key, content)
            && (explicit && key.token.Some? && turns != [] && turns[0].ok && BoundTo(s, key, turns[0].row) ==>
                  tx in s'.answers && s'.answers[tx].reply == Owed(s, content, turns[0].row))
            && (Undisturbed(turns) && AllSucceed(turns) && Clear(c, s, tx, explicit, key, content) ==>
                  if |turns| < Length(explicit) then tx in s'.txs
                  else tx in s'.answers && s'.answers[tx].reply.Created?)
            && (Undisturbed(turns) ==> Effect(s, s', tx, explicit, key, content))
  {
    hide IdsFresh, Effect, Clear, Begun;
    var begun := Begun(c, s, tx, explicit, key, content);
    BegunOpens(c, s, tx, explicit, key, content);
    TurnsAnswer(c, begun, tx, turns, explicit, key, content);
    if explicit && key.token.Some? && turns != [] && turns[0].ok && BoundTo(s, key, turns[0].row) {
      BoundTurnsOwed(c, begun, tx, turns, key, content, turns[0].row);
    }
    if Undisturbed(turns) {
      TurnsEffect(c, s, begun, tx, turns, explicit, key, content);
      if AllSucceed(turns) && Clear(c, s, tx, explicit, key, content) {
        ClearTurnsCreate(c, s, begun, tx, turns, explicit, key, content);
      }
    }
  }
}
