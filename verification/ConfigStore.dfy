/** One role's config file under any number of processes: first starts that persist a
    generated key, locked mutations, key generation, and optimistic edits.

    Readers that take no lock may read at any time. A write goes to a sibling
    temporary file that a rename moves over the config; a process may crash between
    any two steps, which frees its lock and leaves its temporary file behind. */
module ConfigStore {
  import opened Common

  // ----------------------------------------------------------------- values

  /** `[node].secret_key`: absent or empty, not a key, or a key. */
  datatype Key = NoKey | BadKey(text: nat) | GoodKey(key: nat)

  datatype Node = Missing | NotATable | Table(key: Key)

  /** A parsed document: the node section, whether a retired field is present, and
      everything else. */
  datatype Document = Document(node: Node, retired: bool, rest: nat)

  /** File contents. Rendering and parsing are inverse, so a document stands for its
      own text. `Torn` is a write that has not finished. */
  datatype Text = Syntax(error: nat) | Torn | Doc(doc: Document)

  const EMPTY: Text := Doc(Document(Missing, false, 0))

  /** The role's schema and its validation rules. */
  type Schema = Document -> bool

  function KeyOf(d: Document): Key {
    if d.node.Table? then d.node.key else NoKey
  }

  /** The key a reader of the file gets. */
  function StoredKey(file: Option<Text>): Key {
    match file
    case Some(Doc(d)) => KeyOf(d)
    case _ => NoKey
  }

  function Strip(d: Document): Document {
    d.(retired := false)
  }

  function WithKey(d: Document, key: nat): Document {
    Strip(d.(node := Table(GoodKey(key))))
  }

  // ------------------------------------------------------------- operations

  datatype Job =
    | Run(gen: nat)                         // start; `gen` is the key it would generate
    | Change                                // add or remove a service
    | Keygen(gen: nat, consent: bool)
    | Edit

  datatype Outcome =
    | GotKey(key: nat)
    | Changed
    | Kept
    | ConsentNeeded
    | Saved
    | Conflict
    | Invalid
    | Unchanged
    | Failed

  /** What a `Change` decides about the document it was given. */
  datatype Decision = Refuse | Leave | Rewrite(rest: nat)

  /** The operations that may replace a stored key. */
  predicate MayRotate(job: Job) {
    job.Edit? || (job.Keygen? && job.consent)
  }

  datatype Verdict = Stop(outcome: Outcome) | Write(doc: Document, outcome: Outcome)

  /** What a holder of the lock does about the text it reads there. */
  function Decide(x: Process, file: Option<Text>, choice: Decision, schema: Schema): Verdict {
    if x.job == Edit then
      if file != x.copied then Stop(Conflict)
      else if x.edited.Doc? && schema(Strip(x.edited.doc)) then Write(Strip(x.edited.doc), Saved)
      else Stop(Invalid)
    else
      match if file.Some? then file.value else EMPTY
      case Syntax(_) => Stop(Failed)
      case Torn => Stop(Failed)
      case Doc(d) =>
        match x.job
        case Run(gen) =>
          match KeyOf(d) {
            case GoodKey(k) => Stop(GotKey(k))
            case BadKey(_) => Stop(Failed)
            case NoKey => Validated(WithKey(d, gen), d.node != NotATable, GotKey(gen), schema)
          }
        case Keygen(gen, consent) =>
          if KeyOf(d) != NoKey && !consent then Stop(ConsentNeeded)
          else Validated(WithKey(d, gen), d.node != NotATable, GotKey(gen), schema)
        case _ =>
          match choice {
            case Refuse => Stop(Failed)
            case Leave => Stop(Kept)
            case Rewrite(rest) => Validated(Strip(d.(rest := rest)), true, Changed, schema)
          }
  }

  function Validated(d: Document, possible: bool, outcome: Outcome, schema: Schema): Verdict {
    if possible && schema(d) then Write(d, outcome) else Stop(Failed)
  }

  // --------------------------------------------------------- the transitions

  datatype Point =
    | Reading                               // before the first, unlocked read
    | Editing
    | WantsLock
    | HasLock
    | Writing(outcome: Outcome)             // document decided, temporary file under way
    | Renamed(outcome: Outcome)
    | Ended(outcome: Outcome)
    | Crashed

  /** `copied` and `edited` belong to an edit; `base` is what the writer read under
      the lock, `target` what it means to write, `temp` its temporary file. */
  datatype Process = Process(
    job: Job,
    at: Point,
    copied: Option<Text>,
    edited: Text,
    base: Option<Text>,
    target: Document,
    temp: Option<Text>)

  datatype Commit = Commit(process: nat, base: Option<Text>, text: Text)

  /** `rotated`: some commit replaced a stored key by something else. */
  datatype State = State(procs: seq<Process>, file: Option<Text>, commits: seq<Commit>, rotated: bool)

  function Initial(file: Option<Text>): State {
    State([], file, [], false)
  }

  function Started(job: Job): Process {
    Process(job, if job.Run? || job.Edit? then Reading else WantsLock, None, EMPTY, None, EMPTY.doc, None)
  }

  datatype Action =
    | Start(job: Job)
    | Load(p: nat)                          // a start reads without the lock
    | Prepare(p: nat)                       // an edit copies the file
    | Submit(p: nat, edited: Text)
    | TakeLock(p: nat)
    | LockTimesOut(p: nat)
    | ReadAndDecide(p: nat, choice: Decision)
    | CreateTemp(p: nat)
    | SyncTemp(p: nat)
    | WriteFails(p: nat)
    | Rename(p: nat)
    | Release(p: nat)
    | Crash(p: nat)

  predicate HoldsLock(at: Point) {
    at == HasLock || at.Writing? || at.Renamed?
  }

  ghost predicate LockFree(procs: seq<Process>) {
    forall q :: 0 <= q < |procs| ==> !HoldsLock(procs[q].at)
  }

  ghost predicate Enabled(s: State, a: Action) {
    match a
    case Start(_) => true
    case Load(p) => p < |s.procs| && s.procs[p].at == Reading && s.procs[p].job.Run?
    case Prepare(p) => p < |s.procs| && s.procs[p].at == Reading && s.procs[p].job.Edit?
    case Submit(p, _) => p < |s.procs| && s.procs[p].at == Editing
    case TakeLock(p) => p < |s.procs| && s.procs[p].at == WantsLock && LockFree(s.procs)
    case LockTimesOut(p) => p < |s.procs| && s.procs[p].at == WantsLock
    case ReadAndDecide(p, _) => p < |s.procs| && s.procs[p].at == HasLock
    case CreateTemp(p) => p < |s.procs| && s.procs[p].at.Writing? && s.procs[p].temp.None?
    case SyncTemp(p) => p < |s.procs| && s.procs[p].at.Writing? && s.procs[p].temp == Some(Torn)
    case WriteFails(p) => p < |s.procs| && s.procs[p].at.Writing?
    case Rename(p) =>
      p < |s.procs| && s.procs[p].at.Writing? && s.procs[p].temp.Some? && s.procs[p].temp.value != Torn
    case Release(p) => p < |s.procs| && s.procs[p].at.Renamed?
    case Crash(p) => p < |s.procs| && !s.procs[p].at.Ended?
  }

  function Put(s: State, p: nat, x: Process): State
    requires p < |s.procs|
  {
    s.(procs := s.procs[p := x])
  }

  /** A start without the lock: a valid document with a key is enough, one without
      makes it generate. */
  function Loaded(file: Option<Text>, schema: Schema): Point {
    if file.Some? && file.value.Doc? && schema(file.value.doc) then
      match KeyOf(file.value.doc) {
        case GoodKey(k) => Ended(GotKey(k))
        case BadKey(_) => Ended(Failed)
        case NoKey => WantsLock
      }
    else
      Ended(Failed)
  }

  function Submitted(x: Process, edited: Text): Process {
    if edited == (if x.copied.Some? then x.copied.value else EMPTY) then x.(at := Ended(Unchanged))
    else x.(at := WantsLock, edited := edited)
  }

  function Decided(x: Process, file: Option<Text>, choice: Decision, schema: Schema): Process {
    match Decide(x, file, choice, schema)
    case Stop(outcome) => x.(at := Ended(outcome))
    case Write(doc, outcome) => x.(at := Writing(outcome), base := file, target := doc)
  }

  function DoRename(s: State, p: nat): State
    requires p < |s.procs| && s.procs[p].at.Writing? && s.procs[p].temp.Some?
  {
    var x := s.procs[p];
    Put(s, p, x.(at := Renamed(x.at.outcome), temp := None))
      .(file := x.temp,
        commits := s.commits + [Commit(p, x.base, x.temp.value)],
        rotated := s.rotated || Replaces(s.file, x.temp.value))
  }

  /** Every step of one process that leaves the file alone. */
  function Moved(s: State, a: Action, schema: Schema): Process
    requires !a.Start? && !a.Rename? && a.p < |s.procs|
    requires a.Release? ==> s.procs[a.p].at.Renamed?
  {
    var x := s.procs[a.p];
    match a
    case Load(_) => x.(at := Loaded(s.file, schema))
    case Prepare(_) => x.(at := Editing, copied := s.file)
    case Submit(_, edited) => Submitted(x, edited)
    case TakeLock(_) => x.(at := HasLock)
    case LockTimesOut(_) => x.(at := Ended(Failed))
    case ReadAndDecide(_, choice) => Decided(x, s.file, choice, schema)
    case CreateTemp(_) => x.(temp := Some(Torn))
    case SyncTemp(_) => x.(temp := Some(Doc(x.target)))
    case WriteFails(_) => x.(at := Ended(Failed), temp := None)
    case Release(_) => x.(at := Ended(x.at.outcome))
    case Crash(_) => x.(at := Crashed)
  }

  ghost function Apply(s: State, a: Action, schema: Schema): State
    requires Enabled(s, a)
  {
    match a
    case Start(job) => s.(procs := s.procs + [Started(job)])
    case Rename(p) => DoRename(s, p)
    case _ => Put(s, a.p, Moved(s, a, schema))
  }

  ghost function After(initial: Option<Text>, actions: seq<Action>, schema: Schema): Option<State> {
    if actions == [] then Some(Initial(initial))
    else
      match After(initial, actions[..|actions| - 1], schema)
      case None => None
      case Some(s) =>
        var a := actions[|actions| - 1];
        if Enabled(s, a) then Some(Apply(s, a, schema)) else None
  }

  // -------------------------------------------------------------- invariant

  ghost predicate OneHolder(procs: seq<Process>) {
    forall p, q :: 0 <= p < q < |procs| ==> !(HoldsLock(procs[p].at) && HoldsLock(procs[q].at))
  }

  /** A document this program would write. */
  predicate Clean(text: Text, schema: Schema) {
    text.Doc? && schema(text.doc) && !text.doc.retired
  }

  /** A stored key gives way to another one or to none. */
  predicate Replaces(base: Option<Text>, text: Text) {
    StoredKey(base).GoodKey? && StoredKey(Some(text)) != StoredKey(base)
  }

  /** A writer read its base under the lock it still holds; an edit's base is its
      copy; a start writes a key only where none is stored. */
  predicate WriterOk(x: Process, file: Option<Text>, schema: Schema) {
    x.at.Writing? ==>
      && x.base == file
      && Clean(Doc(x.target), schema)
      && Wrote(x.at.outcome)
      && (x.temp.Some? ==> x.temp.value == Torn || x.temp.value == Doc(x.target))
      && (x.job.Edit? ==> x.base == x.copied && x.edited.Doc? && x.target == Strip(x.edited.doc))
      && (Replaces(x.base, Doc(x.target)) ==> MayRotate(x.job))
      && (x.at.outcome.GotKey? ==> StoredKey(Some(Doc(x.target))) == GoodKey(x.at.outcome.key))
  }

  predicate TempOk(x: Process) {
    x.at == Reading || x.at == Editing || x.at == WantsLock || x.at == HasLock || x.at.Renamed? ==> x.temp.None?
  }

  predicate Answer(at: Point, key: nat) {
    at == Ended(GotKey(key)) || at == Renamed(GotKey(key))
  }

  ghost predicate KeysOk(s: State) {
    !s.rotated ==> forall p, k :: 0 <= p < |s.procs| && Answer(s.procs[p].at, k) ==> StoredKey(s.file) == GoodKey(k)
  }

  /** Each commit replaced what the one before it left. */
  ghost predicate Chained(commits: seq<Commit>, initial: Option<Text>, file: Option<Text>) {
    && (commits == [] ==> file == initial)
    && (commits != [] ==> commits[0].base == initial && file == Some(commits[|commits| - 1].text))
    && (forall i, j :: 0 <= i < j < |commits| && j == i + 1 ==> commits[j].base == Some(commits[i].text))
  }

  /** A commit of an edit replaced exactly what the edit had copied. */
  predicate CommitOk(c: Commit, procs: seq<Process>, schema: Schema) {
    && c.process < |procs|
    && Clean(c.text, schema)
    && var x := procs[c.process];
       && (((x.at.Renamed? || x.at.Ended?) && Wrote(x.at.outcome)) || x.at == Crashed)
       && (x.job.Edit? ==> c.base == x.copied && x.edited.Doc? && c.text == Doc(Strip(x.edited.doc)))
  }

  predicate Wrote(o: Outcome) {
    o.GotKey? || o == Changed || o == Saved
  }

  ghost predicate HasCommit(commits: seq<Commit>, p: nat) {
    exists i :: 0 <= i < |commits| && commits[i].process == p
  }

  /** The answers that only a commit gives; a start may also find its key stored. */
  predicate Commits(job: Job, o: Outcome) {
    o == Changed || o == Saved || (o.GotKey? && !job.Run?)
  }

  /** A reported change has its commit. */
  ghost predicate ReportOk(x: Process, p: nat, commits: seq<Commit>) {
    (x.at.Renamed? || x.at.Ended?) && Commits(x.job, x.at.outcome) ==> HasCommit(commits, p)
  }

  ghost predicate ReportsOk(s: State) {
    forall p :: 0 <= p < |s.procs| ==> ReportOk(s.procs[p], p, s.commits)
  }

  ghost predicate CommitsOk(s: State, schema: Schema) {
    && (forall i :: 0 <= i < |s.commits| ==> CommitOk(s.commits[i], s.procs, schema))
    && (forall i, j :: 0 <= i < j < |s.commits| ==> s.commits[i].process != s.commits[j].process)
  }

  ghost predicate Inv(s: State, initial: Option<Text>, schema: Schema) {
    && OneHolder(s.procs)
    && (forall p :: 0 <= p < |s.procs| ==> WriterOk(s.procs[p], s.file, schema) && TempOk(s.procs[p]))
    && KeysOk(s)
    && Chained(s.commits, initial, s.file)
    && CommitsOk(s, schema)
    && ReportsOk(s)
    && RotationOk(s)
  }

  /** A rotation is the commit of a process that may rotate. */
  ghost predicate RotationOk(s: State) {
    s.rotated ==> exists i :: Rotation(s.commits, s.procs, i)
  }

  ghost predicate Rotation(commits: seq<Commit>, procs: seq<Process>, i: nat) {
    && i < |commits| && commits[i].process < |procs|
    && MayRotate(procs[commits[i].process].job)
    && Replaces(commits[i].base, commits[i].text)
  }

  /** A process moves on without touching the file: what it then has must fit, its
      lock must be its own, and it must answer with the stored key. */
  lemma MoveKeeps(s: State, p: nat, x: Process, initial: Option<Text>, schema: Schema)
    requires Inv(s, initial, schema) && p < |s.procs|
    requires HoldsLock(x.at) ==> HoldsLock(s.procs[p].at) || LockFree(s.procs)
    requires WriterOk(x, s.file, schema) && TempOk(x)
    requires !s.rotated ==> forall k :: Answer(x.at, k) ==> StoredKey(s.file) == GoodKey(k)
    requires x.job == s.procs[p].job
    requires s.procs[p].at.Renamed? || s.procs[p].at.Ended? || s.procs[p].at == Crashed ==>
               (x.at == Crashed || (x.at.Ended? && s.procs[p].at == Renamed(x.at.outcome)))
               && x.copied == s.procs[p].copied && x.edited == s.procs[p].edited
    requires ReportOk(x, p, s.commits)
    ensures Inv(Put(s, p, x), initial, schema)
  {
    SameJobsKeepRotation(s, s.procs[p := x]);
    var t := Put(s, p, x);
    forall i | 0 <= i < |t.commits| ensures CommitOk(t.commits[i], t.procs, schema) {
      assert CommitOk(s.commits[i], s.procs, schema);
    }
  }

  lemma StartKeeps(s: State, job: Job, initial: Option<Text>, schema: Schema)
    requires Inv(s, initial, schema)
    ensures Inv(s.(procs := s.procs + [Started(job)]), initial, schema)
  {
    SameJobsKeepRotation(s, s.procs + [Started(job)]);
    var t := s.(procs := s.procs + [Started(job)]);
    forall i | 0 <= i < |t.commits| ensures CommitOk(t.commits[i], t.procs, schema) {
      assert CommitOk(s.commits[i], s.procs, schema);
    }
    forall q | 0 <= q < |t.procs| ensures WriterOk(t.procs[q], t.file, schema) && TempOk(t.procs[q]) {
      assert q < |s.procs| ==> WriterOk(s.procs[q], s.file, schema) && TempOk(s.procs[q]);
    }
  }

  /** The one step that changes the file. Nobody else is writing, so no other
      process's base goes stale, and the keys already answered stay stored unless
      this is a rotation. */
  lemma {:induction false} RenameKeeps(s: State, p: nat, initial: Option<Text>, schema: Schema)
    requires Inv(s, initial, schema) && Enabled(s, Rename(p))
    ensures Inv(DoRename(s, p), initial, schema)
  {
    assert WriterOk(s.procs[p], s.file, schema);
    RenameKeepsWriters(s, p, schema);
    RenameKeepsChain(s, p, initial, schema);
    RenameKeepsCommits(s, p, schema);
    RenameKeepsKeys(s, p, initial, schema);
    RenameKeepsReports(s, p);
    RenameKeepsRotation(s, p, schema);
  }

  lemma RenameKeepsWriters(s: State, p: nat, schema: Schema)
    requires Enabled(s, Rename(p)) && OneHolder(s.procs)
    requires forall q :: 0 <= q < |s.procs| ==> WriterOk(s.procs[q], s.file, schema) && TempOk(s.procs[q])
    ensures var t := DoRename(s, p);
            OneHolder(t.procs) && forall q :: 0 <= q < |t.procs| ==> WriterOk(t.procs[q], t.file, schema) && TempOk(t.procs[q])
  {
    var t := DoRename(s, p);
    forall q | 0 <= q < |t.procs| ensures WriterOk(t.procs[q], t.file, schema) && TempOk(t.procs[q]) {
      assert WriterOk(s.procs[q], s.file, schema) && TempOk(s.procs[q]);
      assert q != p ==> !HoldsLock(s.procs[q].at);
    }
  }

  lemma RenameKeepsChain(s: State, p: nat, initial: Option<Text>, schema: Schema)
    requires Enabled(s, Rename(p)) && Chained(s.commits, initial, s.file) && WriterOk(s.procs[p], s.file, schema)
    ensures var t := DoRename(s, p); Chained(t.commits, initial, t.file)
  {
  }

  lemma RenameKeepsCommits(s: State, p: nat, schema: Schema)
    requires Enabled(s, Rename(p)) && CommitsOk(s, schema) && WriterOk(s.procs[p], s.file, schema) && TempOk(s.procs[p])
    ensures CommitsOk(DoRename(s, p), schema)
  {
    var t := DoRename(s, p);
    forall i | 0 <= i < |t.commits| ensures CommitOk(t.commits[i], t.procs, schema) {
      if i < |s.commits| {
        assert CommitOk(s.commits[i], s.procs, schema);
      }
    }
  }

  lemma RenameKeepsRotation(s: State, p: nat, schema: Schema)
    requires RotationOk(s) && Enabled(s, Rename(p)) && WriterOk(s.procs[p], s.file, schema)
    ensures RotationOk(DoRename(s, p))
  {
    var t := DoRename(s, p);
    if s.rotated {
      var i :| Rotation(s.commits, s.procs, i);
      assert Rotation(t.commits, t.procs, i);
    } else if t.rotated {
      assert Rotation(t.commits, t.procs, |s.commits|);
    }
  }

  /** Processes that move or join without changing their jobs keep it. */
  lemma SameJobsKeepRotation(s: State, procs: seq<Process>)
    requires RotationOk(s) && |s.procs| <= |procs| && forall q :: 0 <= q < |s.procs| ==> procs[q].job == s.procs[q].job
    ensures RotationOk(s.(procs := procs))
  {
    if s.rotated {
      var i :| Rotation(s.commits, s.procs, i);
      assert Rotation(s.commits, procs, i);
    }
  }

  lemma RenameKeepsReports(s: State, p: nat)
    requires ReportsOk(s) && Enabled(s, Rename(p))
    ensures ReportsOk(DoRename(s, p))
  {
    var t := DoRename(s, p);
    assert t.commits[|s.commits|].process == p;
    forall q | 0 <= q < |t.procs| ensures ReportOk(t.procs[q], q, t.commits) {
      if q != p && HasCommit(s.commits, q) {
        var i :| 0 <= i < |s.commits| && s.commits[i].process == q;
        assert t.commits[i].process == q;
      } else {
        assert q != p ==> ReportOk(s.procs[q], q, s.commits);
      }
    }
  }

  lemma RenameKeepsKeys(s: State, p: nat, initial: Option<Text>, schema: Schema)
    requires Inv(s, initial, schema) && Enabled(s, Rename(p))
    ensures KeysOk(DoRename(s, p))
  {
    var t := DoRename(s, p);
    assert WriterOk(s.procs[p], s.file, schema);
    forall q, k | 0 <= q < |t.procs| && Answer(t.procs[q].at, k) && !t.rotated
      ensures StoredKey(t.file) == GoodKey(k)
    {
      if q != p {
        assert Answer(s.procs[q].at, k);
      }
    }
  }

  /** What the process becomes satisfies `MoveKeeps`. */
  lemma MovedFits(s: State, a: Action, initial: Option<Text>, schema: Schema)
    requires Inv(s, initial, schema) && Enabled(s, a) && !a.Start? && !a.Rename?
    ensures
      var x := Moved(s, a, schema);
      WriterOk(x, s.file, schema) && TempOk(x)
  {
    assert WriterOk(s.procs[a.p], s.file, schema) && TempOk(s.procs[a.p]);
  }

  lemma MovedAnswers(s: State, a: Action, k: nat, schema: Schema)
    requires KeysOk(s) && !s.rotated && Enabled(s, a) && !a.Start? && !a.Rename?
    requires Answer(Moved(s, a, schema).at, k)
    ensures StoredKey(s.file) == GoodKey(k)
  {
    if a.Release? {
      assert Answer(s.procs[a.p].at, k);
    }
  }

  lemma MovedReports(s: State, a: Action, schema: Schema)
    requires ReportsOk(s) && Enabled(s, a) && !a.Start? && !a.Rename?
    ensures
      var x, y := s.procs[a.p], Moved(s, a, schema);
      && ReportOk(y, a.p, s.commits)
      && (HoldsLock(y.at) ==> HoldsLock(x.at) || LockFree(s.procs))
      && y.job == x.job
      && (x.at.Renamed? || x.at.Ended? || x.at == Crashed ==>
            (y.at == Crashed || (y.at.Ended? && x.at == Renamed(y.at.outcome))) && y.copied == x.copied && y.edited == x.edited)
  {
    assert ReportOk(s.procs[a.p], a.p, s.commits);
  }

  lemma MoveStepKeeps(s: State, a: Action, initial: Option<Text>, schema: Schema)
    requires Inv(s, initial, schema) && Enabled(s, a) && !a.Start? && !a.Rename?
    ensures Inv(Put(s, a.p, Moved(s, a, schema)), initial, schema)
  {
    var x := Moved(s, a, schema);
    MovedFits(s, a, initial, schema);
    MovedReports(s, a, schema);
    forall k | !s.rotated && Answer(x.at, k) ensures StoredKey(s.file) == GoodKey(k) {
      MovedAnswers(s, a, k, schema);
    }
    MoveKeeps(s, a.p, x, initial, schema);
  }

  lemma StepKeeps(s: State, a: Action, initial: Option<Text>, schema: Schema)
    requires Inv(s, initial, schema) && Enabled(s, a)
    ensures Inv(Apply(s, a, schema), initial, schema)
  {
    match a {
      case Start(job) => StartKeeps(s, job, initial, schema);
      case Rename(p) => RenameKeeps(s, p, initial, schema);
      case _ => MoveStepKeeps(s, a, initial, schema);
    }
  }

  lemma {:induction false} RunKeeps(initial: Option<Text>, actions: seq<Action>, schema: Schema)
    requires After(initial, actions, schema).Some?
    ensures Inv(After(initial, actions, schema).value, initial, schema)
  {
    if actions != [] {
      var before := actions[..|actions| - 1];
      RunKeeps(initial, before, schema);
      StepKeeps(After(initial, before, schema).value, actions[|actions| - 1], initial, schema);
    }
  }

  // --------------------------------------------------------------- theorems

  /** Whatever crashes or interleaves, the config is the initial file or a complete
      document that passed validation with the retired fields gone. */
  lemma {:induction false} AlwaysInitialOrValidated(initial: Option<Text>, actions: seq<Action>, schema: Schema)
    requires After(initial, actions, schema).Some?
    ensures
      var file := After(initial, actions, schema).value.file;
      file == initial || (file.Some? && Clean(file.value, schema))
  {
    RunKeeps(initial, actions, schema);
    var s := After(initial, actions, schema).value;
    if s.commits != [] {
      assert CommitOk(s.commits[|s.commits| - 1], s.procs, schema);
    }
  }

  /** No update is lost: each commit was computed from what its predecessor wrote,
      the first from the initial file, and the file is what the last one wrote. */
  lemma {:induction false} CommitsFormAChain(initial: Option<Text>, actions: seq<Action>, schema: Schema, i: nat)
    requires After(initial, actions, schema).Some?
    requires i < |After(initial, actions, schema).value.commits|
    ensures
      var s := After(initial, actions, schema).value;
      && s.commits[i].base == (if i == 0 then initial else Some(s.commits[i - 1].text))
      && s.file == Some(s.commits[|s.commits| - 1].text)
  {
    RunKeeps(initial, actions, schema);
    var s := After(initial, actions, schema).value;
    ChainedAt(s.commits, initial, s.file, i);
  }

  lemma ChainedAt(commits: seq<Commit>, initial: Option<Text>, file: Option<Text>, i: nat)
    requires Chained(commits, initial, file) && i < |commits|
    ensures commits[i].base == (if i == 0 then initial else Some(commits[i - 1].text))
    ensures file == Some(commits[|commits| - 1].text)
  {
    assert i > 0 ==> commits[i].base == Some(commits[i - 1].text);
  }

  /** A saved edit replaced exactly the text it had been copied from, by the edited
      document without its retired fields, and it did so once. */
  lemma {:induction false} EditReplacesItsOriginal(initial: Option<Text>, actions: seq<Action>, schema: Schema, i: nat, j: nat)
    requires After(initial, actions, schema).Some?
    requires
      var s := After(initial, actions, schema).value;
      i < |s.commits| && j < |s.commits| && s.commits[i].process < |s.procs| && s.procs[s.commits[i].process].job.Edit?
    ensures
      var s := After(initial, actions, schema).value;
      var x := s.procs[s.commits[i].process];
      && s.commits[i].base == x.copied
      && x.edited.Doc? && s.commits[i].text == Doc(Strip(x.edited.doc))
      && (s.commits[j].process == s.commits[i].process ==> i == j)
  {
    RunKeeps(initial, actions, schema);
    var s := After(initial, actions, schema).value;
    assert CommitOk(s.commits[i], s.procs, schema);
  }

  /** While no commit replaced a stored key, everyone who was told a key was told
      the same one, and it is the one in the file. */
  lemma {:induction false} AnswersAgree(initial: Option<Text>, actions: seq<Action>, schema: Schema, p: nat, q: nat, k: nat, m: nat)
    requires After(initial, actions, schema).Some? && !After(initial, actions, schema).value.rotated
    requires
      var s := After(initial, actions, schema).value;
      p < |s.procs| && q < |s.procs| && s.procs[p].at == Ended(GotKey(k)) && s.procs[q].at == Ended(GotKey(m))
    ensures k == m && StoredKey(After(initial, actions, schema).value.file) == GoodKey(k)
  {
    RunKeeps(initial, actions, schema);
    AnswerIsStored(After(initial, actions, schema).value, p, k);
    AnswerIsStored(After(initial, actions, schema).value, q, m);
  }

  /** Only an edit or a consented key generation replaces a stored key: if some commit
      did, it was one of these. */
  lemma OnlyConsentRotates(initial: Option<Text>, actions: seq<Action>, schema: Schema)
    requires After(initial, actions, schema).Some?
    ensures
      var s := After(initial, actions, schema).value;
      s.rotated ==> exists i :: Rotation(s.commits, s.procs, i)
  {
    RunKeeps(initial, actions, schema);
  }

  /** So starts, service changes and key generations without consent, however many and
      however they race, all tell the one key that stays in the file. */
  lemma StartsAgree(initial: Option<Text>, actions: seq<Action>, schema: Schema, p: nat, q: nat, k: nat, m: nat)
    requires After(initial, actions, schema).Some?
    requires
      var s := After(initial, actions, schema).value;
      && (forall r :: 0 <= r < |s.procs| ==> !MayRotate(s.procs[r].job))
      && p < |s.procs| && q < |s.procs| && s.procs[p].at == Ended(GotKey(k)) && s.procs[q].at == Ended(GotKey(m))
    ensures k == m && StoredKey(After(initial, actions, schema).value.file) == GoodKey(k)
  {
    OnlyConsentRotates(initial, actions, schema);
    assert !After(initial, actions, schema).value.rotated;
    AnswersAgree(initial, actions, schema, p, q, k, m);
  }

  lemma AnswerIsStored(s: State, p: nat, k: nat)
    requires KeysOk(s) && !s.rotated && p < |s.procs| && s.procs[p].at == Ended(GotKey(k))
    ensures StoredKey(s.file) == GoodKey(k)
  {
    assert Answer(s.procs[p].at, k);
  }

  /** A process reports a change exactly when it committed one: whatever it
      reports as kept, refused, conflicting, invalid or failed left the file alone.
      Only a start may also report a key it found stored. */
  lemma {:induction false} ReportsAreTrue(initial: Option<Text>, actions: seq<Action>, schema: Schema, p: nat)
    requires After(initial, actions, schema).Some? && p < |After(initial, actions, schema).value.procs|
    requires After(initial, actions, schema).value.procs[p].at.Ended?
    ensures
      var s := After(initial, actions, schema).value;
      var o := s.procs[p].at.outcome;
      && (Commits(s.procs[p].job, o) ==> HasCommit(s.commits, p))
      && (HasCommit(s.commits, p) ==> Wrote(o))
  {
    RunKeeps(initial, actions, schema);
    var s := After(initial, actions, schema).value;
    assert ReportOk(s.procs[p], p, s.commits);
    if i: nat :| i < |s.commits| && s.commits[i].process == p {
      assert CommitOk(s.commits[i], s.procs, schema);
    }
  }
}
