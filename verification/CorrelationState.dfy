/** The correlation state of one key under interleaved calls. Times are microseconds. */
module CorrelationState {
  import opened Ordering

  // ---------------------------------------------------------------- rows

  datatype StateRow = StateRow(
    correlationVersion: string, incidentId: string, generation: nat,
    firstSeen: int, lastSeen: int, expiresAt: int, version: nat)

  /** The table's CHECK constraints. */
  predicate Checked(r: StateRow) {
    r.generation > 0 && r.version > 0 && r.firstSeen <= r.lastSeen < r.expiresAt
  }

  /** One resolve call: the incoming incident, the job, and the clock. `createId` is the identifier the
      create path uses, the incident's own or the version-scoped one. */
  datatype Call = Call(incidentId: string, createId: string, jobId: string, firstSeen: int, lastSeen: int, now: int)

  /** What was folded into an incident, oldest first. */
  type Content = seq<Call>

  /** `material` says whether folding a call into an incident changes anything on it. */
  datatype Rules = Rules(correlationVersion: string, window: nat, ttl: int, material: (Content, Call) -> bool)

  datatype Database = Database(state: Option<StateRow>, incidents: map<string, Content>)

  // ---------------------------------------------------------------- decision

  datatype Decision = Merge | NewGeneration | Stale | Repair

  /** `classify_state_decision`. */
  function Classify(r: StateRow, incidentExists: bool, c: Call, rules: Rules): Decision {
    if !incidentExists then Repair
    else if r.correlationVersion != rules.correlationVersion then NewGeneration
    else if r.expiresAt <= c.now then NewGeneration
    else if c.firstSeen > c.lastSeen then Stale
    else if c.firstSeen > r.lastSeen + rules.window then NewGeneration
    else if c.lastSeen < r.firstSeen - rules.window then Stale
    else Merge
  }

  /** How far apart two windows are; 0 when they touch. */
  function Gap(first: int, last: int, first': int, last': int): int {
    if first' > last then first' - last else if first > last' then first - last' else 0
  }

  /** A call joins the active campaign exactly when that is alive and its window is within reach. */
  lemma {:induction false} MergesExactlyWithinReach(r: StateRow, exists_: bool, c: Call, rules: Rules)
    requires Checked(r)
    ensures Classify(r, exists_, c, rules) == Merge <==>
      && exists_ && r.correlationVersion == rules.correlationVersion && c.now < r.expiresAt
      && c.firstSeen <= c.lastSeen && Gap(r.firstSeen, r.lastSeen, c.firstSeen, c.lastSeen) <= rules.window
    ensures
      && exists_ && r.correlationVersion == rules.correlationVersion && c.now < r.expiresAt
      && c.firstSeen <= c.lastSeen
      ==> (Classify(r, exists_, c, rules) == Stale <==> c.lastSeen + rules.window < r.firstSeen)
  {}

  /** The four answers, each with exactly the rows and calls it is given to. */
  lemma {:induction false} ClassifyExactly(r: StateRow, incidentExists: bool, c: Call, rules: Rules)
    requires Checked(r)
    ensures var d := Classify(r, incidentExists, c, rules);
      var current := r.correlationVersion == rules.correlationVersion && c.now < r.expiresAt;
      && (d == Repair <==> !incidentExists)
      && (d == NewGeneration <==>
            incidentExists && (!current || (c.firstSeen <= c.lastSeen && c.firstSeen - r.lastSeen > rules.window)))
      && (d == Stale <==>
            incidentExists && current && (c.firstSeen > c.lastSeen || r.firstSeen - c.lastSeen > rules.window))
      && (d == Merge <==>
            incidentExists && current && c.firstSeen <= c.lastSeen
            && c.firstSeen - r.lastSeen <= rules.window && r.firstSeen - c.lastSeen <= rules.window)
  {}

  /** `_compute_expires_at`. */
  function ExpiresAt(now: int, lastSeen: int, ttl: int): int {
    (if now >= lastSeen then now else lastSeen) + ttl
  }

  // ---------------------------------------------------------------- writes

  datatype Status = Created | Merged | NoOp | NewGenerationStarted | LeftStale | Conflict | Rejected

  /** What a call does to the database, or that it has to go on with the row that beat it. */
  datatype Effect = Finished(status: Status, db: Database) | Continue(db: Database)

  function ContentOf(db: Database, id: string): Content {
    if id in db.incidents then db.incidents[id] else []
  }

  function NewRow(c: Call, rules: Rules): StateRow {
    StateRow(rules.correlationVersion, c.createId, 1, c.firstSeen, c.lastSeen,
      ExpiresAt(c.now, c.lastSeen, rules.ttl), 1)
  }

  /** `_try_create`: the incident and the state row in one savepoint. A row of another worker, or a
      failed constraint, rolls both back; then only the former lets the call go on. */
  function TryCreate(db: Database, c: Call, rules: Rules): Effect {
    if db.state.Some? then Continue(db)
    else if !Checked(NewRow(c, rules)) then Finished(Rejected, db)
    else Finished(Created, Database(Some(NewRow(c, rules)),
      db.incidents[c.createId := ContentOf(db, c.createId) + [c]]))
  }

  function Lesser(a: int, b: int): int { if a <= b then a else b }
  function Greater(a: int, b: int): int { if a >= b then a else b }

  /** A guarded update: loses to a newer version, and fails on a violated constraint; either way
      everything the call wrote is rolled back. */
  function GuardedUpdate(db: Database, seen: StateRow, after: StateRow, id: string, content: Content,
      status: Status): Effect {
    if db.state.None? || db.state.value.version != seen.version then Finished(Conflict, db)
    else if !Checked(after) then Finished(Rejected, db)
    else Finished(status, Database(Some(after), db.incidents[id := content]))
  }

  /** `_merge` with `extend_active_generation`. */
  function Extend(db: Database, seen: StateRow, content: Content, c: Call, rules: Rules): Effect {
    if !rules.material(content, c) then Finished(NoOp, db)
    else
      var last := Greater(seen.lastSeen, c.lastSeen);
      GuardedUpdate(db, seen,
                    seen.(firstSeen := Lesser(seen.firstSeen, c.firstSeen), lastSeen := last,
                          expiresAt := ExpiresAt(c.now, last, rules.ttl), version := seen.version + 1),
                    seen.incidentId, content + [c], Merged)
  }

  /** `_new_generation` with `replace_expired_generation`: the same incident coming back is merged, not
      restarted. The row keeps its correlation version. */
  function Replace(db: Database, seen: StateRow, content: Option<Content>, c: Call, rules: Rules): Effect {
    if content.Some? && c.incidentId == seen.incidentId then Extend(db, seen, content.value, c, rules)
    else
      GuardedUpdate(db, seen,
                    seen.(incidentId := c.incidentId, generation := seen.generation + 1, firstSeen := c.firstSeen,
                          lastSeen := c.lastSeen, expiresAt := ExpiresAt(c.now, c.lastSeen, rules.ttl),
                          version := seen.version + 1),
                    c.incidentId, ContentOf(db, c.incidentId) + [c], NewGenerationStarted)
  }

  /** `resolve_and_merge` after its reads: the state row and the incident it points to. */
  function Resolve(db: Database, seen: Option<StateRow>, content: Option<Content>, c: Call, rules: Rules): Effect {
    if seen.None? then TryCreate(db, c, rules)
    else match Classify(seen.value, content.Some?, c, rules)
      case Stale => Finished(LeftStale, db)
      case Merge => if content.Some? then Extend(db, seen.value, content.value, c, rules) else Finished(LeftStale, db)
      case NewGeneration => Replace(db, seen.value, content, c, rules)
      case Repair => Replace(db, seen.value, content, c, rules)
  }

  // ---------------------------------------------------------------- what an uninterrupted call leaves

  /** The row starts anew with the call's incident and window, one generation further. */
  predicate StartsAnew(db: Database, n: Database, r: StateRow, c: Call, rules: Rules) {
    && n.state.Some? && RowIs(n.state.value, c.incidentId, r.generation + 1, r.version + 1, r.correlationVersion)
    && n.state.value.firstSeen == c.firstSeen && n.state.value.lastSeen == c.lastSeen && Lives(n.state.value, c, rules)
    && n.incidents == db.incidents[c.incidentId := ContentOf(db, c.incidentId) + [c]]
  }

  predicate RowIs(s: StateRow, incidentId: string, generation: nat, version: nat, correlationVersion: string) {
    && s.incidentId == incidentId && s.generation == generation && s.version == version
    && s.correlationVersion == correlationVersion
  }

  /** The row outlives the call, and the last sighting, by the time to live, and no longer than both. */
  predicate Lives(s: StateRow, c: Call, rules: Rules) {
    && s.expiresAt >= c.now + rules.ttl && s.expiresAt >= s.lastSeen + rules.ttl
    && (s.expiresAt == c.now + rules.ttl || s.expiresAt == s.lastSeen + rules.ttl)
  }

  predicate Spans(s: StateRow, r: StateRow, c: Call) {
    && s.firstSeen <= r.firstSeen && s.firstSeen <= c.firstSeen && s.firstSeen in {r.firstSeen, c.firstSeen}
    && s.lastSeen >= r.lastSeen && s.lastSeen >= c.lastSeen && s.lastSeen in {r.lastSeen, c.lastSeen}
  }

  /** The row's window becomes the hull of both; its incident and generation stay. */
  predicate Grows(db: Database, n: Database, r: StateRow, content: Content, c: Call, rules: Rules) {
    && n.state.Some? && RowIs(n.state.value, r.incidentId, r.generation, r.version + 1, r.correlationVersion)
    && Spans(n.state.value, r, c) && Lives(n.state.value, c, rules)
    && n.incidents == db.incidents[r.incidentId := content + [c]]
  }

  /** A call that reads a row and writes to it undisturbed: what it answers, and what it leaves, in every case
      of row and call. */
  lemma {:induction false} Outcome(db: Database, r: StateRow, c: Call, rules: Rules)
    requires db.state == Some(r) && Checked(r) && rules.ttl > 0 && c.firstSeen <= c.lastSeen
    ensures var there := r.incidentId in db.incidents;
      var content := if there then Some(db.incidents[r.incidentId]) else None;
      var e := Resolve(db, Some(r), content, c, rules);
      var current := r.correlationVersion == rules.correlationVersion && c.now < r.expiresAt;
      && e.Finished?
      && (if there && current && r.firstSeen - c.lastSeen > rules.window then e == Finished(LeftStale, db)
          else if there && (c.incidentId == r.incidentId || (current && c.firstSeen - r.lastSeen <= rules.window)) then
            if rules.material(content.value, c)
            then e.status == Merged && Grows(db, e.db, r, content.value, c, rules)
            else e == Finished(NoOp, db)
          else e.status == NewGenerationStarted && StartsAnew(db, e.db, r, c, rules))
  {}

  /** A row that has expired does not hold back its key: another incident starts a new generation with exactly
      its own window, and the same incident is merged or found unchanged. */
  lemma {:induction false} ExpiredGivesWay(db: Database, r: StateRow, c: Call, rules: Rules)
    requires db.state == Some(r) && Checked(r) && rules.ttl > 0 && c.firstSeen <= c.lastSeen
    requires r.incidentId in db.incidents && r.expiresAt <= c.now
    ensures var e := Resolve(db, Some(r), Some(db.incidents[r.incidentId]), c, rules);
      && e.Finished?
      && (c.incidentId != r.incidentId ==> e.status == NewGenerationStarted && StartsAnew(db, e.db, r, c, rules))
      && (c.incidentId == r.incidentId ==> e.status in {Merged, NoOp})
  {
    Outcome(db, r, c, rules);
  }

  /** Without a row, the call creates it, in generation 1 and with its own window. */
  lemma {:induction false} FirstOutcome(db: Database, c: Call, rules: Rules)
    requires db.state.None? && rules.ttl > 0 && c.firstSeen <= c.lastSeen
    ensures var e := Resolve(db, None, None, c, rules);
      && e.Finished? && e.status == Created && e.db.state.Some?
      && RowIs(e.db.state.value, c.createId, 1, 1, rules.correlationVersion)
      && e.db.state.value.firstSeen == c.firstSeen && e.db.state.value.lastSeen == c.lastSeen
      && Lives(e.db.state.value, c, rules)
      && e.db.incidents == db.incidents[c.createId := ContentOf(db, c.createId) + [c]]
  {}

  // ---------------------------------------------------------------- runs

  datatype Session = Session(call: Call, seen: Option<StateRow>, content: Option<Content>)

  /** `credited`: the calls of the current generation that reported success, in order. */
  datatype World = World(db: Database, sessions: map<string, Session>, credited: Content)

  datatype Step =
    | Open(session: string, call: Call)          // the call's reads
    | Act(session: string)                       // its writes, or going on with the winner's row
    | Abandon(session: string)                   // an exception: nothing is written, the locks are released
    | Drop(incidentId: string)                   // an incident is lost, and its row is not
    | Forget(incidentId: string)                 // cleanup deletes an incident and the row that points to it

  function Read(db: Database, c: Call): Session {
    Session(c, db.state,
            if db.state.Some? && db.state.value.incidentId in db.incidents
              then Some(db.incidents[db.state.value.incidentId]) else None)
  }

  function Credit(credited: Content, c: Call, status: Status): Content {
    match status
    case Created => [c]
    case NewGenerationStarted => [c]
    case Merged => credited + [c]
    case _ => credited
  }

  predicate Initial(w: World) { w.db.state.None? && w.sessions == map[] && w.credited == [] }

  function Without(db: Database, id: string): Database {
    db.(incidents := map x | x in db.incidents && x != id :: db.incidents[x])
  }

  predicate PointsTo(db: Database, id: string) { db.state.Some? && db.state.value.incidentId == id }

  /** A call reads the row, and the incident it points to, with `get_for_update`: until it has ended, nobody
      else deletes them. */
  predicate Locked(w: World, id: string) {
    PointsTo(w.db, id) && exists s :: s in w.sessions && w.sessions[s].seen.Some?
  }

  /** The incident is deleted, and with it the row that points to it. */
  function Forgotten(w: World, id: string): World {
    if PointsTo(w.db, id) then w.(db := Without(w.db, id).(state := None), credited := [])
    else w.(db := Without(w.db, id))
  }

  function Next(w: World, step: Step, rules: Rules): World {
    match step
    case Open(s, c) => w.(sessions := w.sessions[s := Read(w.db, c)])
    case Abandon(s) => w.(sessions := map y | y in w.sessions && y != s :: w.sessions[y])
    case Drop(id) => if Locked(w, id) then w else w.(db := Without(w.db, id))
    case Forget(id) => if Locked(w, id) then w else Forgotten(w, id)
    case Act(s) =>
      if s !in w.sessions then w
      else
        var x := w.sessions[s];
        match Resolve(w.db, x.seen, x.content, x.call, rules)
        case Finished(status, db) =>
          World(db, map y | y in w.sessions && y != s :: w.sessions[y], Credit(w.credited, x.call, status))
        case Continue(db) => World(db, w.sessions[s := Read(db, x.call)], w.credited)
  }

  function Reached(w: World, steps: seq<Step>, rules: Rules): World {
    if steps == [] then w else Next(Reached(w, steps[..|steps| - 1], rules), steps[|steps| - 1], rules)
  }

  // ---------------------------------------------------------------- invariant

  ghost predicate IsHull(first: int, last: int, calls: Content) {
    && (forall i :: 0 <= i < |calls| ==> first <= calls[i].firstSeen && calls[i].lastSeen <= last)
    && (exists i :: 0 <= i < |calls| && calls[i].firstSeen == first)
    && (exists i :: 0 <= i < |calls| && calls[i].lastSeen == last)
  }

  /** The row obeys its constraints, and its window is the hull of the windows of its generation. */
  ghost predicate RowRight(db: Database, credited: Content) {
    if db.state.None? then credited == []
    else
      && Checked(db.state.value) && credited != []
      && IsHull(db.state.value.firstSeen, db.state.value.lastSeen, credited)
  }

  /** The canonical incident holds everything credited to the generation. */
  ghost predicate Holds(db: Database, credited: Content) {
    db.state.Some? && db.state.value.incidentId in db.incidents ==>
      EndsWith(db.incidents[db.state.value.incidentId], credited)
  }

  ghost predicate EndsWith(content: Content, tail: Content) {
    |tail| <= |content| && forall i :: 0 <= i < |tail| ==> content[|content| - |tail| + i] == tail[i]
  }

  /** While the row has the version a session read, it is the row it read. */
  ghost predicate SessionRight(x: Session, db: Database) {
    x.seen.Some? ==>
      && db.state.Some? && Checked(x.seen.value) && x.seen.value.version <= db.state.value.version
      && (x.seen.value.version == db.state.value.version ==> x.seen.value == db.state.value)
  }

  ghost predicate Inv(w: World) {
    && RowRight(w.db, w.credited)
    && forall s :: s in w.sessions ==> SessionRight(w.sessions[s], w.db)
  }

  lemma {:induction false} HullGrows(first: int, last: int, calls: Content, c: Call)
    requires IsHull(first, last, calls)
    ensures IsHull(Lesser(first, c.firstSeen), Greater(last, c.lastSeen), calls + [c])
  {
    var all := calls + [c];
    var i :| 0 <= i < |calls| && calls[i].firstSeen == first;
    var j :| 0 <= j < |calls| && calls[j].lastSeen == last;
    assert all[i] == calls[i] && all[j] == calls[j] && all[|calls|] == c;
  }

  /** The row stays right and only moves forward. */
  ghost predicate MovesForward(db: Database, n: Database, credited: Content, after: Content) {
    && RowRight(n, after)
    && (db.state.Some? ==> n.state.Some? && (n.state == db.state || n.state.value.version > db.state.value.version))
  }

  lemma {:induction false} HullOfOne(c: Call)
    ensures IsHull(c.firstSeen, c.lastSeen, [c])
  {
    assert [c][0] == c;
  }

  lemma {:induction false} ExtendKeeps(db: Database, seen: StateRow, content: Content, c: Call, credited: Content,
      rules: Rules)
    requires RowRight(db, credited)
      && (db.state.Some? && db.state.value.version == seen.version ==> db.state.value == seen)
    ensures var e := Extend(db, seen, content, c, rules);
      e.Finished? && MovesForward(db, e.db, credited, Credit(credited, c, e.status))
  {
    if db.state.Some? { HullGrows(db.state.value.firstSeen, db.state.value.lastSeen, credited, c); }
  }

  lemma {:induction false} ReplaceKeeps(db: Database, seen: StateRow, content: Option<Content>, c: Call,
      credited: Content, rules: Rules)
    requires RowRight(db, credited)
      && (db.state.Some? && db.state.value.version == seen.version ==> db.state.value == seen)
    ensures var e := Replace(db, seen, content, c, rules);
      e.Finished? && MovesForward(db, e.db, credited, Credit(credited, c, e.status))
  {
    HullOfOne(c);
    if content.Some? { ExtendKeeps(db, seen, content.value, c, credited, rules); }
  }

  /** One write step: the row stays right, and its version only rises. */
  lemma {:induction false} ResolveKeeps(db: Database, x: Session, credited: Content, rules: Rules)
    requires RowRight(db, credited) && SessionRight(x, db)
    ensures match Resolve(db, x.seen, x.content, x.call, rules)
      case Continue(n) => n == db && db.state.Some? && x.seen.None?
      case Finished(status, n) => MovesForward(db, n, credited, Credit(credited, x.call, status))
  {
    HullOfOne(x.call);
    if x.seen.Some? {
      ReplaceKeeps(db, x.seen.value, x.content, x.call, credited, rules);
      if x.content.Some? { ExtendKeeps(db, x.seen.value, x.content.value, x.call, credited, rules); }
    }
  }

  lemma {:induction false} StepKeepsInv(w: World, step: Step, rules: Rules)
    requires Inv(w)
    ensures Inv(Next(w, step, rules))
  {
    if step.Act? && step.session in w.sessions {
      ResolveKeeps(w.db, w.sessions[step.session], w.credited, rules);
    }
  }

  /** Whatever the interleaving: the row obeys its constraints, its window is exactly the hull of the
      windows created or merged in its generation, and every session's knowledge is sound. */
  lemma {:induction false} ReachedIsRight(w: World, steps: seq<Step>, rules: Rules)
    requires Initial(w)
    ensures Inv(Reached(w, steps, rules))
  {
    if steps != [] {
      ReachedIsRight(w, steps[..|steps| - 1], rules);
      StepKeepsInv(Reached(w, steps[..|steps| - 1], rules), steps[|steps| - 1], rules);
    }
  }

  // ---------------------------------------------------------------- what one step can do

  function StatusOf(w: World, s: string, rules: Rules): Option<Status> {
    if s !in w.sessions then None
    else
      var x := w.sessions[s];
      var e := Resolve(w.db, x.seen, x.content, x.call, rules);
      if e.Finished? then Some(e.status) else None
  }

  /** The generation never falls, and rises, by exactly one, only in a call that reports a new
      generation; a row appears, in generation 1, only in a call that reports its creation. */
  lemma {:induction false} GenerationMoves(w: World, steps: seq<Step>, s: string, rules: Rules)
    requires Initial(w)
    ensures var b := Reached(w, steps, rules);
      var n := Next(b, Act(s), rules);
      var status := StatusOf(b, s, rules);
      && (b.db.state.Some? ==>
            && n.db.state.Some?
            && n.db.state.value.generation == b.db.state.value.generation
              + (if status == Some(NewGenerationStarted) then 1 else 0))
      && (b.db.state.None? ==> (n.db.state.Some? <==> status == Some(Created))
                               && (n.db.state.Some? ==> n.db.state.value.generation == 1))
  {
    ReachedIsRight(w, steps, rules);
    var b := Reached(w, steps, rules);
    if s in b.sessions { GenerationStep(b.db, b.sessions[s], rules); }
  }

  lemma {:induction false} GenerationStep(db: Database, x: Session, rules: Rules)
    requires SessionRight(x, db)
    ensures match Resolve(db, x.seen, x.content, x.call, rules)
      case Continue(n) => n == db && db.state.Some?
      case Finished(status, n) =>
        && (db.state.Some? ==>
              && n.state.Some?
              && n.state.value.generation == db.state.value.generation
                + (if status == NewGenerationStarted then 1 else 0))
        && (db.state.None? ==>
          (n.state.Some? <==> status == Created) && (n.state.Some? ==> n.state.value.generation == 1))
  {}

  /** What a call writes, it writes to the very row it decided on. */
  lemma {:induction false} DecidesOnItsRow(w: World, steps: seq<Step>, s: string, rules: Rules)
    requires Initial(w)
    ensures var b := Reached(w, steps, rules);
      StatusOf(b, s, rules) in {Some(Merged), Some(NewGenerationStarted)} ==> b.sessions[s].seen == b.db.state
  {
    ReachedIsRight(w, steps, rules);
    var b := Reached(w, steps, rules);
    if s in b.sessions { WritesToItsRow(b.db, b.sessions[s], rules); }
  }

  lemma {:induction false} WritesToItsRow(db: Database, x: Session, rules: Rules)
    requires SessionRight(x, db)
    ensures var e := Resolve(db, x.seen, x.content, x.call, rules);
      e.Finished? && e.status in {Merged, NewGenerationStarted} ==> x.seen == db.state
  {}

  function SingleTime(incident: string, time: int): Call { Call(incident, incident, "job", time, time, time) }

  /** What the lock is for. If the row could be deleted while a call has it in hand, and another call created
      it anew, versions would start again, the guard of the first would find the version it has read, and it
      would start a new generation over a row that is alive and within its reach. */
  lemma {:induction false} ReusedVersionMisleads(w: World, rules: Rules)
    requires rules.window > 0 && rules.ttl > rules.window + 2
    requires var i, k := SingleTime("i", 0), SingleTime("k", rules.window + 2);
      && w.db == Database(Some(NewRow(i, rules)), map["i" := [i]])
      && w.sessions == map["b" := Session(k, Some(NewRow(i, rules)), Some([i]))]
    ensures var k, j := SingleTime("k", rules.window + 2), SingleTime("j", rules.window + 2);
      var n := Next(Next(Forgotten(w, "i"), Open("c", j), rules), Act("c"), rules);
      && Locked(w, "i") && n.db.state == Some(NewRow(j, rules)) && "b" in n.sessions
      && Classify(n.db.state.value, true, k, rules) == Merge
      && StatusOf(n, "b", rules) == Some(NewGenerationStarted)
  {
    assert "b" in w.sessions && w.sessions["b"].seen.Some?;
    Alone(Forgotten(w, "i"), "c", SingleTime("j", rules.window + 2), rules);
  }

  /** A call that meets no row and no incident creates both. */
  lemma {:induction false} Alone(w: World, s: string, c: Call, rules: Rules)
    requires w.db.state.None? && c.createId !in w.db.incidents && Checked(NewRow(c, rules)) && s !in w.sessions
    ensures var n := Next(Next(w, Open(s, c), rules), Act(s), rules);
      n.db == Database(Some(NewRow(c, rules)), w.db.incidents[c.createId := [c]]) && n.sessions == w.sessions
  {
    var n := Next(Next(w, Open(s, c), rules), Act(s), rules);
    assert n.sessions == w.sessions;
    assert [] + [c] == [c];
  }

  /** A call that reports a stale arrival, no change, a lost race or a violated constraint has changed
      nothing, and neither has the loser of a create race, which goes on with the winner's row. */
  lemma {:induction false} NothingLeftBehind(w: World, s: string, rules: Rules)
    requires s in w.sessions
    ensures StatusOf(w, s, rules) in {Some(LeftStale), Some(NoOp), Some(Conflict), Some(Rejected)} ==>
              Next(w, Act(s), rules).db == w.db && Next(w, Act(s), rules).credited == w.credited
    ensures StatusOf(w, s, rules).None? ==>
              && w.sessions[s].seen.None? && w.db.state.Some?
              && Next(w, Act(s), rules).db == w.db
              && Next(w, Act(s), rules).sessions[s] == Read(w.db, w.sessions[s].call)
  {}

  // ---------------------------------------------------------------- no update is lost

  /** A session that will win knows the whole content of the incident it extends. */
  ghost predicate ContentKnown(x: Session, db: Database) {
    && x.seen.Some? && db.state.Some? && x.seen == db.state && x.content.Some? ==>
         x.seen.value.incidentId in db.incidents && db.incidents[x.seen.value.incidentId] == x.content.value
  }

  /** No incident is lost without its row. */
  ghost predicate NoDrops(steps: seq<Step>) { forall i :: 0 <= i < |steps| ==> !steps[i].Drop? }

  ghost predicate ContentInv(w: World) {
    && Holds(w.db, w.credited)
    && forall s :: s in w.sessions ==> ContentKnown(w.sessions[s], w.db)
  }

  lemma {:induction false} ExtendHolds(db: Database, seen: StateRow, content: Content, c: Call, credited: Content,
      rules: Rules)
    requires Holds(db, credited)
      && (db.state.Some? && db.state.value.version == seen.version ==> db.state.value == seen)
    requires db.state == Some(seen) ==> seen.incidentId in db.incidents && db.incidents[seen.incidentId] == content
    ensures var e := Extend(db, seen, content, c, rules); Holds(e.db, Credit(credited, c, e.status))
  {
    if db.state == Some(seen) { EndsWithMore(content, credited, c); }
  }

  lemma {:induction false} ReplaceHolds(db: Database, seen: StateRow, content: Option<Content>, c: Call,
      credited: Content, rules: Rules)
    requires Holds(db, credited)
      && (db.state.Some? && db.state.value.version == seen.version ==> db.state.value == seen)
    requires content.Some? && db.state == Some(seen) ==>
               seen.incidentId in db.incidents && db.incidents[seen.incidentId] == content.value
    ensures var e := Replace(db, seen, content, c, rules); Holds(e.db, Credit(credited, c, e.status))
  {
    if content.Some? && c.incidentId == seen.incidentId {
      ExtendHolds(db, seen, content.value, c, credited, rules);
    } else {
      RestartHolds(db, seen, content, c, credited, rules);
    }
  }

  lemma {:induction false} UpdateHolds(db: Database, seen: StateRow, after: StateRow, id: string, content: Content,
      status: Status, credited: Content, more: Content)
    requires Holds(db, credited) && after.incidentId == id && EndsWith(content, more) && status !in {Conflict, Rejected}
    ensures var e := GuardedUpdate(db, seen, after, id, content, status);
      Holds(e.db, if e.status == status then more else credited)
  {}

  lemma {:induction false} RestartHolds(db: Database, seen: StateRow, content: Option<Content>, c: Call,
      credited: Content, rules: Rules)
    requires Holds(db, credited) && !(content.Some? && c.incidentId == seen.incidentId)
    ensures var e := Replace(db, seen, content, c, rules); Holds(e.db, Credit(credited, c, e.status))
  {
    EndsWithMore(ContentOf(db, c.incidentId), [], c);
    assert [] + [c] == [c];
    UpdateHolds(db, seen,
                seen.(incidentId := c.incidentId, generation := seen.generation + 1, firstSeen := c.firstSeen,
                      lastSeen := c.lastSeen, expiresAt := ExpiresAt(c.now, c.lastSeen, rules.ttl),
                        version := seen.version + 1),
                c.incidentId, ContentOf(db, c.incidentId) + [c], NewGenerationStarted, credited, [c]);
  }

  lemma {:induction false} TryCreateHolds(db: Database, c: Call, credited: Content, rules: Rules)
    requires Holds(db, credited) && TryCreate(db, c, rules).Finished?
    ensures var e := TryCreate(db, c, rules); Holds(e.db, Credit(credited, c, e.status))
  {
    EndsWithMore(ContentOf(db, c.createId), [], c);
    assert [] + [c] == [c];
  }

  lemma {:induction false} ResolveHolds(db: Database, x: Session, credited: Content, rules: Rules)
    requires SessionRight(x, db) && Holds(db, credited) && ContentKnown(x, db)
    requires Resolve(db, x.seen, x.content, x.call, rules).Finished?
    ensures var e := Resolve(db, x.seen, x.content, x.call, rules); Holds(e.db, Credit(credited, x.call, e.status))
  {
    var e := Resolve(db, x.seen, x.content, x.call, rules);
    if x.seen.None? {
      TryCreateHolds(db, x.call, credited, rules);
    } else {
      var decision := Classify(x.seen.value, x.content.Some?, x.call, rules);
      if decision == NewGeneration || decision == Repair {
        ReplaceHolds(db, x.seen.value, x.content, x.call, credited, rules);
      } else if decision == Merge && x.content.Some? {
        ExtendHolds(db, x.seen.value, x.content.value, x.call, credited, rules);
      } else {
        assert e == Finished(LeftStale, db);
      }
    }
  }

  lemma {:induction false} EndsWithMore(content: Content, tail: Content, c: Call)
    requires EndsWith(content, tail) || tail == []
    ensures EndsWith(content + [c], tail + [c])
  {
    forall i | 0 <= i < |tail| ensures (content + [c])[|content| - |tail| + i] == (tail + [c])[i] {
      assert (content + [c])[|content| - |tail| + i] == content[|content| - |tail| + i];
    }
  }

  lemma {:induction false} StepKeepsContent(w: World, step: Step, rules: Rules)
    requires Inv(w) && ContentInv(w)
    ensures ContentInv(Next(w, step, rules))
  {
    var n := Next(w, step, rules);
    if step.Act? && step.session in w.sessions {
      var x := w.sessions[step.session];
      ResolveKeeps(w.db, x, w.credited, rules);
      assert ContentKnown(x, w.db);
      if Resolve(w.db, x.seen, x.content, x.call, rules).Finished? {
        ResolveHolds(w.db, x, w.credited, rules);
        forall s | s in n.sessions ensures ContentKnown(n.sessions[s], n.db) {
          assert ContentKnown(w.sessions[s], w.db) && SessionRight(w.sessions[s], w.db);
        }
      }
    }
  }

  lemma {:induction false} ContentStays(w: World, steps: seq<Step>, rules: Rules)
    requires Initial(w)
    ensures ContentInv(Reached(w, steps, rules))
  {
    if steps != [] {
      ContentStays(w, steps[..|steps| - 1], rules);
      ReachedIsRight(w, steps[..|steps| - 1], rules);
      StepKeepsContent(Reached(w, steps[..|steps| - 1], rules), steps[|steps| - 1], rules);
    }
  }

  lemma {:induction false} CanonicalStays(w: World, steps: seq<Step>, rules: Rules)
    requires Initial(w) && NoDrops(steps)
    ensures var n := Reached(w, steps, rules); n.db.state.Some? ==> n.db.state.value.incidentId in n.db.incidents
  {
    if steps != [] {
      CanonicalStays(w, steps[..|steps| - 1], rules);
      ReachedIsRight(w, steps[..|steps| - 1], rules);
      IncidentStays(Reached(w, steps[..|steps| - 1], rules), steps[|steps| - 1], rules);
    }
  }

  /** Whatever cleanup deletes meanwhile: every call that reported success in the current generation is in the
      canonical incident, in order, as long as that incident is there, and it is there unless it was lost
      without its row. No merge overwrites another. */
  lemma {:induction false} NoUpdateLost(w: World, steps: seq<Step>, rules: Rules)
    requires Initial(w)
    ensures var n := Reached(w, steps, rules);
      && (n.db.state.Some? && n.db.state.value.incidentId in n.db.incidents ==>
            EndsWith(n.db.incidents[n.db.state.value.incidentId], n.credited))
      && (NoDrops(steps) && n.db.state.Some? ==> n.db.state.value.incidentId in n.db.incidents)
  {
    ContentStays(w, steps, rules);
    if NoDrops(steps) { CanonicalStays(w, steps, rules); }
  }

  lemma {:induction false} IncidentStays(w: World, step: Step, rules: Rules)
    requires !step.Drop? && Inv(w)
    requires w.db.state.Some? ==> w.db.state.value.incidentId in w.db.incidents
    ensures var n := Next(w, step, rules); n.db.state.Some? ==> n.db.state.value.incidentId in n.db.incidents
  {
    if step.Act? && step.session in w.sessions { ResolveKeeps(w.db, w.sessions[step.session], w.credited, rules); }
  }
}
