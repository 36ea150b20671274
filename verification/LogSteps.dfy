/** What one poll looks at and reads, as steps of the log machine, while producers append and rotate between
    any two looks or reads. */
module LogSteps {
  import opened Wrappers
  import opened Lines
  import opened Codec
  import opened Tailer
  import opened StateDb
  import opened Sources
  import opened LogMachine
  import Ship

  // ---- Runs of steps ----

  lemma {:induction false} Join(p: LogPipe, s: State, a: seq<Action>, b: seq<Action>)
    requires Legal(p, s, a) && Legal(p, Exec(p, s, a), b)
    ensures Legal(p, s, a + b) && Exec(p, s, a + b) == Exec(p, Exec(p, s, a), b)
    decreases |a|
  {
    hide Apply;
    if a == [] {
      assert a + b == b;
    } else {
      assert (a + b)[1..] == a[1..] + b;
      Join(p, Apply(p, s, a[0]), a[1..], b);
    }
  }

  lemma {:induction false} One(p: LogPipe, s: State, a: Action)
    requires Enabled(p, s, a)
    ensures Legal(p, s, [a]) && Exec(p, s, [a]) == Apply(p, s, a)
  {
    hide Apply;
    assert [a][1..] == [];
  }

  lemma {:induction false} Then(p: LogPipe, s: State, a: seq<Action>, b: Action)
    requires Legal(p, s, a) && Enabled(p, Exec(p, s, a), b)
    ensures Legal(p, s, a + [b]) && Exec(p, s, a + [b]) == Apply(p, Exec(p, s, a), b)
  {
    One(p, Exec(p, s, a), b);
    Join(p, s, a, [b]);
  }

  // ---- The file system meanwhile ----

  function Last(fs: FileSystem, later: seq<FileSystem>): FileSystem {
    if later == [] then fs else later[|later| - 1]
  }

  /** Changes the producers may make while `plans` are pending, by the hypotheses of the machine. */
  ghost predicate ChangesHold(plans: seq<TailPlan>, fs: FileSystem, later: seq<FileSystem>)
    decreases |later|
  {
    later == [] ||
    (Grown(fs.files, later[0].files) && DistinctHeads(later[0].files) && PathsKept(plans, later[0].files, later[0].dir)
     && ChangesHold(plans, later[0], later[1..]))
  }

  function Changes(later: seq<FileSystem>): seq<Action> {
    if later == [] then [] else [Change(later[0].files, later[0].dir)] + Changes(later[1..])
  }

  /** `t` is `s` with another file system. */
  ghost predicate Elsewhere(s: State, fs: FileSystem, t: State) {
    t == s.(files := fs.files, dir := fs.dir)
  }

  lemma {:induction false} ChangesRun(p: LogPipe, s: State, later: seq<FileSystem>)
    requires ChangesHold(Pending(s.phase), FilesOf(s), later)
    ensures Legal(p, s, Changes(later))
    ensures Elsewhere(s, Last(FilesOf(s), later), Exec(p, s, Changes(later)))
    decreases |later|
  {
    hide Grown, DistinctHeads, PathsKept, Legal, Exec;
    NoSteps(p, s);
    if later != [] {
      var fs, rest := later[0], later[1..];
      var step := Change(fs.files, fs.dir);
      var t := Apply(p, s, step);
      ChangesRun(p, t, rest);
      One(p, s, step);
      Join(p, s, [step], Changes(rest));
    }
  }

  /** What happens before the k-th look or read of a poll. */
  type Gaps = nat -> seq<FileSystem>

  // ---- Planning ----

  /** The answers about one path agree with what it holds, or miss it because it vanishes or cannot be read. */
  ghost predicate Truthful(fs: FileSystem, env: Ship.PollEnv, path: string) {
    var look, file := env.looks(path), ContentAt(fs, path);
    look.head.Gone?
    || (file.Some? && look.head == HeadOf(file.value) && (look.size.None? || look.size == Some(|file.value|)))
  }

  function PlanOf(env: Ship.PollEnv, snapshot: Offsets, path: string): seq<TailPlan> {
    var plan := PlanFor(path, env.looks(path), snapshot);
    if plan.Some? then [plan.value] else []
  }

  /** Before each look the producers may act as the machine lets them; each look is truthful. */
  ghost predicate LooksHold(env: Ship.PollEnv, snapshot: Offsets, gaps: Gaps, k: nat, fs: FileSystem, todo: seq<string>,
                            plans: seq<TailPlan>)
    decreases |todo|
  {
    todo == [] ||
    (ChangesHold(plans, fs, gaps(k))
     && var now := Last(fs, gaps(k));
        Truthful(now, env, todo[0])
        && LooksHold(env, snapshot, gaps, k + 1, now, todo[1..], plans + PlanOf(env, snapshot, todo[0])))
  }

  function AfterGaps(gaps: Gaps, k: nat, n: nat, fs: FileSystem): FileSystem
    decreases n
  {
    if n == 0 then fs else AfterGaps(gaps, k + 1, n - 1, Last(fs, gaps(k)))
  }

  function PlansFrom(env: Ship.PollEnv, snapshot: Offsets, todo: seq<string>): seq<TailPlan> {
    if todo == [] then [] else PlanOf(env, snapshot, todo[0]) + PlansFrom(env, snapshot, todo[1..])
  }

  lemma {:induction false} LooksTruthfully(s: State, env: Ship.PollEnv, path: string)
    requires s.phase.Discovering? && Truthful(FilesOf(s), env, path)
    ensures var plan := PlanFor(path, env.looks(path), s.phase.snapshot); Looked(s, path, plan.Some?) == plan
  {}

  /** Only the phase and the file system differ, and perhaps which keys are counted as repeated. */
  ghost predicate MovesTo(s: State, t: State, fs: FileSystem, phase: Phase) {
    t == s.(files := fs.files, dir := fs.dir, phase := phase, repeats := t.repeats)
  }

  /** The keys planned more than once. */
  function PlannedTwice(plans: seq<TailPlan>): set<Key> {
    set i, j | 0 <= i < j < |plans| && KeyOf(plans[i]) == KeyOf(plans[j]) :: KeyOf(plans[i])
  }

  lemma {:induction false} TwiceStays(plans: seq<TailPlan>, more: seq<TailPlan>)
    ensures PlannedTwice(plans) <= PlannedTwice(plans + more)
  {
    hide KeyOf;
    var all := plans + more;
    forall k | k in PlannedTwice(plans)
      ensures k in PlannedTwice(all)
    {
      var i, j :| 0 <= i < j < |plans| && KeyOf(plans[i]) == KeyOf(plans[j]) && KeyOf(plans[i]) == k;
      assert all[i] == plans[i] && all[j] == plans[j];
    }
  }

  lemma {:induction false} TwiceAtTheEnd(plans: seq<TailPlan>, q: TailPlan)
    requires exists r :: r in plans && KeyOf(r) == KeyOf(q)
    ensures KeyOf(q) in PlannedTwice(plans + [q])
  {
    hide KeyOf;
    var r :| r in plans && KeyOf(r) == KeyOf(q);
    var i :| 0 <= i < |plans| && plans[i] == r;
    var all := plans + [q];
    assert all[i] == r && all[|plans|] == q;
  }

  /** One look counts at most a key planned before. */
  lemma {:induction false} LookRepeats(s: State, readable: bool)
    requires s.phase.Discovering? && s.phase.todo != []
    ensures AfterLook(s, readable).phase.Discovering?
    ensures AfterLook(s, readable).repeats <= s.repeats + PlannedTwice(AfterLook(s, readable).phase.plans)
  {
    hide Looked, KeyOf, PlannedTwice;
    var plan := Looked(s, s.phase.todo[0], readable);
    if plan.Some? && exists q :: q in s.phase.plans && KeyOf(q) == KeyOf(plan.value) {
      TwiceAtTheEnd(s.phase.plans, plan.value);
    }
  }

  lemma {:induction false} PlanSteps(p: LogPipe, s: State, env: Ship.PollEnv, gaps: Gaps, k: nat)
    returns (steps: seq<Action>)
    requires s.phase.Discovering?
    requires LooksHold(env, s.phase.snapshot, gaps, k, FilesOf(s), s.phase.todo, s.phase.plans)
    ensures Legal(p, s, steps)
    ensures MovesTo(s, Exec(p, s, steps), AfterGaps(gaps, k, |s.phase.todo|, FilesOf(s)),
                    Discovering(s.phase.run, s.phase.snapshot, [],
                                s.phase.plans + PlansFrom(env, s.phase.snapshot, s.phase.todo)))
    ensures Exec(p, s, steps).repeats
         <= s.repeats + PlannedTwice(s.phase.plans + PlansFrom(env, s.phase.snapshot, s.phase.todo))
    decreases if s.phase.Discovering? then |s.phase.todo| else 0
  {
    hide ChangesHold, Truthful, PlanFor, Looked, KeyOf, PlannedTwice;
    var Discovering(run, snapshot, todo, plans) := s.phase;
    if todo == [] {
      steps := [];
      NoSteps(p, s);
      assert plans + [] == plans;
    } else {
      ChangesRun(p, s, gaps(k));
      var t := Exec(p, s, Changes(gaps(k)));
      var plan := PlanFor(todo[0], env.looks(todo[0]), snapshot);
      LooksTruthfully(t, env, todo[0]);
      var look := PlanNext(plan.Some?);
      var u := Apply(p, t, look);
      assert u.phase == Discovering(run, snapshot, todo[1..], plans + PlanOf(env, snapshot, todo[0])) by {
        assert plans + [] == plans;
      }
      LookRepeats(t, plan.Some?);
      Then(p, s, Changes(gaps(k)), look);
      var rest := PlanSteps(p, u, env, gaps, k + 1);
      steps := (Changes(gaps(k)) + [look]) + rest;
      Join(p, s, Changes(gaps(k)) + [look], rest);
      Assoc(plans, PlanOf(env, snapshot, todo[0]), PlansFrom(env, snapshot, todo[1..]));
      TwiceStays(u.phase.plans, PlansFrom(env, snapshot, todo[1..]));
    }
  }

  function PathsOf(entries: seq<Found>): seq<string> {
    seq(|entries|, i requires 0 <= i < |entries| => entries[i].path)
  }

  lemma {:induction false} PlansFromAppend(env: Ship.PollEnv, snapshot: Offsets, a: seq<string>, b: seq<string>)
    ensures PlansFrom(env, snapshot, a + b) == PlansFrom(env, snapshot, a) + PlansFrom(env, snapshot, b)
  {
    hide PlanOf;
    if a == [] {
      assert a + b == b;
    } else {
      assert (a + b)[1..] == a[1..] + b;
      PlansFromAppend(env, snapshot, a[1..], b);
      Assoc(PlanOf(env, snapshot, a[0]), PlansFrom(env, snapshot, a[1..]), PlansFrom(env, snapshot, b));
    }
  }

  /** The machine plans what the planning loop plans. */
  lemma {:induction false} SamePlans(env: Ship.PollEnv, snapshot: Offsets, entries: seq<Found>)
    ensures PlansFrom(env, snapshot, PathsOf(entries)) == PlansFor(entries, env.looks, snapshot)
  {
    hide PlanFor;
    if entries != [] {
      var init, e := entries[..|entries| - 1], entries[|entries| - 1];
      SamePlans(env, snapshot, init);
      PlansFromAppend(env, snapshot, PathsOf(init), [e.path]);
      assert PathsOf(entries) == PathsOf(init) + [e.path];
      assert [e.path][1..] == [];
      assert PlansFrom(env, snapshot, [e.path]) == PlanOf(env, snapshot, e.path) + [];
      assert PlansFrom(env, snapshot, PathsOf(init)) + [] == PlansFrom(env, snapshot, PathsOf(init));
    }
  }

  // ---- Draining ----

  function FrontViews(env: Ship.PollEnv, plans: seq<TailPlan>): seq<Option<Bytes>> {
    if plans == [] then [] else env.files(plans[0].path)
  }

  /** Before each read the producers may act as the machine lets them; each read sees what the path then holds,
      or fails. */
  ghost predicate ReadsHold(p: LogPipe, env: Ship.PollEnv, gaps: Gaps, k: nat, fs: FileSystem, plans: seq<TailPlan>,
                            views: seq<Option<Bytes>>, offset: int)
    decreases |plans|, |views|, Remaining(Now(views), offset)
  {
    plans == [] ||
    (ChangesHold(plans, fs, gaps(k))
     && var now, c := Last(fs, gaps(k)), Tail(Now(views), offset, p.enc, p.max);
        (Now(views).None? || Now(views) == ContentAt(now, plans[0].path))
        && if c.lines == [] then
             ReadsHold(p, env, gaps, k + 1, now, plans[1..], FrontViews(env, plans[1..]), StartOfFront(plans[1..]))
           else
             LinesMeanProgress(Now(views), offset, p.enc, p.max);
             ReadsHold(p, env, gaps, k + 1, now, plans, Later(views), c.newOffset))
  }

  /** The file system after all reads of a poll. */
  function AfterReads(p: LogPipe, env: Ship.PollEnv, gaps: Gaps, k: nat, fs: FileSystem, plans: seq<TailPlan>,
                      views: seq<Option<Bytes>>, offset: int): FileSystem
    decreases |plans|, |views|, Remaining(Now(views), offset)
  {
    if plans == [] then fs
    else
      var now, c := Last(fs, gaps(k)), Tail(Now(views), offset, p.enc, p.max);
      if c.lines == [] then
        AfterReads(p, env, gaps, k + 1, now, plans[1..], FrontViews(env, plans[1..]), StartOfFront(plans[1..]))
      else
        LinesMeanProgress(Now(views), offset, p.enc, p.max);
        AfterReads(p, env, gaps, k + 1, now, plans, Later(views), c.newOffset)
  }

  function PieceOf(p: LogPipe, env: Ship.PollEnv, q: TailPlan): Piece {
    var chunks := Drain(env.files(q.path), q.start, p.enc, p.max);
    Piece(KeyOf(q), q.path, q.start, EndOffset(chunks, q.start), ChunkLines(chunks))
  }

  function PiecesOf(p: LogPipe, env: Ship.PollEnv, plans: seq<TailPlan>): seq<Piece> {
    seq(|plans|, i requires 0 <= i < |plans| => PieceOf(p, env, plans[i]))
  }

  /** The front piece, drained from a point on, and the pieces after it. */
  function RestOf(p: LogPipe, env: Ship.PollEnv, plans: seq<TailPlan>, views: seq<Option<Bytes>>, offset: int,
                  lines: seq<Text>): seq<Piece> {
    if plans == [] then []
    else
      var chunks := Drain(views, offset, p.enc, p.max);
      [Piece(KeyOf(plans[0]), plans[0].path, plans[0].start, EndOffset(chunks, offset), lines + ChunkLines(chunks))]
      + PiecesOf(p, env, plans[1..])
  }

  lemma {:induction false} FirstChunk(c: TailChunk, rest: seq<TailChunk>, offset: int, lines: seq<Text>)
    ensures EndOffset([c] + rest, offset) == EndOffset(rest, c.newOffset)
    ensures (lines + c.lines) + ChunkLines(rest) == lines + ChunkLines([c] + rest)
  {
    Assoc(lines, c.lines, ChunkLines(rest));
    assert ([c] + rest)[1..] == rest;
  }

  lemma {:induction false} RestAfterRead(p: LogPipe, env: Ship.PollEnv, plans: seq<TailPlan>, views: seq<Option<Bytes>>,
                                         offset: int, lines: seq<Text>)
    requires plans != []
    ensures var c, q := Tail(Now(views), offset, p.enc, p.max), plans[0];
      (c.lines != [] ==>
         RestOf(p, env, plans, views, offset, lines)
         == RestOf(p, env, plans, Later(views), c.newOffset, lines + c.lines))
      && (c.lines == [] ==>
            RestOf(p, env, plans, views, offset, lines)
            == [Piece(KeyOf(q), q.path, q.start, offset, lines)]
               + RestOf(p, env, plans[1..], FrontViews(env, plans[1..]), StartOfFront(plans[1..]), []))
  {
    hide Tail, KeyOf;
    var c := Tail(Now(views), offset, p.enc, p.max);
    if c.lines != [] {
      FirstChunk(c, Drain(Later(views), c.newOffset, p.enc, p.max), offset, lines);
    } else {
      assert lines + [] == lines;
      RestIsPieces(p, env, plans[1..]);
    }
  }

  lemma {:induction false} RestIsPieces(p: LogPipe, env: Ship.PollEnv, plans: seq<TailPlan>)
    ensures RestOf(p, env, plans, FrontViews(env, plans), StartOfFront(plans), []) == PiecesOf(p, env, plans)
  {
    hide Drain, KeyOf;
    if plans != [] {
      var q := plans[0];
      var lines := ChunkLines(Drain(env.files(q.path), q.start, p.enc, p.max));
      assert [] + lines == lines;
      assert PiecesOf(p, env, plans) == [PieceOf(p, env, q)] + PiecesOf(p, env, plans[1..]);
    }
  }

  /** One read: the front file as the view has it. */
  lemma {:induction false} ReadSees(p: LogPipe, s: State, view: Option<Bytes>)
    requires s.phase.Draining? && s.phase.plans != []
    requires view.None? || view == ContentAt(FilesOf(s), s.phase.plans[0].path)
    ensures FrontRead(p, s, view.Some?) == Tail(view, s.phase.offset, p.enc, p.max)
  {
    hide Tail;
  }

  lemma {:induction false} DrainSteps(p: LogPipe, s: State, env: Ship.PollEnv, gaps: Gaps, k: nat,
                                      views: seq<Option<Bytes>>)
    returns (steps: seq<Action>)
    requires s.phase.Draining?
    requires ReadsHold(p, env, gaps, k, FilesOf(s), s.phase.plans, views, s.phase.offset)
    requires s.phase.plans == [] ==> s.phase.offset == 0 && s.phase.lines == []
    ensures Legal(p, s, steps)
    ensures var Draining(run, plans, offset, lines, done) := s.phase;
      Exec(p, s, steps) == s.(files := AfterReads(p, env, gaps, k, FilesOf(s), plans, views, offset).files,
                              dir := AfterReads(p, env, gaps, k, FilesOf(s), plans, views, offset).dir,
                              phase := Draining(run, [], 0, [], done + RestOf(p, env, plans, views, offset, lines)))
    decreases if s.phase.Draining? then |s.phase.plans| else 0, |views|,
              if s.phase.Draining? then Remaining(Now(views), s.phase.offset) else 0
  {
    hide ChangesHold, Tail, KeyOf, RestOf, Legal, Exec;
    var Draining(run, plans, offset, lines, done) := s.phase;
    if plans == [] {
      steps := [];
      NoSteps(p, s);
      assert RestOf(p, env, plans, views, offset, lines) == [] by { NothingLeft(p, env, views, offset, lines); }
      assert done + [] == done;
    } else {
      var fs := Last(FilesOf(s), gaps(k));
      ChangesRun(p, s, gaps(k));
      var t := Exec(p, s, Changes(gaps(k)));
      var c := Tail(Now(views), offset, p.enc, p.max);
      var read := ReadNext(Now(views).Some?);
      ReadSees(p, t, Now(views));
      var u := Apply(p, t, read);
      Then(p, s, Changes(gaps(k)), read);
      RestAfterRead(p, env, plans, views, offset, lines);
      var rest: seq<Action>;
      if c.lines == [] {
        var piece := Piece(KeyOf(plans[0]), plans[0].path, plans[0].start, offset, lines);
        rest := DrainSteps(p, u, env, gaps, k + 1, FrontViews(env, plans[1..]));
        Assoc(done, [piece], RestOf(p, env, plans[1..], FrontViews(env, plans[1..]), StartOfFront(plans[1..]), []));
      } else {
        LinesMeanProgress(Now(views), offset, p.enc, p.max);
        rest := DrainSteps(p, u, env, gaps, k + 1, Later(views));
      }
      steps := (Changes(gaps(k)) + [read]) + rest;
      Join(p, s, Changes(gaps(k)) + [read], rest);
    }
  }

  lemma {:induction false} NoSteps(p: LogPipe, s: State)
    ensures Legal(p, s, []) && Exec(p, s, []) == s
  {}

  lemma {:induction false} NothingLeft(p: LogPipe, env: Ship.PollEnv, views: seq<Option<Bytes>>, offset: int,
                                       lines: seq<Text>)
    ensures RestOf(p, env, [], views, offset, lines) == []
  {}
}
